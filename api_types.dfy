// The shapes the pages receive from the backend's JSON replies, as far as the
// page helpers read them. An absent property is `None`. The backend's ids are
// non-empty strings, written here as the numbers the model's store hands out.
module ApiTypes {
  import opened Wrappers
  import Text
  import opened Seqs

  /** A Line as listed under an operator: its id and its status text. */
  datatype LineRef = LineRef(id: Option<nat>, status: Option<string>)

  /** An id used as a condition: a non-empty string, so truthy exactly when it is present. */
  predicate IdTruthy(id: Option<nat>) {
    id.Some?
  }

  /** `l.status === 'connected'`. */
  predicate IsConnectedRef(l: LineRef) {
    l.status == Some("connected")
  }

  /**
   * `lines.find(l => l.status === 'connected') || lines[0]`: the first
   * connected Line, else the first Line, else nothing.
   */
  function ActiveLine(ls: seq<LineRef>): (r: Option<LineRef>)
    ensures r.None? <==> ls == []
    ensures r.Some? ==> r.value in ls
    ensures (exists l :: l in ls && IsConnectedRef(l)) ==> r.Some? && IsConnectedRef(r.value)
    ensures forall i :: 0 <= i < |ls| && IsConnectedRef(ls[i]) && (forall j :: 0 <= j < i ==> !IsConnectedRef(ls[j])) ==>
      r == Some(ls[i])
    ensures (forall l :: l in ls ==> !IsConnectedRef(l)) && ls != [] ==> r == Some(ls[0])
  {
    match Find(ls, IsConnectedRef)
    case Some(l) =>
      assert forall i :: 0 <= i < |ls| && IsConnectedRef(ls[i]) && (forall j :: 0 <= j < i ==> !IsConnectedRef(ls[j])) ==>
        l == ls[i] by {
        forall i | 0 <= i < |ls| && IsConnectedRef(ls[i]) && (forall j :: 0 <= j < i ==> !IsConnectedRef(ls[j]))
          ensures l == ls[i]
        {
          var k :| 0 <= k < |ls| && ls[k] == l && forall j :: 0 <= j < k ==> !IsConnectedRef(ls[j]);
          assert !(k < i) && !(i < k);
        }
      }
      Some(l)
    case None => if ls == [] then None else Some(ls[0])
  }
}
