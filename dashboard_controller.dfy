// The dashboard: the four headline counts and the operator list with each
// operator's presence derived from the status of its Lines.
module DashboardController {
  import opened Wrappers
  import Text
  import opened Seqs
  import opened Schema
  import opened UsersService

  datatype Metrics = Metrics(totalOperators: nat, operatorsOnline: nat, activeLines: nat, totalMessages: nat)

  predicate IsConnected(l: Line) { l.status == Connected }

  /**
   * `getMetrics`: operators online and active Lines are both the number of
   * connected Lines, so the two figures always agree.
   */
  function GetMetrics(t: Tables, users: seq<User>): (r: Metrics)
    ensures r.totalOperators == |Filter(users, IsOperator)|
    ensures r.operatorsOnline == r.activeLines == |Filter(t.lines, IsConnected)|
    ensures r.totalMessages == |t.messages|
  {
    Metrics(Count(users, IsOperator), Count(t.lines, IsConnected), Count(t.lines, IsConnected), |t.messages|)
  }

  datatype Presence = Online | Offline

  datatype CurrentLine = CurrentLine(id: nat, instanceName: string, phoneNumber: Option<string>, status: LineStatus)

  /** An operator account with all its fields, its Lines, and the derived presence. */
  datatype OperatorView = OperatorView(user: User, lines: seq<Line>, status: Presence, currentLine: Option<CurrentLine>)

  function Summary(l: Line): CurrentLine {
    CurrentLine(l.id, l.instanceName, l.phoneNumber, l.status)
  }

  /**
   * One operator: online exactly when one of its Lines is connected, with the
   * first such Line as the current one.
   */
  function View(t: Tables, u: User): (v: OperatorView)
    ensures v.user == u && v.lines == LinesOf(t, u.id)
    ensures v.status == Online <==> exists l :: l in t.lines && l.operatorId == u.id && l.status == Connected
    ensures v.currentLine.Some? <==> v.status == Online
    ensures v.currentLine.Some? ==> exists i :: (0 <= i < |v.lines| && v.currentLine.value == Summary(v.lines[i])
      && v.lines[i].status == Connected && forall j :: 0 <= j < i ==> v.lines[j].status != Connected)
  {
    var ls := LinesOf(t, u.id);
    match Find(ls, IsConnected)
    case Some(l) => OperatorView(u, ls, Online, Some(Summary(l)))
    case None => OperatorView(u, ls, Offline, None)
  }

  /** Ascending by name (code-unit order). */
  predicate NameLe(a: User, b: User) { Text.StrLe(a.name, b.name) }

  lemma NameLeTotal()
    ensures Total(NameLe)
  {
    forall a: User, b: User ensures NameLe(a, b) || NameLe(b, a) {
      Text.StrLeTotal(a.name, b.name);
    }
    forall a: User, b: User, c: User | NameLe(a, b) && NameLe(b, c) ensures NameLe(a, c) {
      Text.StrLeTransitive(a.name, b.name, c.name);
    }
  }

  /** `getOperators`. */
  function GetOperators(t: Tables, users: seq<User>): (r: seq<OperatorView>)
    ensures |r| == Count(users, IsOperator)
  {
    NameLeTotal();
    var ops := SortBy(Filter(users, IsOperator), NameLe);
    seq(|ops|, i requires 0 <= i < |ops| => View(t, ops[i]))
  }

  /**
   * The operator list holds exactly the operator accounts, each once per
   * account, ordered by name.
   */
  lemma OperatorsListed(t: Tables, users: seq<User>)
    ensures var r := GetOperators(t, users);
      && (forall i, j :: 0 <= i < j < |r| ==> Text.StrLe(r[i].user.name, r[j].user.name))
      && (forall u :: u in users && u.role == Operador ==> exists i :: 0 <= i < |r| && r[i].user == u)
      && (forall i :: 0 <= i < |r| ==> r[i].user in users && r[i].user.role == Operador)
  {
    NameLeTotal();
    var ops := SortBy(Filter(users, IsOperator), NameLe);
    var r := GetOperators(t, users);
    SortedMembers(Filter(users, IsOperator), NameLe);
    forall i, j | 0 <= i < j < |r| ensures Text.StrLe(r[i].user.name, r[j].user.name) {
      assert NameLe(ops[i], ops[j]);
    }
    forall u | u in users && u.role == Operador ensures exists i :: 0 <= i < |r| && r[i].user == u {
      assert u in ops;
      var i :| 0 <= i < |ops| && ops[i] == u;
      assert r[i].user == u;
    }
    forall i | 0 <= i < |r| ensures r[i].user in users && r[i].user.role == Operador {
      assert ops[i] in ops;
    }
  }
}
