// The reports: messages sent and received per Line and per operator, and the
// Line status list. The per-Line and per-operator counts walk the nested
// result of the query (Lines, their Conversations, their Messages) with two
// counters; the walk is a method proved to compute the counts of the
// specification functions below.
module ReportsService {
  import opened Wrappers
  import Text
  import opened Seqs
  import opened Schema
  import opened UsersService
  import Database

  const NoPhoneNumber := "Sem n\U{FA}mero"
  const NoOperator := "Sem operador"

  predicate IsSent(d: Direction) { d == Sent }

  /** Everything that is not `Sent` is counted as received. */
  predicate IsReceived(d: Direction) { d != Sent }

  function Directions(ms: seq<Message>): (r: seq<Direction>)
    ensures |r| == |ms| && forall i :: 0 <= i < |ms| ==> r[i] == ms[i].direction
  {
    seq(|ms|, i requires 0 <= i < |ms| => ms[i].direction)
  }

  /** For each conversation, the directions of its messages (the nested include). */
  function Groups(t: Tables, cs: seq<Conversation>): (r: seq<seq<Direction>>)
    ensures |r| == |cs|
  {
    seq(|cs|, i requires 0 <= i < |cs| => Directions(MessagesOf(t, cs[i].id)))
  }

  function Flatten<T>(groups: seq<seq<T>>): seq<T>
    decreases |groups|
  {
    if groups == [] then [] else groups[0] + Flatten(groups[1..])
  }

  lemma {:induction false} FlattenConcat<T>(a: seq<seq<T>>, b: seq<seq<T>>)
    ensures Flatten(a + b) == Flatten(a) + Flatten(b)
    decreases |a|
  {
    if a == [] {
      assert a + b == b;
    } else {
      assert (a + b)[0] == a[0] && (a + b)[1..] == a[1..] + b;
      FlattenConcat(a[1..], b);
    }
  }

  // ---------------------------------------------------------------------
  // getMessagesByLine

  datatype LineReport = LineReport(lineId: nat, phoneNumber: string, instanceName: string, sent: nat, received: nat, total: nat)

  /** The directions of every message of the Line, conversation by conversation. */
  function LineDirections(t: Tables, lineId: nat): seq<Direction> {
    Flatten(Groups(t, ConversationsOfLine(t, lineId)))
  }

  function LineRow(t: Tables, l: Line): LineReport {
    var ds := LineDirections(t, l.id);
    var sent := Count(ds, IsSent);
    var received := Count(ds, IsReceived);
    LineReport(l.id, Text.OrElse(l.phoneNumber, NoPhoneNumber), l.instanceName, sent, received, sent + received)
  }

  /** One row per Line, in the order the Lines are listed. */
  function MessagesByLine(t: Tables): (rows: seq<LineReport>)
    ensures |rows| == |t.lines|
    ensures forall i :: 0 <= i < |rows| ==> rows[i].lineId == t.lines[i].id && rows[i].instanceName == t.lines[i].instanceName
  {
    seq(|t.lines|, i requires 0 <= i < |t.lines| => LineRow(t, t.lines[i]))
  }

  /** The inner walk: one conversation's messages added to the running counters. */
  method AddCounts(ds: seq<Direction>, sent0: nat, received0: nat) returns (sent: nat, received: nat)
    ensures sent == sent0 + Count(ds, IsSent)
    ensures received == received0 + Count(ds, IsReceived)
  {
    sent, received := sent0, received0;
    var j := 0;
    while j < |ds|
      invariant 0 <= j <= |ds|
      invariant sent == sent0 + Count(ds[..j], IsSent)
      invariant received == received0 + Count(ds[..j], IsReceived)
    {
      assert ds[..j + 1] == ds[..j] + [ds[j]];
      CountAppend(ds[..j], ds[j], IsSent);
      CountAppend(ds[..j], ds[j], IsReceived);
      if ds[j] == Sent {
        sent := sent + 1;
      } else {
        received := received + 1;
      }
      j := j + 1;
    }
    assert ds[..j] == ds;
  }

  /** `sent` and `received` of a walk over the directions `groups`, counted by two counters. */
  method CountDirections(groups: seq<seq<Direction>>) returns (sent: nat, received: nat)
    ensures sent == Count(Flatten(groups), IsSent)
    ensures received == Count(Flatten(groups), IsReceived)
  {
    sent, received := 0, 0;
    var i := 0;
    while i < |groups|
      invariant 0 <= i <= |groups|
      invariant sent == Count(Flatten(groups[..i]), IsSent)
      invariant received == Count(Flatten(groups[..i]), IsReceived)
    {
      var done := Flatten(groups[..i]);
      sent, received := AddCounts(groups[i], sent, received);
      assert groups[..i + 1] == groups[..i] + [groups[i]];
      FlattenConcat(groups[..i], [groups[i]]);
      assert Flatten([groups[i]]) == groups[i] + Flatten([]);
      assert Flatten(groups[..i + 1]) == done + groups[i];
      CountConcat(done, groups[i], IsSent);
      CountConcat(done, groups[i], IsReceived);
      i := i + 1;
    }
    assert groups[..i] == groups;
  }

  /** `getMessagesByLine`. */
  method GetMessagesByLine(db: Database.Store) returns (rows: seq<LineReport>)
    ensures rows == MessagesByLine(db.Tables())
  {
    var t := db.Tables();
    rows := [];
    var i := 0;
    while i < |t.lines|
      invariant 0 <= i <= |t.lines|
      invariant |rows| == i && forall k :: 0 <= k < i ==> rows[k] == LineRow(t, t.lines[k])
    {
      var l := t.lines[i];
      var sent, received := CountDirections(Groups(t, ConversationsOfLine(t, l.id)));
      rows := rows + [LineReport(l.id, Text.OrElse(l.phoneNumber, NoPhoneNumber), l.instanceName, sent, received, sent + received)];
      i := i + 1;
    }
  }

  // Properties of a row.

  ghost predicate DistinctIds(cs: seq<Conversation>) {
    forall i, j :: 0 <= i < j < |cs| ==> cs[i].id != cs[j].id
  }

  lemma {:induction false} FilterKeepsDistinctIds(cs: seq<Conversation>, p: Conversation -> bool)
    requires DistinctIds(cs)
    ensures DistinctIds(Filter(cs, p))
    decreases |cs|
  {
    if cs != [] {
      DistinctTail(cs);
      FilterKeepsDistinctIds(cs[1..], p);
      if p(cs[0]) {
        assert Filter(cs, p) == [cs[0]] + Filter(cs[1..], p);
        DistinctCons(cs[0], Filter(cs[1..], p));
      }
    }
  }

  lemma DistinctTail(cs: seq<Conversation>)
    requires cs != [] && DistinctIds(cs)
    ensures DistinctIds(cs[1..])
    ensures forall c :: c in cs[1..] ==> c.id != cs[0].id
  {
    forall i, j | 0 <= i < j < |cs[1..]| ensures cs[1..][i].id != cs[1..][j].id {
      assert cs[1..][i] == cs[i + 1] && cs[1..][j] == cs[j + 1];
    }
    forall c | c in cs[1..] ensures c.id != cs[0].id {
      var k :| 0 <= k < |cs[1..]| && cs[1..][k] == c;
      assert cs[k + 1] == c;
    }
  }

  lemma DistinctCons(c: Conversation, rest: seq<Conversation>)
    requires DistinctIds(rest)
    requires forall x :: x in rest ==> x.id != c.id
    ensures DistinctIds([c] + rest)
  {
    var f := [c] + rest;
    forall i, j | 0 <= i < j < |f| ensures f[i].id != f[j].id {
      assert f[j] == rest[j - 1];
      if i > 0 {
        assert f[i] == rest[i - 1];
      }
    }
  }

  /** The walk over conversations with distinct ids visits each of their messages once. */
  lemma {:induction false} GroupsCount(t: Tables, cs: seq<Conversation>)
    requires DistinctIds(cs)
    ensures |Flatten(Groups(t, cs))| == Count(t.messages, InConversations(ConversationIds(cs)))
    decreases |cs|
  {
    var ids := ConversationIds(cs);
    if cs == [] {
      CountNone(t.messages, InConversations(ids));
    } else {
      var rest := cs[1..];
      assert DistinctIds(rest) by {
        forall i, j | 0 <= i < j < |rest| ensures rest[i].id != rest[j].id {
          assert rest[i] == cs[i + 1] && rest[j] == cs[j + 1];
        }
      }
      GroupsCount(t, rest);
      assert Groups(t, cs) == [Groups(t, cs)[0]] + Groups(t, rest);
      assert |Groups(t, cs)[0]| == Count(t.messages, InConversation(cs[0].id));
      var restIds := ConversationIds(rest);
      assert ids == [cs[0].id] + restIds;
      forall k | 0 <= k < |restIds| ensures restIds[k] != cs[0].id {
        assert restIds[k] == cs[k + 1].id;
      }
      CountDisjointUnion(t.messages, InConversation(cs[0].id), InConversations(restIds), InConversations(ids));
    }
  }

  lemma {:induction false} CountNone<T(!new)>(xs: seq<T>, p: T -> bool)
    requires forall x :: !p(x)
    ensures Count(xs, p) == 0
    decreases |xs|
  {
    if xs != [] {
      CountNone(xs[1..], p);
    }
  }

  /**
   * A row's `total` is `sent + received`, and in consistent tables it is the
   * number of messages in the Line's conversations; a Line without a phone
   * number is listed as "Sem número".
   */
  lemma LineRowTotals(t: Tables, l: Line)
    requires ValidTables(t)
    ensures var r := LineRow(t, l);
      && r.total == r.sent + r.received
      && r.total == Count(t.messages, InConversations(ConversationIds(ConversationsOfLine(t, l.id))))
      && r.phoneNumber == (if Text.Present(l.phoneNumber) then l.phoneNumber.value else NoPhoneNumber)
  {
    var ds := LineDirections(t, l.id);
    CountComplement(ds, IsSent, IsReceived);
    assert DistinctIds(t.conversations) by {
      forall i, j | 0 <= i < j < |t.conversations| ensures t.conversations[i].id != t.conversations[j].id {
        assert ConversationIds(t.conversations)[i] != ConversationIds(t.conversations)[j];
      }
    }
    FilterKeepsDistinctIds(t.conversations, OnLine(l.id));
    GroupsCount(t, ConversationsOfLine(t, l.id));
  }

  // ---------------------------------------------------------------------
  // getMessagesByOperator

  datatype OperatorReport = OperatorReport(operatorId: string, name: string, email: string, sent: nat, received: nat, total: nat)

  /** The directions of every message of every Line of the operator. */
  function LinesGroups(t: Tables, ls: seq<Line>): seq<seq<Direction>>
    decreases |ls|
  {
    if ls == [] then [] else Groups(t, ConversationsOfLine(t, ls[0].id)) + LinesGroups(t, ls[1..])
  }

  function OperatorRow(t: Tables, u: User): OperatorReport {
    var ds := Flatten(LinesGroups(t, LinesOf(t, u.id)));
    var sent := Count(ds, IsSent);
    var received := Count(ds, IsReceived);
    OperatorReport(u.id, u.name, u.email, sent, received, sent + received)
  }

  /** One row per operator account, in the order the accounts are listed. */
  function MessagesByOperator(t: Tables, users: seq<User>): (rows: seq<OperatorReport>)
    ensures |rows| == Count(users, IsOperator)
  {
    var ops := Filter(users, IsOperator);
    seq(|ops|, i requires 0 <= i < |ops| => OperatorRow(t, ops[i]))
  }

  /** `getMessagesByOperator`. */
  method GetMessagesByOperator(db: Database.Store, users: seq<User>) returns (rows: seq<OperatorReport>)
    ensures rows == MessagesByOperator(db.Tables(), users)
  {
    var t := db.Tables();
    var ops := Filter(users, IsOperator);
    rows := [];
    var i := 0;
    while i < |ops|
      invariant 0 <= i <= |ops|
      invariant |rows| == i && forall k :: 0 <= k < i ==> rows[k] == OperatorRow(t, ops[k])
    {
      var u := ops[i];
      var sent, received := CountDirections(LinesGroups(t, LinesOf(t, u.id)));
      rows := rows + [OperatorReport(u.id, u.name, u.email, sent, received, sent + received)];
      i := i + 1;
    }
  }

  function SumSent(rows: seq<LineReport>): nat
    decreases |rows|
  {
    if rows == [] then 0 else rows[0].sent + SumSent(rows[1..])
  }

  function SumReceived(rows: seq<LineReport>): nat
    decreases |rows|
  {
    if rows == [] then 0 else rows[0].received + SumReceived(rows[1..])
  }

  function RowsOf(t: Tables, ls: seq<Line>): (rows: seq<LineReport>)
    ensures |rows| == |ls|
  {
    seq(|ls|, i requires 0 <= i < |ls| => LineRow(t, ls[i]))
  }

  lemma {:induction false} LinesGroupsSums(t: Tables, ls: seq<Line>)
    ensures Count(Flatten(LinesGroups(t, ls)), IsSent) == SumSent(RowsOf(t, ls))
    ensures Count(Flatten(LinesGroups(t, ls)), IsReceived) == SumReceived(RowsOf(t, ls))
    decreases |ls|
  {
    if ls != [] {
      LinesGroupsSums(t, ls[1..]);
      var g := Groups(t, ConversationsOfLine(t, ls[0].id));
      var rest := LinesGroups(t, ls[1..]);
      assert LinesGroups(t, ls) == g + rest;
      FlattenConcat(g, rest);
      CountConcat(Flatten(g), Flatten(rest), IsSent);
      CountConcat(Flatten(g), Flatten(rest), IsReceived);
      var rows := RowsOf(t, ls);
      assert rows[1..] == RowsOf(t, ls[1..]);
      assert rows[0] == LineRow(t, ls[0]);
      assert LineRow(t, ls[0]).sent == Count(Flatten(g), IsSent);
      assert LineRow(t, ls[0]).received == Count(Flatten(g), IsReceived);
    }
  }

  /**
   * An operator's counts are the sums of the per-Line counts over exactly the
   * Lines the operator owns, and `total == sent + received`.
   */
  lemma OperatorSumsItsLines(t: Tables, u: User)
    ensures var r := OperatorRow(t, u);
      var own := RowsOf(t, LinesOf(t, u.id));
      && r.sent == SumSent(own)
      && r.received == SumReceived(own)
      && r.total == r.sent + r.received
      && r.operatorId == u.id
  {
    LinesGroupsSums(t, LinesOf(t, u.id));
  }

  // ---------------------------------------------------------------------
  // getLinesStatus

  datatype LineStatusRow = LineStatusRow(
    id: nat,
    instanceName: string,
    phoneNumber: Option<string>,
    status: LineStatus,
    operatorName: string,
    createdAt: int)

  /** Newest first. */
  predicate NewerFirst(a: Line, b: Line) { a.createdAt >= b.createdAt }

  lemma NewerFirstTotal()
    ensures Total(NewerFirst)
  {
  }

  /** `line.operator?.name || 'Sem operador'`. */
  function OperatorName(users: seq<User>, l: Line): (r: string)
    ensures Text.Truthy(r)
    ensures r != NoOperator ==> exists u :: u in users && u.id == l.operatorId && u.name == r
    ensures (forall u :: u in users ==> u.id != l.operatorId) ==> r == NoOperator
    ensures UniqueUserIds(users) ==> forall u :: u in users && u.id == l.operatorId ==>
      r == (if Text.Truthy(u.name) then u.name else NoOperator)
  {
    match IndexOfUser(users, l.operatorId)
    case Some(k) =>
      assert UniqueUserIds(users) ==> forall u :: u in users && u.id == l.operatorId ==> u == users[k] by {
        if UniqueUserIds(users) {
          forall u | u in users && u.id == l.operatorId ensures u == users[k] {
            var j :| 0 <= j < |users| && users[j] == u;
            assert !(j < k) && !(k < j);
          }
        }
      }
      if Text.Truthy(users[k].name) then users[k].name else NoOperator
    case None => NoOperator
  }

  function StatusRow(users: seq<User>, l: Line): LineStatusRow {
    LineStatusRow(l.id, l.instanceName, l.phoneNumber, l.status, OperatorName(users, l), l.createdAt)
  }

  function LinesStatus(t: Tables, users: seq<User>): (rows: seq<LineStatusRow>)
    ensures |rows| == |t.lines|
  {
    NewerFirstTotal();
    var sorted := SortBy(t.lines, NewerFirst);
    seq(|sorted|, i requires 0 <= i < |sorted| => StatusRow(users, sorted[i]))
  }

  /**
   * The status list holds one row per Line, newest first, each carrying its
   * Line's fields and its operator's name.
   */
  lemma LinesStatusOrder(t: Tables, users: seq<User>)
    ensures var rows := LinesStatus(t, users);
      && (forall i, j :: 0 <= i < j < |rows| ==> rows[i].createdAt >= rows[j].createdAt)
      && (forall l :: l in t.lines ==> StatusRow(users, l) in rows)
      && (forall r :: r in rows ==> exists l :: l in t.lines && r == StatusRow(users, l))
  {
    NewerFirstTotal();
    var sorted := SortBy(t.lines, NewerFirst);
    var rows := LinesStatus(t, users);
    SortedMembers(t.lines, NewerFirst);
    forall i, j | 0 <= i < j < |rows| ensures rows[i].createdAt >= rows[j].createdAt {
      assert NewerFirst(sorted[i], sorted[j]);
    }
    forall l | l in t.lines ensures StatusRow(users, l) in rows {
      var k :| 0 <= k < |sorted| && sorted[k] == l;
      assert rows[k] == StatusRow(users, l);
    }
    forall r | r in rows ensures exists l :: l in t.lines && r == StatusRow(users, l) {
      var k :| 0 <= k < |rows| && rows[k] == r;
      assert sorted[k] in t.lines;
    }
  }
}
