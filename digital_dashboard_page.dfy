// The back-office dashboard page: the wallet choices, the operator filter
// (search, status and wallet) and the Line a click on an operator opens.
module DigitalDashboardPage {
  import opened Wrappers
  import opened Text
  import opened Seqs
  import opened ApiTypes
  import Schema
  import DashboardController
  import UsersService

  datatype CurrentLineRef = CurrentLineRef(id: Option<nat>, phoneNumber: Option<string>)

  /** An operator as `GET dashboard/operators` delivers it to the page. */
  datatype OperatorCard = OperatorCard(
    name: string,
    email: string,
    wallet: Option<string>,
    status: Option<string>,
    currentLine: Option<CurrentLineRef>,
    lines: Option<seq<LineRef>>)

  // ---------------------------------------------------------------------
  // Wallets.

  /** `ops.map(op => op.wallet).filter(Boolean)`. */
  function WalletValues(ops: seq<OperatorCard>): (ws: seq<string>)
    ensures forall w :: w in ws <==> exists op :: op in ops && op.wallet == Some(w) && w != ""
  {
    if ops == [] then []
    else
      var rest := WalletValues(ops[1..]);
      assert forall op :: op in ops[1..] ==> op in ops;
      assert forall op :: op in ops ==> op == ops[0] || op in ops[1..];
      (if Present(ops[0].wallet) then [ops[0].wallet.value] else []) + rest
  }

  /** `Array.from(new Set(xs))`: each value once, at its first occurrence. */
  function Distinct(xs: seq<string>): (r: seq<string>)
    ensures forall x :: x in r <==> x in xs
    ensures forall i, j :: 0 <= i < j < |r| ==> r[i] != r[j]
    ensures |r| <= |xs|
    ensures xs != [] ==> |r| > 0 && r[0] == xs[0]
    decreases |xs|
  {
    if xs == [] then []
    else
      var x := xs[0];
      var rest := Distinct(Filter(xs[1..], (y: string) => y != x));
      assert forall y :: y in xs ==> y == x || y in xs[1..];
      assert x !in rest;
      [x] + rest
  }

  /** The wallet choices: every non-empty wallet of an operator, each once. */
  function Wallets(ops: seq<OperatorCard>): (ws: seq<string>)
    ensures forall w :: w in ws <==> exists op :: op in ops && op.wallet == Some(w) && w != ""
    ensures forall i, j :: 0 <= i < j < |ws| ==> ws[i] != ws[j]
  {
    Distinct(WalletValues(ops))
  }

  // ---------------------------------------------------------------------
  // The operator filter.

  /** The phone of the operator's current Line includes the term, as typed. */
  predicate PhoneMatches(op: OperatorCard, term: string) {
    op.currentLine.Some? && op.currentLine.value.phoneNumber.Some?
    && Contains(op.currentLine.value.phoneNumber.value, term)
  }

  predicate SearchMatches(op: OperatorCard, term: string) {
    Contains(Lower(op.name), Lower(term)) || Contains(Lower(op.email), Lower(term)) || PhoneMatches(op, term)
  }

  /** The predicate `filteredOperators` applies to each operator. */
  predicate Shown(op: OperatorCard, term: string, statusFilter: string, walletFilter: string) {
    var opStatus := OrElse(op.status, "offline");
    if statusFilter == "online" && opStatus != "online" then false
    else if statusFilter == "offline" && opStatus != "offline" then false
    else if walletFilter != "all" && op.wallet != Some(walletFilter) then false
    else SearchMatches(op, term)
  }

  function FilteredOperators(ops: seq<OperatorCard>, term: string, statusFilter: string, walletFilter: string)
    : (r: seq<OperatorCard>)
    ensures forall op :: op in r <==> op in ops && Shown(op, term, statusFilter, walletFilter)
  {
    Filter(ops, (op: OperatorCard) => Shown(op, term, statusFilter, walletFilter))
  }

  /**
   * What the filters guarantee of every operator listed, and that the list is
   * the operators in their own order with some left out.
   */
  lemma FilterGuarantees(ops: seq<OperatorCard>, term: string, statusFilter: string, walletFilter: string)
    ensures var r := FilteredOperators(ops, term, statusFilter, walletFilter);
      && SubsequenceOf(r, ops)
      && (forall op :: op in r ==> SearchMatches(op, term))
      && (statusFilter == "online" ==> forall op :: op in r ==> op.status == Some("online"))
      && (statusFilter == "offline" ==> forall op :: op in r ==> !Present(op.status) || op.status == Some("offline"))
      && (walletFilter != "all" ==> forall op :: op in r ==> op.wallet == Some(walletFilter))
  {
    FilterIsSubsequence(ops, (op: OperatorCard) => Shown(op, term, statusFilter, walletFilter));
  }

  /** An operator the search matches is listed under the "all" status and wallet choices. */
  lemma AllFiltersAdmit(ops: seq<OperatorCard>, term: string, op: OperatorCard)
    requires op in ops && SearchMatches(op, term)
    ensures op in FilteredOperators(ops, term, "all", "all")
  {
  }

  /** With an empty search and "all" chosen twice, every operator is listed, in order. */
  lemma EmptySearchListsAll(ops: seq<OperatorCard>)
    ensures FilteredOperators(ops, "", "all", "all") == ops
  {
    forall op | op in ops ensures Shown(op, "", "all", "all") {
      assert Lower("") == "";
      ContainsEmptyAndSelf(Lower(op.name));
    }
    FilterAll(ops, (op: OperatorCard) => Shown(op, "", "all", "all"));
  }

  // ---------------------------------------------------------------------
  // Clicking an operator.

  datatype Click = Navigate(lineId: nat) | NoLinesAlert

  predicate CurrentTruthy(op: OperatorCard) {
    op.currentLine.Some? && IdTruthy(op.currentLine.value.id)
  }

  /**
   * `handleOperatorClick`: the current Line when it has an id, else the first
   * connected Line, else the first Line; an alert when the chosen Line has
   * no id or there is none.
   */
  function ClickTarget(op: OperatorCard): (r: Click)
    ensures CurrentTruthy(op) ==> r == Navigate(op.currentLine.value.id.value)
    ensures !CurrentTruthy(op) ==> forall i :: (0 <= i < |op.lines.GetOr([])| && IsConnectedRef(op.lines.GetOr([])[i])
      && (forall j :: 0 <= j < i ==> !IsConnectedRef(op.lines.GetOr([])[j]))) ==>
        r == (if IdTruthy(op.lines.GetOr([])[i].id) then Navigate(op.lines.GetOr([])[i].id.value) else NoLinesAlert)
    ensures !CurrentTruthy(op) && op.lines.GetOr([]) != [] && (forall l :: l in op.lines.GetOr([]) ==> !IsConnectedRef(l)) ==>
      r == (if IdTruthy(op.lines.GetOr([])[0].id) then Navigate(op.lines.GetOr([])[0].id.value) else NoLinesAlert)
    ensures !CurrentTruthy(op) && op.lines.GetOr([]) == [] ==> r == NoLinesAlert
  {
    if CurrentTruthy(op) then Navigate(op.currentLine.value.id.value)
    else
      var ls := op.lines.GetOr([]);
      var any := ActiveLine(ls);
      if any.Some? && IdTruthy(any.value.id) then Navigate(any.value.id.value) else NoLinesAlert
  }

  // ---------------------------------------------------------------------
  // The page fed by the dashboard endpoint.

  function StatusText(s: Schema.LineStatus): string {
    match s
    case Connected => "connected"
    case Disconnected => "disconnected"
  }

  function RefOf(l: Schema.Line): LineRef {
    LineRef(Some(l.id), Some(StatusText(l.status)))
  }

  /** The JSON form of one entry of `getOperators`. */
  function CardOf(v: DashboardController.OperatorView): (c: OperatorCard)
    ensures c.lines.Some? && |c.lines.value| == |v.lines|
    ensures forall i :: 0 <= i < |v.lines| ==> c.lines.value[i] == RefOf(v.lines[i])
  {
    OperatorCard(
      v.user.name, v.user.email, v.user.wallet,
      Some(if v.status == DashboardController.Online then "online" else "offline"),
      match v.currentLine
      case None => None
      case Some(cl) => Some(CurrentLineRef(Some(cl.id), cl.phoneNumber)),
      Some(seq(|v.lines|, i requires 0 <= i < |v.lines| => RefOf(v.lines[i]))))
  }

  /**
   * A click on an operator from the dashboard opens its first connected Line when it has one, else its first
   * Line, and alerts only when it has no Line at all.
   */
  lemma ClickOpensOperatorLine(t: Schema.Tables, u: UsersService.User)
    ensures var ls := Schema.LinesOf(t, u.id);
      var c := ClickTarget(CardOf(DashboardController.View(t, u)));
      && (forall i :: (0 <= i < |ls| && ls[i].status == Schema.Connected
            && (forall j :: 0 <= j < i ==> ls[j].status != Schema.Connected)) ==> c == Navigate(ls[i].id))
      && ((forall l :: l in ls ==> l.status != Schema.Connected) && ls != [] ==> c == Navigate(ls[0].id))
      && (ls == [] <==> c == NoLinesAlert)
  {
    var ls := Schema.LinesOf(t, u.id);
    forall i | 0 <= i < |ls| && ls[i].status == Schema.Connected && (forall j :: 0 <= j < i ==> ls[j].status != Schema.Connected)
      ensures ClickTarget(CardOf(DashboardController.View(t, u))) == Navigate(ls[i].id)
    {
      ClickWhenConnected(t, u, i);
    }
    if forall l :: l in ls ==> l.status != Schema.Connected {
      ClickWhenNoneConnected(t, u);
    }
    if ls != [] {
      ClickWhenLines(t, u);
    }
  }

  lemma ClickWhenConnected(t: Schema.Tables, u: UsersService.User, i: nat)
    requires var ls := Schema.LinesOf(t, u.id);
      0 <= i < |ls| && ls[i].status == Schema.Connected && (forall j :: 0 <= j < i ==> ls[j].status != Schema.Connected)
    ensures ClickTarget(CardOf(DashboardController.View(t, u))) == Navigate(Schema.LinesOf(t, u.id)[i].id)
  {
    var v := DashboardController.View(t, u);
    var ls := Schema.LinesOf(t, u.id);
    assert ls[i] in t.lines;
    assert v.status == DashboardController.Online;
    var k :| 0 <= k < |v.lines| && v.currentLine.value == DashboardController.Summary(v.lines[k])
      && v.lines[k].status == Schema.Connected && forall j :: 0 <= j < k ==> v.lines[j].status != Schema.Connected;
    assert k == i;
    var card := CardOf(v);
    assert card.currentLine == Some(CurrentLineRef(Some(ls[i].id), ls[i].phoneNumber));
    assert CurrentTruthy(card);
  }

  lemma ClickWhenNoneConnected(t: Schema.Tables, u: UsersService.User)
    requires forall l :: l in Schema.LinesOf(t, u.id) ==> l.status != Schema.Connected
    ensures Schema.LinesOf(t, u.id) != [] ==>
      ClickTarget(CardOf(DashboardController.View(t, u))) == Navigate(Schema.LinesOf(t, u.id)[0].id)
  {
    var v := DashboardController.View(t, u);
    var ls := Schema.LinesOf(t, u.id);
    var refs := CardOf(v).lines.value;
    assert v.status == DashboardController.Offline by {
      forall l | l in t.lines && l.operatorId == u.id ensures l.status != Schema.Connected {
        assert l in ls;
      }
    }
    forall l | l in refs ensures !IsConnectedRef(l) {
      var k :| 0 <= k < |refs| && refs[k] == l;
      assert ls[k] in ls;
    }
    if ls != [] {
      assert ls[0] in t.lines;
    }
  }

  lemma ClickWhenLines(t: Schema.Tables, u: UsersService.User)
    requires Schema.LinesOf(t, u.id) != []
    ensures ClickTarget(CardOf(DashboardController.View(t, u))) != NoLinesAlert
  {
    var v := DashboardController.View(t, u);
    var ls := Schema.LinesOf(t, u.id);
    var card := CardOf(v);
    var refs := card.lines.value;
    if !CurrentTruthy(card) {
      var any := ActiveLine(refs);
      var k :| 0 <= k < |refs| && refs[k] == any.value;
      assert ls[k] in t.lines;
    }
  }
}
