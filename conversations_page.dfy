// The conversations page: the conversation search, the avatar initials, the
// delivery icon of a message, the day separators of a chat and which side a
// message is drawn on. Date formatting is a parameter (`day` maps a
// timestamp to the text `formatDate` shows).
module ConversationsPage {
  import opened Wrappers
  import opened Text
  import opened Seqs
  import opened Schema
  import Gateway
  import WebhooksProcessor
  import ConversationsService

  // ---------------------------------------------------------------------
  // Search.

  const Unknown := "Desconhecido"

  /** `contactName || remoteJid || 'Desconhecido'`. */
  function DisplayName(c: Conversation): (r: string)
    ensures Present(c.contactName) ==> r == c.contactName.value
    ensures !Present(c.contactName) && c.remoteJid != "" ==> r == c.remoteJid
    ensures !Present(c.contactName) && c.remoteJid == "" ==> r == Unknown
    ensures Truthy(r)
  {
    OrElse(Or(c.contactName, Some(c.remoteJid)), Unknown)
  }

  predicate NameMatches(c: Conversation, term: string) {
    Contains(Lower(DisplayName(c)), Lower(term))
  }

  /** `filteredConversations`. */
  function FilteredConversations(cs: seq<Conversation>, term: string): (r: seq<Conversation>)
    ensures forall c :: c in r <==> c in cs && NameMatches(c, term)
  {
    Filter(cs, (c: Conversation) => NameMatches(c, term))
  }

  /**
   * The search keeps the list's order; a contact without a name is found by
   * its JID, and an empty search keeps every conversation.
   */
  lemma SearchByNameOrJid(cs: seq<Conversation>, term: string, c: Conversation)
    ensures SubsequenceOf(FilteredConversations(cs, term), cs)
    ensures c in cs && !Present(c.contactName) && c.remoteJid != "" && Contains(Lower(c.remoteJid), Lower(term))
      ==> c in FilteredConversations(cs, term)
    ensures FilteredConversations(cs, "") == cs
  {
    FilterIsSubsequence(cs, (c: Conversation) => NameMatches(c, term));
    forall c' | c' in cs ensures NameMatches(c', "") {
      assert Lower("") == "";
      ContainsEmptyAndSelf(Lower(DisplayName(c')));
    }
    FilterAll(cs, (c: Conversation) => NameMatches(c, ""));
  }

  // ---------------------------------------------------------------------
  // Initials.

  /** `getInitials(name)` on this page: a missing or empty name shows "?". */
  function ConversationInitials(name: Option<string>): (r: string)
    ensures |r| <= 2
    ensures Present(name) ==> r == Initials(name.value)
    ensures !Present(name) ==> r == "?"
  {
    var r := Initials(OrElse(name, "?"));
    assert !Present(name) ==> r == "?" by {
      if !Present(name) {
        assert IndexOf("?", ' ') == None;
        assert Split("?", ' ') == ["?"];
        assert Words("?") == ["?"] by {
          assert ["?"][1..] == [];
        }
      }
    }
    r
  }

  // ---------------------------------------------------------------------
  // Delivery icon.

  datatype Icon = SingleCheck | GreyDoubleCheck | ReadDoubleCheck

  /** `MessageStatus`: decided on the lower-cased status. */
  function StatusIcon(status: string): (r: Icon)
    ensures r == SingleCheck <==> Lower(status) == "sent"
    ensures r == GreyDoubleCheck <==> Lower(status) == "delivered"
  {
    var s := Lower(status);
    if s == "sent" then SingleCheck
    else if s == "delivered" then GreyDoubleCheck
    else ReadDoubleCheck
  }

  /** Upper-casing or lower-casing the status never changes the icon. */
  lemma StatusIconIgnoresCase(status: string)
    ensures StatusIcon(Upper(status)) == StatusIcon(status)
    ensures StatusIcon(Lower(status)) == StatusIcon(status)
  {
    assert Lower(Upper(status)) == Lower(status);
    assert Lower(Lower(status)) == Lower(status);
  }

  // ---------------------------------------------------------------------
  // Day separators.

  /** `showDate` for the message at `idx`. */
  predicate ShowDate(ms: seq<Message>, idx: nat, day: int -> string)
    requires idx < |ms|
  {
    idx == 0 || day(ms[idx - 1].timestamp) != day(ms[idx].timestamp)
  }

  /**
   * Between `lo` and `hi`, a label is a contiguous stretch of time: a
   * timestamp between two with the same label has that label. The page's
   * `dd 'de' MMMM` label carries no year, so it has this property over any
   * stretch shorter than 364 days (the same day and month come back only a
   * year later), and not over a longer one.
   */
  ghost predicate DaysAreIntervalsWithin(day: int -> string, lo: int, hi: int) {
    forall a, b, c :: lo <= a <= b <= c <= hi && day(a) == day(c) ==> day(b) == day(a)
  }

  /** The labels are intervals over the time the chat spans, from its first message to its last. */
  ghost predicate DaysAreIntervalsOver(day: int -> string, ms: seq<Message>) {
    ms != [] ==> DaysAreIntervalsWithin(day, ms[0].timestamp, ms[|ms| - 1].timestamp)
  }

  ghost predicate Ascending(ms: seq<Message>) {
    forall i, j :: 0 <= i < j < |ms| ==> ms[i].timestamp <= ms[j].timestamp
  }

  /**
   * In a chat in time order, each day gets exactly one separator: two
   * separators never show the same day, and the first message of every
   * message's day, at or before it, carries one.
   */
  lemma OneSeparatorPerDay(ms: seq<Message>, day: int -> string)
    requires Ascending(ms) && DaysAreIntervalsOver(day, ms)
    ensures forall i, j :: 0 <= i < j < |ms| && ShowDate(ms, i, day) && ShowDate(ms, j, day) ==>
      day(ms[i].timestamp) != day(ms[j].timestamp)
    ensures forall i :: 0 <= i < |ms| ==> (DayStart(ms, day, i) <= i
      && ShowDate(ms, DayStart(ms, day, i), day) && day(ms[DayStart(ms, day, i)].timestamp) == day(ms[i].timestamp))
  {
    forall i, j | 0 <= i < j < |ms| && ShowDate(ms, i, day) && ShowDate(ms, j, day)
      ensures day(ms[i].timestamp) != day(ms[j].timestamp)
    {
      SeparatorsDiffer(ms, day, i, j);
    }
    forall i | 0 <= i < |ms|
      ensures DayStart(ms, day, i) <= i && ShowDate(ms, DayStart(ms, day, i), day)
        && day(ms[DayStart(ms, day, i)].timestamp) == day(ms[i].timestamp)
    {
      DayStartShows(ms, day, i);
    }
  }

  lemma SeparatorsDiffer(ms: seq<Message>, day: int -> string, i: nat, j: nat)
    requires Ascending(ms) && DaysAreIntervalsOver(day, ms)
    requires i < j < |ms| && ShowDate(ms, j, day)
    ensures day(ms[i].timestamp) != day(ms[j].timestamp)
  {
    var a, b, c := ms[i].timestamp, ms[j - 1].timestamp, ms[j].timestamp;
    assert a <= b <= c;
    assert ms[0].timestamp <= a by { if i > 0 { assert ms[0].timestamp <= ms[i].timestamp; } }
    assert c <= ms[|ms| - 1].timestamp by { if j < |ms| - 1 { assert ms[j].timestamp <= ms[|ms| - 1].timestamp; } }
    assert day(b) != day(c);
    assert day(a) == day(c) ==> day(b) == day(a);
  }

  /** The index of the message that opens the run of same-day messages `i` belongs to. */
  function DayStart(ms: seq<Message>, day: int -> string, i: nat): (j: nat)
    requires i < |ms|
    ensures j <= i
  {
    if i == 0 || day(ms[i - 1].timestamp) != day(ms[i].timestamp) then i
    else DayStart(ms, day, i - 1)
  }

  lemma {:induction false} DayStartShows(ms: seq<Message>, day: int -> string, i: nat)
    requires i < |ms|
    ensures ShowDate(ms, DayStart(ms, day, i), day)
    ensures day(ms[DayStart(ms, day, i)].timestamp) == day(ms[i].timestamp)
    decreases i
  {
    if !ShowDate(ms, i, day) {
      DayStartShows(ms, day, i - 1);
    }
  }

  /** The chat `findOne` returns is in time order, so its days are separated once each. */
  lemma ChatDaysSeparatedOnce(t: Tables, id: nat, day: int -> string)
    requires ConversationsService.FindOne(t, id).Some?
    requires DaysAreIntervalsOver(day, ConversationsService.FindOne(t, id).value.messages)
    ensures var ms := ConversationsService.FindOne(t, id).value.messages;
      forall i, j :: 0 <= i < j < |ms| && ShowDate(ms, i, day) && ShowDate(ms, j, day) ==>
        day(ms[i].timestamp) != day(ms[j].timestamp)
  {
    OneSeparatorPerDay(ConversationsService.FindOne(t, id).value.messages, day);
  }

  /**
   * The hypothesis cannot be dropped: when a label comes back after a
   * different one, as `dd 'de' MMMM` does a year later, a chat with a
   * message at each of the three times shows that label's separator twice.
   */
  lemma RepeatedLabelShownTwice(day: int -> string, a: int, b: int, c: int)
    requires a <= b <= c && day(a) == day(c) && day(b) != day(a)
    ensures var ms := [Stamped(a), Stamped(b), Stamped(c)];
      && Ascending(ms) && ShowDate(ms, 0, day) && ShowDate(ms, 2, day)
      && day(ms[0].timestamp) == day(ms[2].timestamp)
  {
  }

  function Stamped(ts: int): (m: Message)
    ensures m.timestamp == ts
  {
    Message(0, "", 0, "", None, Received, "", ts)
  }

  // ---------------------------------------------------------------------
  // Sides.

  /** `msg.direction === 'SENT'`. */
  predicate IsSent(m: Message) {
    m.direction == Sent
  }

  /**
   * A message stored from a webhook is drawn on the sender's side exactly
   * when the account sent it, with the grey double check.
   */
  lemma WebhookMessageRendering(t: Tables, p: Gateway.Envelope, nowMs: int)
    requires WebhooksProcessor.HandleUpsert(t, p, nowMs).result.Ok?
    requires WebhooksProcessor.HandleUpsert(t, p, nowMs).result.value.Stored?
    requires WebhooksProcessor.HandleUpsert(t, p, nowMs).result.value.inserted
    ensures var e := WebhooksProcessor.HandleUpsert(t, p, nowMs);
      |e.tables.messages| > |t.messages|
      && var m := e.tables.messages[|t.messages|];
      && (IsSent(m) <==> p.data.value.key.value.fromMe)
      && StatusIcon(m.status) == GreyDoubleCheck
  {
    WebhooksProcessor.InsertedMessage(t, p, nowMs);
    DeliveredIcon();
  }

  /** The status every webhook message is stored with maps to the grey double check. */
  lemma DeliveredIcon()
    ensures StatusIcon("DELIVERED") == GreyDoubleCheck
  {
    assert Lower("DELIVERED") == "delivered";
  }
}
