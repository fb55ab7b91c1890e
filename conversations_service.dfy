// The conversation queries: a Line's conversations with their latest message
// as a preview, and one conversation with its whole history.
module ConversationsService {
  import opened Wrappers
  import opened Seqs
  import opened Schema

  /** A conversation with the messages the query included. */
  datatype Listing = Listing(conversation: Conversation, messages: seq<Message>)

  /** Most recently updated first. */
  predicate RecentFirst(a: Conversation, b: Conversation) { a.updatedAt >= b.updatedAt }

  /** Latest message first. */
  predicate LatestFirst(a: Message, b: Message) { a.timestamp >= b.timestamp }

  /** Chat order: earliest message first. */
  predicate EarliestFirst(a: Message, b: Message) { a.timestamp <= b.timestamp }

  lemma OrdersTotal()
    ensures Total(RecentFirst) && Total(LatestFirst) && Total(EarliestFirst)
  {
  }

  /** The conversation's messages, latest first, cut to the first one (`take: 1`). */
  function Preview(t: Tables, c: Conversation): (r: seq<Message>)
    ensures |r| <= 1
    ensures |r| == 1 <==> exists m :: m in t.messages && m.conversationId == c.id
    ensures |r| == 1 ==> (r[0] in t.messages && r[0].conversationId == c.id
      && forall m :: m in t.messages && m.conversationId == c.id ==> m.timestamp <= r[0].timestamp)
  {
    OrdersTotal();
    var sorted := SortBy(MessagesOf(t, c.id), LatestFirst);
    SortedMembers(MessagesOf(t, c.id), LatestFirst);
    if sorted == [] then []
    else
      assert forall m :: m in sorted ==> m.timestamp <= sorted[0].timestamp by {
        forall m | m in sorted ensures m.timestamp <= sorted[0].timestamp {
          var k :| 0 <= k < |sorted| && sorted[k] == m;
          if k > 0 { assert LatestFirst(sorted[0], sorted[k]); }
        }
      }
      assert sorted[0] in sorted;
      [sorted[0]]
  }

  function Listings(t: Tables, cs: seq<Conversation>): (r: seq<Listing>)
    ensures |r| == |cs|
    ensures forall i :: 0 <= i < |r| ==> r[i].conversation == cs[i]
    ensures forall i :: 0 <= i < |r| ==> r[i].messages == Preview(t, cs[i])
  {
    seq(|cs|, i requires 0 <= i < |cs| => Listing(cs[i], Preview(t, cs[i])))
  }

  /** `findAll`: `None` stands for an absent or empty `lineId`, which lists nothing. */
  function FindAll(t: Tables, lineId: Option<nat>): (r: seq<Listing>)
    ensures lineId.None? ==> r == []
    ensures forall i :: 0 <= i < |r| ==> r[i].messages == Preview(t, r[i].conversation)
  {
    match lineId
    case None => []
    case Some(id) =>
      OrdersTotal();
      Listings(t, SortBy(ConversationsOfLine(t, id), RecentFirst))
  }

  /**
   * For a given Line, `findAll` lists exactly the Line's conversations, most
   * recently updated first.
   */
  lemma FindAllListsLine(t: Tables, lineId: nat)
    ensures var r := FindAll(t, Some(lineId));
      && (forall i, j :: 0 <= i < j < |r| ==> r[i].conversation.updatedAt >= r[j].conversation.updatedAt)
      && (forall i :: 0 <= i < |r| ==> r[i].conversation in t.conversations && r[i].conversation.lineId == lineId)
      && (forall c :: c in t.conversations && c.lineId == lineId ==> exists i :: 0 <= i < |r| && r[i].conversation == c)
  {
    OrdersTotal();
    var cs := SortBy(ConversationsOfLine(t, lineId), RecentFirst);
    SortedMembers(ConversationsOfLine(t, lineId), RecentFirst);
    var r := FindAll(t, Some(lineId));
    assert r == Listings(t, cs);
    forall i, j | 0 <= i < j < |cs| ensures cs[i].updatedAt >= cs[j].updatedAt {
      assert RecentFirst(cs[i], cs[j]);
    }
    forall i | 0 <= i < |cs| ensures cs[i] in t.conversations && cs[i].lineId == lineId {
      assert cs[i] in cs;
    }
    forall c | c in t.conversations && c.lineId == lineId ensures exists i :: 0 <= i < |cs| && cs[i] == c {
      assert c in cs;
    }
  }

  function ConversationWithId(t: Tables, id: nat): (r: Option<Conversation>)
    ensures r.Some? ==> r.value in t.conversations && r.value.id == id
    ensures r.None? <==> forall c :: c in t.conversations ==> c.id != id
  {
    Find(t.conversations, (c: Conversation) => c.id == id)
  }

  /**
   * `findOne`: an unknown id yields `None`; a known one comes with all its
   * messages in chat order.
   */
  function FindOne(t: Tables, id: nat): (r: Option<Listing>)
    ensures r.None? <==> forall c :: c in t.conversations ==> c.id != id
    ensures r.Some? ==> r.value.conversation in t.conversations && r.value.conversation.id == id
    ensures r.Some? ==> multiset(r.value.messages) == multiset(MessagesOf(t, id))
    ensures r.Some? ==> forall i, j :: 0 <= i < j < |r.value.messages| ==> r.value.messages[i].timestamp <= r.value.messages[j].timestamp
  {
    match ConversationWithId(t, id)
    case None => None
    case Some(c) =>
      OrdersTotal();
      var ms := SortBy(MessagesOf(t, id), EarliestFirst);
      assert forall i, j :: 0 <= i < j < |ms| ==> EarliestFirst(ms[i], ms[j]);
      Some(Listing(c, ms))
  }

  /** The route `GET conversations/:id`: the paging arguments are handed over and not used. */
  function FindOneRoute(t: Tables, id: nat, limit: Option<nat>, before: Option<string>, after: Option<string>): Option<Listing> {
    FindOne(t, id)
  }

  /** Whatever paging arguments the client sends, the conversation comes back whole. */
  lemma PagingIgnored(t: Tables, id: nat, limit: Option<nat>, before: Option<string>, after: Option<string>)
    ensures FindOneRoute(t, id, limit, before, after) == FindOneRoute(t, id, None, None, None)
    ensures var r := FindOneRoute(t, id, limit, before, after);
      r.Some? ==> forall m :: m in t.messages && m.conversationId == id ==> m in r.value.messages
  {
    var r := FindOne(t, id);
    if r.Some? {
      forall m | m in t.messages && m.conversationId == id ensures m in r.value.messages {
        assert m in MessagesOf(t, id);
        assert m in multiset(MessagesOf(t, id));
      }
    }
  }
}
