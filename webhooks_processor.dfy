// The queue worker: dispatches `messages.upsert` deliveries to the message
// handler, which finds the Line by instance name, upserts the Conversation
// for (line, remoteJid) and inserts the Message unless one with the same
// gateway id is already stored. HandleUpsert states the handler's effect on
// the tables; the method HandleMessageUpsert performs it call by call on a
// Store and is proved to have exactly that effect.
module WebhooksProcessor {
  import opened Wrappers
  import opened Text
  import opened Schema
  import opened Gateway
  import opened Database
  import opened WebhooksService

  const UpsertEvent := "messages.upsert"

  /** Why handling a delivery failed: a payload without the fields the handler reads, or a rejected store call. */
  datatype HandleError = Malformed | Rejected(error: DbError)

  /**
   * What a handled job did: nothing for an event other than `messages.upsert`
   * or for an unknown Line, otherwise the Conversation and whether a Message
   * was inserted.
   */
  datatype Handled = Ignored | UnknownLine | Stored(conversation: Conversation, inserted: bool)

  datatype Effect = Effect(tables: Tables, result: Result<Handled, HandleError>)

  /** `data.pushName || undefined`: the contact name an update writes. */
  function Rename(pushName: Option<string>): (r: Option<string>)
    ensures r.Some? <==> Present(pushName)
    ensures r.Some? ==> r == pushName
  {
    if Present(pushName) then pushName else None
  }

  /** The row the handler inserts for a delivery. */
  function UpsertDraft(d: UpsertData, key: MessageKey, body: MessageBody, conversationId: nat): (m: MessageDraft)
    requires key.id.Some?
    ensures m.evolutionId == key.id.value && m.conversationId == conversationId
    ensures m.content == WebhookContent(body) && m.messageType == FirstKey(body)
    ensures m.direction == Sent <==> key.fromMe
    ensures m.status == "DELIVERED"
    ensures m.timestamp.None? <==> d.messageTimestamp.None?
    ensures m.timestamp.Some? ==> m.timestamp.value == d.messageTimestamp.value * 1000
  {
    MessageDraft(
      key.id.value,
      conversationId,
      WebhookContent(body),
      FirstKey(body),
      if key.fromMe then Sent else Received,
      "DELIVERED",
      if d.messageTimestamp.Some? then Some(d.messageTimestamp.value * 1000) else None)
  }

  /** The handler's effect once the Line is known and the payload has its data, key and message. */
  function StoreUpsert(t: Tables, line: Line, d: UpsertData, nowMs: int): (e: Effect)
    requires d.key.Some? && d.message.Some?
    ensures e.tables.lines == t.lines && t.messages <= e.tables.messages
    ensures ValidTables(t) ==> ValidTables(e.tables)
    ensures d.key.value.remoteJid.None? ==> e == Effect(t, Err(Malformed))
  {
    var key := d.key.value;
    if key.remoteJid.None? then Effect(t, Err(Malformed))
    else
      var w := Schema.UpsertConversation(t, line.id, key.remoteJid.value, Rename(d.pushName), d.pushName, nowMs);
      if w.result.Err? then Effect(w.tables, Err(Rejected(w.result.error)))
      else if key.id.None? then Effect(w.tables, Err(Malformed))
      else if MessageWithEvolutionId(w.tables.messages, key.id.value).Some? then
        Effect(w.tables, Ok(Stored(w.result.value, false)))
      else
        var c := Schema.CreateMessage(w.tables, UpsertDraft(d, key, d.message.value, w.result.value.id));
        if c.result.Err? then Effect(c.tables, Err(Rejected(c.result.error)))
        else Effect(c.tables, Ok(Stored(w.result.value, true)))
  }

  /** The effect of `handleMessageUpsert` on the tables, and its outcome. */
  function HandleUpsert(t: Tables, p: Envelope, nowMs: int): (e: Effect)
    ensures e.tables.lines == t.lines && t.messages <= e.tables.messages
    ensures ValidTables(t) ==> ValidTables(e.tables)
    ensures p.instance.None? ==> e == Effect(t, Err(Malformed))
  {
    if p.instance.None? then Effect(t, Err(Malformed))
    else
      match LineNamed(t.lines, p.instance.value)
      case None => Effect(t, Ok(UnknownLine))
      case Some(line) =>
        if p.data.None? || p.data.value.key.None? || p.data.value.message.None? then Effect(t, Err(Malformed))
        else StoreUpsert(t, line, p.data.value, nowMs)
  }

  /** The effect of `process` on one job: only `messages.upsert` is handled. */
  function Process(t: Tables, job: Job, nowMs: int): (e: Effect)
    ensures e.tables.lines == t.lines && t.messages <= e.tables.messages
    ensures ValidTables(t) ==> ValidTables(e.tables)
  {
    if job.data.event == Some(UpsertEvent) then HandleUpsert(t, job.data, nowMs)
    else Effect(t, Ok(Ignored))
  }

  // ---------------------------------------------------------------------
  // What the handler guarantees.

  /** Any event other than `messages.upsert` completes and leaves the store as it was. */
  lemma OtherEventsWriteNothing(t: Tables, job: Job, nowMs: int)
    requires job.data.event != Some(UpsertEvent)
    ensures Process(t, job, nowMs) == Effect(t, Ok(Ignored))
  {
  }

  /** A failure while handling is the job's failure: nothing is swallowed. */
  lemma ProcessRethrows(t: Tables, job: Job, nowMs: int)
    ensures Process(t, job, nowMs).result.Err? <==>
      job.data.event == Some(UpsertEvent) && HandleUpsert(t, job.data, nowMs).result.Err?
  {
  }

  /** A delivery for an instance with no Line writes no Conversation and no Message. */
  lemma UnknownLineWritesNothing(t: Tables, p: Envelope, nowMs: int)
    requires p.instance.Some? && LineNamed(t.lines, p.instance.value).None?
    ensures HandleUpsert(t, p, nowMs) == Effect(t, Ok(UnknownLine))
  {
  }

  /**
   * After a stored delivery there is exactly one Conversation for
   * (line, remoteJid): the one returned. An existing one is updated in place,
   * so the number of conversations grows only when there was none.
   */
  lemma ExactlyOneConversation(t: Tables, p: Envelope, nowMs: int)
    requires ValidTables(t)
    requires HandleUpsert(t, p, nowMs).result.Ok? && HandleUpsert(t, p, nowMs).result.value.Stored?
    ensures var e := HandleUpsert(t, p, nowMs);
      var c := e.result.value.conversation;
      && c in e.tables.conversations
      && c.lineId == LineNamed(t.lines, p.instance.value).value.id
      && c.remoteJid == p.data.value.key.value.remoteJid.value
      && (forall i :: 0 <= i < |e.tables.conversations| && IsConversationOf(e.tables.conversations[i], c.lineId, c.remoteJid) ==>
            e.tables.conversations[i] == c)
      && |e.tables.conversations| == |t.conversations| + (if HasConversation(t, c.lineId, c.remoteJid) then 0 else 1)
  {
    var line := LineNamed(t.lines, p.instance.value).value;
    var d := p.data.value;
    var jid := d.key.value.remoteJid.value;
    assert HandleUpsert(t, p, nowMs) == StoreUpsert(t, line, d, nowMs);
    var w := Schema.UpsertConversation(t, line.id, jid, Rename(d.pushName), d.pushName, nowMs);
    UpsertOnlyTouchesConversations(t, line, d, nowMs);
    var c := w.result.value;
    var convs := w.tables.conversations;
    assert ValidTables(w.tables);
    var k :| 0 <= k < |convs| && convs[k] == c;
    forall i | 0 <= i < |convs| && IsConversationOf(convs[i], c.lineId, c.remoteJid)
      ensures convs[i] == c
    {
      ConversationKeyDeterminesRow(convs, k, i);
    }
    UpsertConversationCount(t, line.id, jid, Rename(d.pushName), d.pushName, nowMs);
  }

  /** The handler's conversations are those the upsert leaves; its result is the upserted row. */
  lemma UpsertOnlyTouchesConversations(t: Tables, line: Line, d: UpsertData, nowMs: int)
    requires d.key.Some? && d.message.Some? && d.key.value.remoteJid.Some?
    requires StoreUpsert(t, line, d, nowMs).result.Ok?
    ensures var w := Schema.UpsertConversation(t, line.id, d.key.value.remoteJid.value, Rename(d.pushName), d.pushName, nowMs);
      && w.result.Ok?
      && StoreUpsert(t, line, d, nowMs).tables.conversations == w.tables.conversations
      && StoreUpsert(t, line, d, nowMs).result.value.conversation == w.result.value
  {
  }

  lemma UpsertConversationCount(t: Tables, lineId: nat, remoteJid: string, rename: Option<string>, createName: Option<string>, now: int)
    requires Schema.UpsertConversation(t, lineId, remoteJid, rename, createName, now).result.Ok?
    ensures |Schema.UpsertConversation(t, lineId, remoteJid, rename, createName, now).tables.conversations|
      == |t.conversations| + (if HasConversation(t, lineId, remoteJid) then 0 else 1)
  {
    if HasConversation(t, lineId, remoteJid) {
      var i :| 0 <= i < |t.conversations| && IsConversationOf(t.conversations[i], lineId, remoteJid);
      assert ConversationIndex(t.conversations, lineId, remoteJid).Some?;
    }
  }

  /**
   * The contact name: on update it changes only when `pushName` is truthy;
   * on create it is `pushName` as given.
   */
  lemma ContactNameRule(t: Tables, p: Envelope, nowMs: int)
    requires HandleUpsert(t, p, nowMs).result.Ok? && HandleUpsert(t, p, nowMs).result.value.Stored?
    ensures var c := HandleUpsert(t, p, nowMs).result.value.conversation;
      var pushName := p.data.value.pushName;
      && (!HasConversation(t, c.lineId, c.remoteJid) ==> c.contactName == pushName)
      && (HasConversation(t, c.lineId, c.remoteJid) ==>
            exists i :: 0 <= i < |t.conversations| && IsConversationOf(t.conversations[i], c.lineId, c.remoteJid)
              && c.contactName == (if Present(pushName) then pushName else t.conversations[i].contactName))
  {
    var line := LineNamed(t.lines, p.instance.value).value;
    var d := p.data.value;
    var jid := d.key.value.remoteJid.value;
    match ConversationIndex(t.conversations, line.id, jid)
    case Some(i) =>
    case None =>
  }

  /** The message a delivery inserts: its fields as the handler derives them. */
  lemma InsertedMessage(t: Tables, p: Envelope, nowMs: int)
    requires HandleUpsert(t, p, nowMs).result.Ok? && HandleUpsert(t, p, nowMs).result.value.Stored?
    requires HandleUpsert(t, p, nowMs).result.value.inserted
    ensures var e := HandleUpsert(t, p, nowMs);
      var d := p.data.value;
      var key := d.key.value;
      var body := d.message.value;
      && key.id.Some? && d.messageTimestamp.Some?
      && |e.tables.messages| == |t.messages| + 1
      && e.tables.messages[..|t.messages|] == t.messages
      && var m := e.tables.messages[|t.messages|];
      && m.evolutionId == key.id.value
      && m.conversationId == e.result.value.conversation.id
      && m.content == WebhookContent(body)
      && m.messageType == FirstKey(body)
      && (m.direction == Sent <==> key.fromMe)
      && m.status == "DELIVERED"
      && m.timestamp == d.messageTimestamp.value * 1000
  {
  }

  /**
   * A new delivery is stored: for a known Line, a payload with its remote JID,
   * message id and timestamp, and a message id not stored yet, the handler
   * inserts the Message and the id is stored afterwards.
   */
  lemma NewDeliveryStored(t: Tables, p: Envelope, nowMs: int)
    requires ValidTables(t)
    requires p.instance.Some? && LineNamed(t.lines, p.instance.value).Some?
    requires p.data.Some? && p.data.value.key.Some? && p.data.value.message.Some?
    requires p.data.value.key.value.remoteJid.Some? && p.data.value.key.value.id.Some?
    requires p.data.value.messageTimestamp.Some?
    requires !HasMessage(t, p.data.value.key.value.id.value)
    ensures var e := HandleUpsert(t, p, nowMs);
      && e.result.Ok? && e.result.value.Stored? && e.result.value.inserted
      && HasMessage(e.tables, p.data.value.key.value.id.value)
  {
    var line := LineNamed(t.lines, p.instance.value).value;
    var d := p.data.value;
    var key := d.key.value;
    assert line.id in LineIds(t.lines) by { LineIdListed(t.lines, line); }
    var w := Schema.UpsertConversation(t, line.id, key.remoteJid.value, Rename(d.pushName), d.pushName, nowMs);
    assert w.result.Ok? && w.tables.messages == t.messages;
    assert w.result.value.id in ConversationIds(w.tables.conversations) by {
      ConversationIdListed(w.tables.conversations, w.result.value);
    }
    assert !HasMessage(w.tables, key.id.value);
    var c := Schema.CreateMessage(w.tables, UpsertDraft(d, key, d.message.value, w.result.value.id));
    assert c.result.Ok?;
    assert c.tables.messages[|c.tables.messages| - 1].evolutionId == key.id.value;
  }

  /**
   * A delivery whose message id is already stored, whoever stored it (an
   * earlier delivery or a backfill), adds no Message.
   */
  lemma StoredIdAddsNothing(t: Tables, p: Envelope, nowMs: int)
    requires p.data.Some? && p.data.value.key.Some? && p.data.value.key.value.id.Some?
    requires HasMessage(t, p.data.value.key.value.id.value)
    ensures HandleUpsert(t, p, nowMs).tables.messages == t.messages
  {
  }

  /**
   * Idempotence: handling the same delivery a second time inserts nothing,
   * so the stored messages are those after the first time.
   */
  lemma HandleUpsertIdempotent(t: Tables, p: Envelope, now1: int, now2: int)
    ensures var once := HandleUpsert(t, p, now1);
      HandleUpsert(once.tables, p, now2).tables.messages == once.tables.messages
  {
    if p.instance.Some? && LineNamed(t.lines, p.instance.value).Some?
      && p.data.Some? && p.data.value.key.Some? && p.data.value.message.Some?
    {
      StoreUpsertIdempotent(t, LineNamed(t.lines, p.instance.value).value, p.data.value, now1, now2);
    }
  }

  /** Once the Line is known, the second delivery's writes leave the messages as the first left them. */
  lemma StoreUpsertIdempotent(t: Tables, line: Line, d: UpsertData, now1: int, now2: int)
    requires d.key.Some? && d.message.Some?
    ensures var t1 := StoreUpsert(t, line, d, now1).tables;
      StoreUpsert(t1, line, d, now2).tables.messages == t1.messages
  {
    var key := d.key.value;
    if key.remoteJid.Some? {
      var jid := key.remoteJid.value;
      var w1 := Schema.UpsertConversation(t, line.id, jid, Rename(d.pushName), d.pushName, now1);
      var t1 := StoreUpsert(t, line, d, now1).tables;
      if w1.result.Ok? {
        assert t1.conversations == w1.tables.conversations;
        ConversationStays(w1.tables, t1, line.id, jid, w1.result.value);
        var w2 := Schema.UpsertConversation(t1, line.id, jid, Rename(d.pushName), d.pushName, now2);
        assert w2.result.Ok? && w2.tables.messages == t1.messages;
        if key.id.Some? {
          FirstInsertSettles(w1.tables, t1, d, key, w1.result.value.id);
        }
      }
    }
  }

  /** The conversation the first upsert wrote is found by the second one. */
  lemma ConversationStays(w: Tables, t1: Tables, lineId: nat, jid: string, c: Conversation)
    requires c in w.conversations && IsConversationOf(c, lineId, jid)
    requires t1.conversations == w.conversations
    ensures HasConversation(t1, lineId, jid)
  {
    var k :| 0 <= k < |w.conversations| && w.conversations[k] == c;
    assert IsConversationOf(t1.conversations[k], lineId, jid);
  }

  /**
   * After the first delivery the message id is stored, or its date was
   * invalid; either way a second insert adds nothing.
   */
  lemma FirstInsertSettles(w: Tables, t1: Tables, d: UpsertData, key: MessageKey, conversationId: nat)
    requires key.id.Some? && d.message.Some?
    requires conversationId in ConversationIds(w.conversations)
    requires t1 == (if MessageWithEvolutionId(w.messages, key.id.value).Some? then w
      else Schema.CreateMessage(w, UpsertDraft(d, key, d.message.value, conversationId)).tables)
    ensures HasMessage(t1, key.id.value) || d.messageTimestamp.None?
  {
    var id := key.id.value;
    if MessageWithEvolutionId(w.messages, id).None? {
      var c := Schema.CreateMessage(w, UpsertDraft(d, key, d.message.value, conversationId));
      if c.result.Ok? {
        assert t1.messages[|t1.messages| - 1].evolutionId == id;
      }
    }
  }

  // ---------------------------------------------------------------------
  // The handler as it runs against the store.

  /** `handleMessageUpsert`: the store calls in the handler's order, with its early returns. */
  method HandleMessageUpsert(db: Store, p: Envelope, nowMs: int) returns (r: Result<Handled, HandleError>)
    modifies db
    ensures db.Tables() == HandleUpsert(old(db.Tables()), p, nowMs).tables
    ensures r == HandleUpsert(old(db.Tables()), p, nowMs).result
    ensures old(db.Valid()) ==> db.Valid()
  {
    ghost var t := db.Tables();
    if p.instance.None? {
      return Err(Malformed);
    }
    var line := db.FindLine(p.instance.value);
    if line.None? {
      return Ok(UnknownLine);
    }
    if p.data.None? || p.data.value.key.None? || p.data.value.message.None? {
      return Err(Malformed);
    }
    var d := p.data.value;
    var key := d.key.value;
    if key.remoteJid.None? {
      return Err(Malformed);
    }
    var conversation := db.UpsertConversation(line.value.id, key.remoteJid.value, Rename(d.pushName), d.pushName, nowMs);
    // The Line was just found, so the foreign key of a new Conversation holds.
    assert conversation.Ok?;
    if key.id.None? {
      return Err(Malformed);
    }
    var existing := db.FindMessage(key.id.value);
    if existing.None? {
      var created := db.CreateMessage(UpsertDraft(d, key, d.message.value, conversation.value.id));
      if created.Err? {
        return Err(Rejected(created.error));
      }
      r := Ok(Stored(conversation.value, true));
    } else {
      r := Ok(Stored(conversation.value, false));
    }
  }

  /** `process`: dispatch one job; failures are passed on to the queue. */
  method ProcessJob(db: Store, job: Job, nowMs: int) returns (r: Result<Handled, HandleError>)
    modifies db
    ensures db.Tables() == Process(old(db.Tables()), job, nowMs).tables
    ensures r == Process(old(db.Tables()), job, nowMs).result
    ensures old(db.Valid()) ==> db.Valid()
  {
    if job.data.event == Some(UpsertEvent) {
      r := HandleMessageUpsert(db, job.data, nowMs);
    } else {
      r := Ok(Ignored);
    }
  }
}
