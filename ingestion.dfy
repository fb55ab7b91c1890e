// Webhook deliveries and history backfills run concurrently against the same
// tables, interleaved at the granularity of single store calls. A run of the
// store's writes is a sequence of Ops; whatever the order, every run keeps
// at most one Conversation per (lineId, remoteJid) and at most one Message
// per evolutionId, and never loses a stored Message or Conversation key. The
// webhook handler and the chat import are themselves such runs, so any
// interleaving of them is one too.
module Ingestion {
  import opened Wrappers
  import opened Schema
  import opened Gateway
  import WebhooksProcessor
  import LinesService

  /** One write of the store. */
  datatype Op =
    | UpsertConv(lineId: nat, remoteJid: string, rename: Option<string>, createName: Option<string>, now: int)
    | CreateMsg(draft: MessageDraft)
    | CreateLn(instanceName: string, instanceId: string, operatorId: string, now: int)
    | SetState(instanceName: string, status: LineStatus, phone: Option<string>)

  function Apply(t: Tables, op: Op): Tables {
    match op
    case UpsertConv(l, j, rename, createName, now) => Schema.UpsertConversation(t, l, j, rename, createName, now).tables
    case CreateMsg(d) => Schema.CreateMessage(t, d).tables
    case CreateLn(n, i, o, now) => Schema.CreateLine(t, n, i, o, now).tables
    case SetState(n, s, p) => Schema.SetLineState(t, n, s, p)
  }

  /** The tables after the writes `ops`, in order. */
  function Run(t: Tables, ops: seq<Op>): Tables
    decreases |ops|
  {
    if ops == [] then t else Run(Apply(t, ops[0]), ops[1..])
  }

  lemma {:induction false} RunConcat(t: Tables, a: seq<Op>, b: seq<Op>)
    ensures Run(t, a + b) == Run(Run(t, a), b)
    decreases |a|
  {
    if a != [] {
      assert (a + b)[0] == a[0] && (a + b)[1..] == a[1..] + b;
      RunConcat(Apply(t, a[0]), a[1..], b);
      assert Run(t, a + b) == Run(Apply(t, a[0]), a[1..] + b);
      assert Run(t, a) == Run(Apply(t, a[0]), a[1..]);
    } else {
      assert a + b == b;
    }
  }

  /** One write keeps the tables consistent, keeps every stored Message and every Conversation key. */
  lemma ApplyPreserves(t: Tables, op: Op)
    ensures ValidTables(t) ==> ValidTables(Apply(t, op))
    ensures t.messages <= Apply(t, op).messages
    ensures forall l, j :: HasConversation(t, l, j) ==> HasConversation(Apply(t, op), l, j)
  {
    match op
    case UpsertConv(l0, j0, rename, createName, now) =>
      var w := Schema.UpsertConversation(t, l0, j0, rename, createName, now);
      forall l, j | HasConversation(t, l, j) ensures HasConversation(w.tables, l, j) {
        var i :| 0 <= i < |t.conversations| && IsConversationOf(t.conversations[i], l, j);
        assert i < |w.tables.conversations|;
        match ConversationIndex(t.conversations, l0, j0)
        case Some(k) =>
          assert w.tables.conversations == t.conversations[k := w.tables.conversations[k]];
          assert IsConversationOf(w.tables.conversations[i], l, j);
        case None =>
          assert IsConversationOf(w.tables.conversations[i], l, j);
      }
    case CreateMsg(d) =>
    case CreateLn(n, i, o, now) =>
    case SetState(n, s, p) =>
  }

  /**
   * Any sequence of writes, in any order, keeps the tables consistent: at
   * most one Conversation per (lineId, remoteJid), at most one Message per
   * evolutionId. Stored Messages stay, in place, and so do Conversation keys.
   */
  lemma {:induction false} RunPreserves(t: Tables, ops: seq<Op>)
    ensures ValidTables(t) ==> ValidTables(Run(t, ops))
    ensures t.messages <= Run(t, ops).messages
    ensures forall l, j :: HasConversation(t, l, j) ==> HasConversation(Run(t, ops), l, j)
    decreases |ops|
  {
    if ops != [] {
      ApplyPreserves(t, ops[0]);
      RunPreserves(Apply(t, ops[0]), ops[1..]);
    }
  }

  /** A stored Message is found under its evolutionId after any later writes. */
  lemma StoredMessageStays(t: Tables, ops: seq<Op>, evolutionId: string)
    requires HasMessage(t, evolutionId)
    ensures HasMessage(Run(t, ops), evolutionId)
  {
    RunPreserves(t, ops);
    var i :| 0 <= i < |t.messages| && t.messages[i].evolutionId == evolutionId;
    assert Run(t, ops).messages[i] == t.messages[i];
  }

  // ---------------------------------------------------------------------
  // The writers as runs of writes.

  /** The writes the webhook handler issues for a delivery. */
  function HandleUpsertOps(t: Tables, p: Envelope, nowMs: int): seq<Op> {
    if p.instance.None? then []
    else
      match LineNamed(t.lines, p.instance.value)
      case None => []
      case Some(line) =>
        if p.data.None? || p.data.value.key.None? || p.data.value.message.None? then []
        else
          var d := p.data.value;
          var key := d.key.value;
          if key.remoteJid.None? then []
          else
            var up := UpsertConv(line.id, key.remoteJid.value, WebhooksProcessor.Rename(d.pushName), d.pushName, nowMs);
            var w := Schema.UpsertConversation(t, line.id, key.remoteJid.value, WebhooksProcessor.Rename(d.pushName), d.pushName, nowMs);
            if w.result.Err? || key.id.None? || MessageWithEvolutionId(w.tables.messages, key.id.value).Some? then [up]
            else [up, CreateMsg(WebhooksProcessor.UpsertDraft(d, key, d.message.value, w.result.value.id))]
  }

  lemma HandleUpsertIsRun(t: Tables, p: Envelope, nowMs: int)
    ensures WebhooksProcessor.HandleUpsert(t, p, nowMs).tables == Run(t, HandleUpsertOps(t, p, nowMs))
  {
    var ops := HandleUpsertOps(t, p, nowMs);
    if |ops| == 2 {
      assert Run(t, ops) == Run(Apply(t, ops[0]), ops[1..]);
      assert Run(Apply(t, ops[0]), ops[1..]) == Run(Apply(Apply(t, ops[0]), ops[1]), []);
    } else if |ops| == 1 {
      assert Run(t, ops) == Run(Apply(t, ops[0]), []);
    }
  }

  /** The writes one chat import issues. */
  function ImportChatOps(t: Tables, conversationId: nat, msgs: seq<HistoryMessage>, threshold: int, nowMs: int): seq<Op>
    decreases |msgs|
  {
    if msgs == [] then []
    else
      var m := msgs[0];
      if !Text.Present(HistoryId(m)) || HistorySeconds(m) < threshold
        || MessageWithEvolutionId(t.messages, HistoryId(m).value).Some? then
        ImportChatOps(t, conversationId, msgs[1..], threshold, nowMs)
      else
        var d := HistoryDraft(m, conversationId, nowMs);
        var c := Schema.CreateMessage(t, d);
        if c.result.Err? then [CreateMsg(d)]
        else [CreateMsg(d)] + ImportChatOps(c.tables, conversationId, msgs[1..], threshold, nowMs)
  }

  lemma {:induction false} ImportChatIsRun(t: Tables, conversationId: nat, msgs: seq<HistoryMessage>, threshold: int, nowMs: int)
    ensures LinesService.ImportChat(t, conversationId, msgs, threshold, nowMs).tables
         == Run(t, ImportChatOps(t, conversationId, msgs, threshold, nowMs))
    decreases |msgs|
  {
    if msgs != [] {
      var m := msgs[0];
      if !Text.Present(HistoryId(m)) || HistorySeconds(m) < threshold
        || MessageWithEvolutionId(t.messages, HistoryId(m).value).Some? {
        ImportChatIsRun(t, conversationId, msgs[1..], threshold, nowMs);
      } else {
        var d := HistoryDraft(m, conversationId, nowMs);
        var c := Schema.CreateMessage(t, d);
        if c.result.Ok? {
          ImportChatIsRun(c.tables, conversationId, msgs[1..], threshold, nowMs);
          var rest := ImportChatOps(c.tables, conversationId, msgs[1..], threshold, nowMs);
          assert ([CreateMsg(d)] + rest)[1..] == rest;
        } else {
          assert Run(t, [CreateMsg(d)]) == Run(c.tables, []);
        }
      }
    }
  }

  /**
   * A webhook delivery handled between two parts of a backfill (or the other
   * way round) leaves consistent tables: the interleaving is itself a run.
   */
  lemma InterleavedWritersStayConsistent(t: Tables, before: seq<Op>, p: Envelope, nowMs: int, after: seq<Op>)
    requires ValidTables(t)
    ensures var mid := Run(t, before);
      ValidTables(Run(WebhooksProcessor.HandleUpsert(mid, p, nowMs).tables, after))
  {
    var mid := Run(t, before);
    RunPreserves(t, before);
    HandleUpsertIsRun(mid, p, nowMs);
    var ops := HandleUpsertOps(mid, p, nowMs);
    RunPreserves(mid, ops);
    RunPreserves(Run(mid, ops), after);
  }

  /**
   * The same message arriving by webhook and by backfill, in either order, is
   * stored once: after a delivery stored it, importing a chat that contains
   * it adds no second row with its id.
   */
  lemma WebhookThenBackfillStoresOnce(t: Tables, p: Envelope, nowMs: int, conversationId: nat,
                                      msgs: seq<HistoryMessage>, threshold: int, evolutionId: string)
    requires ValidTables(t)
    requires HasMessage(WebhooksProcessor.HandleUpsert(t, p, nowMs).tables, evolutionId)
    ensures var t2 := LinesService.ImportChat(WebhooksProcessor.HandleUpsert(t, p, nowMs).tables, conversationId, msgs, threshold, nowMs).tables;
      && HasMessage(t2, evolutionId)
      && forall i, j :: 0 <= i < j < |t2.messages| ==> t2.messages[i].evolutionId != t2.messages[j].evolutionId
  {
    var t1 := WebhooksProcessor.HandleUpsert(t, p, nowMs).tables;
    ImportChatIsRun(t1, conversationId, msgs, threshold, nowMs);
    var ops := ImportChatOps(t1, conversationId, msgs, threshold, nowMs);
    RunPreserves(t1, ops);
    StoredMessageStays(t1, ops, evolutionId);
  }
}
