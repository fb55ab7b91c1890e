// The persisted state the ingestion core writes: the Line, Conversation and
// Message tables with their unique constraints (Line.instanceName,
// Conversation (lineId, remoteJid), Message.evolutionId) and the store
// operations the services issue against them (upsert, create, updateMany).
// Each operation is a function from the tables to the tables and a result,
// so that the services built from them can be specified by composition.
module Schema {
  import opened Wrappers
  import Seqs

  /** Line status, normalised: the stored strings 'connected', 'disconnected' and 'DISCONNECTED'. */
  datatype LineStatus = Connected | Disconnected

  /** Message direction, derived from the gateway's `fromMe` flag. */
  datatype Direction = Sent | Received

  datatype Line = Line(
    id: nat,
    instanceName: string,
    instanceId: string,
    phoneNumber: Option<string>,
    status: LineStatus,
    operatorId: string,
    createdAt: int)

  datatype Conversation = Conversation(
    id: nat,
    lineId: nat,
    remoteJid: string,
    contactName: Option<string>,
    updatedAt: int)

  /** `timestamp` is in epoch milliseconds; `messageType` is absent when the payload gave none. */
  datatype Message = Message(
    id: nat,
    evolutionId: string,
    conversationId: nat,
    content: string,
    messageType: Option<string>,
    direction: Direction,
    status: string,
    timestamp: int)

  /** What a store call can be rejected with. */
  datatype DbError = UniqueViolation | ForeignKeyViolation | InvalidDate

  /** The three tables, in insertion order, and the generator of fresh row ids. */
  datatype Tables = Tables(
    lines: seq<Line>,
    conversations: seq<Conversation>,
    messages: seq<Message>,
    nextId: nat)

  /** The tables after a store call, and what the call returned. */
  datatype Write<T> = Write(tables: Tables, result: Result<T, DbError>)

  const EmptyTables := Tables([], [], [], 0)

  function LineIds(lines: seq<Line>): (r: seq<nat>)
    ensures |r| == |lines| && forall i :: 0 <= i < |lines| ==> r[i] == lines[i].id
  {
    seq(|lines|, i requires 0 <= i < |lines| => lines[i].id)
  }

  function ConversationIds(convs: seq<Conversation>): (r: seq<nat>)
    ensures |r| == |convs| && forall i :: 0 <= i < |convs| ==> r[i] == convs[i].id
  {
    seq(|convs|, i requires 0 <= i < |convs| => convs[i].id)
  }

  /** A listed Line's own id is among the Line ids. */
  lemma LineIdListed(lines: seq<Line>, line: Line)
    requires line in lines
    ensures line.id in LineIds(lines)
  {
    var i :| 0 <= i < |lines| && lines[i] == line;
    assert LineIds(lines)[i] == line.id;
  }

  /** A listed Conversation's own id is among the Conversation ids. */
  lemma ConversationIdListed(convs: seq<Conversation>, c: Conversation)
    requires c in convs
    ensures c.id in ConversationIds(convs)
  {
    var i :| 0 <= i < |convs| && convs[i] == c;
    assert ConversationIds(convs)[i] == c.id;
  }

  predicate IsConversationOf(c: Conversation, lineId: nat, remoteJid: string) {
    c.lineId == lineId && c.remoteJid == remoteJid
  }

  ghost predicate UniqueInstanceNames(lines: seq<Line>) {
    forall i, j :: 0 <= i < j < |lines| ==> lines[i].instanceName != lines[j].instanceName
  }

  ghost predicate UniqueConversationKeys(convs: seq<Conversation>) {
    forall i, j :: 0 <= i < j < |convs| ==>
      !IsConversationOf(convs[j], convs[i].lineId, convs[i].remoteJid)
  }

  ghost predicate UniqueEvolutionIds(msgs: seq<Message>) {
    forall i, j :: 0 <= i < j < |msgs| ==> msgs[i].evolutionId != msgs[j].evolutionId
  }

  ghost predicate UniqueIds(ids: seq<nat>) {
    forall i, j :: 0 <= i < j < |ids| ==> ids[i] != ids[j]
  }

  ghost predicate IdsBelow(ids: seq<nat>, bound: nat) {
    forall i :: 0 <= i < |ids| ==> ids[i] < bound
  }

  /**
   * The consistency the unique constraints and foreign keys of the schema keep:
   * at most one Line per instanceName, at most one Conversation per
   * (lineId, remoteJid), at most one Message per evolutionId, distinct row ids
   * below the id generator, every Conversation on an existing Line and every
   * Message in an existing Conversation.
   */
  ghost predicate ValidTables(t: Tables) {
    && UniqueInstanceNames(t.lines)
    && UniqueConversationKeys(t.conversations)
    && UniqueEvolutionIds(t.messages)
    && UniqueIds(LineIds(t.lines)) && IdsBelow(LineIds(t.lines), t.nextId)
    && UniqueIds(ConversationIds(t.conversations)) && IdsBelow(ConversationIds(t.conversations), t.nextId)
    && UniqueIds(MessageIds(t.messages)) && IdsBelow(MessageIds(t.messages), t.nextId)
    && (forall i :: 0 <= i < |t.conversations| ==> t.conversations[i].lineId in LineIds(t.lines))
    && (forall i :: 0 <= i < |t.messages| ==> t.messages[i].conversationId in ConversationIds(t.conversations))
  }

  function MessageIds(msgs: seq<Message>): (r: seq<nat>)
    ensures |r| == |msgs| && forall i :: 0 <= i < |msgs| ==> r[i] == msgs[i].id
  {
    seq(|msgs|, i requires 0 <= i < |msgs| => msgs[i].id)
  }

  lemma EmptyTablesValid()
    ensures ValidTables(EmptyTables)
  {
  }

  // ---------------------------------------------------------------------
  // Relations (`include` and `where` on a foreign key).

  function InConversation(conversationId: nat): Message -> bool {
    (m: Message) => m.conversationId == conversationId
  }

  function InConversations(ids: seq<nat>): Message -> bool {
    (m: Message) => m.conversationId in ids
  }

  function OnLine(lineId: nat): Conversation -> bool {
    (c: Conversation) => c.lineId == lineId
  }

  function OwnedBy(operatorId: string): Line -> bool {
    (l: Line) => l.operatorId == operatorId
  }

  /** The Line's conversations, in table order. */
  function ConversationsOfLine(t: Tables, lineId: nat): (r: seq<Conversation>)
    ensures forall c :: c in r <==> c in t.conversations && c.lineId == lineId
  {
    Seqs.Filter(t.conversations, OnLine(lineId))
  }

  /** The conversation's messages, in table order. */
  function MessagesOf(t: Tables, conversationId: nat): (r: seq<Message>)
    ensures forall m :: m in r <==> m in t.messages && m.conversationId == conversationId
  {
    Seqs.Filter(t.messages, InConversation(conversationId))
  }

  /** The operator's Lines, in table order. */
  function LinesOf(t: Tables, operatorId: string): (r: seq<Line>)
    ensures forall l :: l in r <==> l in t.lines && l.operatorId == operatorId
  {
    Seqs.Filter(t.lines, OwnedBy(operatorId))
  }

  // ---------------------------------------------------------------------
  // Lookups (`findUnique`).

  /** `line.findUnique({ where: { instanceName } })`. */
  function LineNamed(lines: seq<Line>, name: string): (r: Option<Line>)
    ensures r.Some? ==> r.value in lines && r.value.instanceName == name
    ensures r.None? <==> forall i :: 0 <= i < |lines| ==> lines[i].instanceName != name
  {
    match Seqs.IndexWhere(lines, (l: Line) => l.instanceName == name)
    case Some(i) => Some(lines[i])
    case None => None
  }

  /** `message.findUnique({ where: { evolutionId } })`. */
  function MessageWithEvolutionId(msgs: seq<Message>, evolutionId: string): (r: Option<Message>)
    ensures r.Some? ==> r.value in msgs && r.value.evolutionId == evolutionId
    ensures r.None? <==> forall i :: 0 <= i < |msgs| ==> msgs[i].evolutionId != evolutionId
  {
    match Seqs.IndexWhere(msgs, (m: Message) => m.evolutionId == evolutionId)
    case Some(i) => Some(msgs[i])
    case None => None
  }

  function ConversationIndex(convs: seq<Conversation>, lineId: nat, remoteJid: string): (r: Option<nat>)
    ensures r.Some? ==> r.value < |convs| && IsConversationOf(convs[r.value], lineId, remoteJid)
    ensures r.None? <==> forall i :: 0 <= i < |convs| ==> !IsConversationOf(convs[i], lineId, remoteJid)
  {
    Seqs.IndexWhere(convs, (c: Conversation) => IsConversationOf(c, lineId, remoteJid))
  }

  ghost predicate HasConversation(t: Tables, lineId: nat, remoteJid: string) {
    exists i :: 0 <= i < |t.conversations| && IsConversationOf(t.conversations[i], lineId, remoteJid)
  }

  ghost predicate HasMessage(t: Tables, evolutionId: string) {
    exists i :: 0 <= i < |t.messages| && t.messages[i].evolutionId == evolutionId
  }

  /** Under the unique constraint, two conversations with one key are the same row. */
  lemma ConversationKeyDeterminesRow(convs: seq<Conversation>, i: nat, j: nat)
    requires UniqueConversationKeys(convs)
    requires i < |convs| && j < |convs|
    ensures IsConversationOf(convs[j], convs[i].lineId, convs[i].remoteJid) ==> i == j
  {
    if i < j {
      assert !IsConversationOf(convs[j], convs[i].lineId, convs[i].remoteJid);
    } else if j < i {
      assert !IsConversationOf(convs[i], convs[j].lineId, convs[j].remoteJid);
    }
  }

  // ---------------------------------------------------------------------
  // Writes.

  /**
   * `conversation.upsert` on the unique pair (lineId, remoteJid). An existing
   * row gets `updatedAt := now` and, when `rename` is given, the new contact
   * name; otherwise a row is created with `createName`, provided the Line exists.
   */
  function UpsertConversation(t: Tables, lineId: nat, remoteJid: string,
                              rename: Option<string>, createName: Option<string>, now: int): (w: Write<Conversation>)
    ensures ValidTables(t) ==> ValidTables(w.tables)
    ensures w.tables.lines == t.lines && w.tables.messages == t.messages
    ensures w.result.Err? <==> !HasConversation(t, lineId, remoteJid) && lineId !in LineIds(t.lines)
    ensures w.result.Err? ==> w.tables == t && w.result.error == ForeignKeyViolation
    ensures w.result.Ok? ==>
      var c := w.result.value;
      && IsConversationOf(c, lineId, remoteJid) && c.updatedAt == now
      && c in w.tables.conversations
      && c.id in ConversationIds(w.tables.conversations)
    ensures ConversationIndex(t.conversations, lineId, remoteJid).Some? ==>
      var i := ConversationIndex(t.conversations, lineId, remoteJid).value;
      var before := t.conversations[i];
      && w.result.Ok? && w.tables.nextId == t.nextId
      && |w.tables.conversations| == |t.conversations| && w.tables.conversations[i] == w.result.value
      && (forall j :: 0 <= j < |t.conversations| && j != i ==> w.tables.conversations[j] == t.conversations[j])
      && w.result.value == before.(contactName := if rename.Some? then rename else before.contactName, updatedAt := now)
    ensures !HasConversation(t, lineId, remoteJid) && lineId in LineIds(t.lines) ==>
      && w.result == Ok(Conversation(t.nextId, lineId, remoteJid, createName, now))
      && w.tables.conversations == t.conversations + [w.result.value]
      && w.tables.nextId == t.nextId + 1
  {
    match ConversationIndex(t.conversations, lineId, remoteJid)
    case Some(i) =>
      var old_ := t.conversations[i];
      var c := old_.(contactName := if rename.Some? then rename else old_.contactName, updatedAt := now);
      var t' := t.(conversations := t.conversations[i := c]);
      assert ConversationIds(t'.conversations) == ConversationIds(t.conversations);
      assert ValidTables(t) ==> ValidTables(t') by {
        if ValidTables(t) {
          forall a, b | 0 <= a < b < |t'.conversations|
            ensures !IsConversationOf(t'.conversations[b], t'.conversations[a].lineId, t'.conversations[a].remoteJid)
          {
            assert IsConversationOf(t'.conversations[a], t.conversations[a].lineId, t.conversations[a].remoteJid);
          }
        }
      }
      assert t'.conversations[i] == c;
      Write(t', Ok(c))
    case None =>
      if lineId !in LineIds(t.lines) then
        Write(t, Err(ForeignKeyViolation))
      else
        var c := Conversation(t.nextId, lineId, remoteJid, createName, now);
        var t' := t.(conversations := t.conversations + [c], nextId := t.nextId + 1);
        assert ConversationIds(t'.conversations) == ConversationIds(t.conversations) + [c.id];
        assert t'.conversations[|t.conversations|] == c;
        Write(t', Ok(c))
  }

  /** The fields of a Message that the caller supplies; `timestamp` is absent for an invalid date. */
  datatype MessageDraft = MessageDraft(
    evolutionId: string,
    conversationId: nat,
    content: string,
    messageType: Option<string>,
    direction: Direction,
    status: string,
    timestamp: Option<int>)

  function MessageFrom(d: MessageDraft, id: nat): Message
    requires d.timestamp.Some?
  {
    Message(id, d.evolutionId, d.conversationId, d.content, d.messageType, d.direction, d.status, d.timestamp.value)
  }

  /**
   * `message.create`: rejected for an invalid date, for an evolutionId already
   * stored (the unique constraint) and for an unknown conversation; otherwise
   * the message is appended.
   */
  function CreateMessage(t: Tables, d: MessageDraft): (w: Write<Message>)
    ensures ValidTables(t) ==> ValidTables(w.tables)
    ensures w.tables.lines == t.lines && w.tables.conversations == t.conversations
    ensures w.result.Err? ==> w.tables == t
    ensures d.timestamp.None? ==> w.result == Err(InvalidDate)
    ensures d.timestamp.Some? && HasMessage(t, d.evolutionId) ==> w.result == Err(UniqueViolation)
    ensures w.result.Ok? <==>
      d.timestamp.Some? && !HasMessage(t, d.evolutionId) && d.conversationId in ConversationIds(t.conversations)
    ensures w.result.Ok? ==>
      w.tables.messages == t.messages + [w.result.value] && w.result.value == MessageFrom(d, t.nextId)
  {
    if d.timestamp.None? then Write(t, Err(InvalidDate))
    else if MessageWithEvolutionId(t.messages, d.evolutionId).Some? then Write(t, Err(UniqueViolation))
    else if d.conversationId !in ConversationIds(t.conversations) then Write(t, Err(ForeignKeyViolation))
    else
      var m := MessageFrom(d, t.nextId);
      var t' := t.(messages := t.messages + [m], nextId := t.nextId + 1);
      assert MessageIds(t'.messages) == MessageIds(t.messages) + [m.id];
      assert ValidTables(t) ==> ValidTables(t') by {
        if ValidTables(t) {
          assert LineIds(t'.lines) == LineIds(t.lines);
          assert ConversationIds(t'.conversations) == ConversationIds(t.conversations);
        }
      }
      Write(t', Ok(m))
  }

  /** `line.create` on the unique instanceName; a new Line starts Disconnected with no phone number. */
  function CreateLine(t: Tables, instanceName: string, instanceId: string, operatorId: string, now: int): (w: Write<Line>)
    ensures ValidTables(t) ==> ValidTables(w.tables)
    ensures w.tables.conversations == t.conversations && w.tables.messages == t.messages
    ensures w.result.Err? <==> LineNamed(t.lines, instanceName).Some?
    ensures w.result.Err? ==> w.tables == t && w.result.error == UniqueViolation
    ensures w.result.Ok? ==>
      && w.tables.lines == t.lines + [w.result.value]
      && w.result.value == Line(t.nextId, instanceName, instanceId, None, Disconnected, operatorId, now)
  {
    if LineNamed(t.lines, instanceName).Some? then Write(t, Err(UniqueViolation))
    else
      var l := Line(t.nextId, instanceName, instanceId, None, Disconnected, operatorId, now);
      var t' := t.(lines := t.lines + [l], nextId := t.nextId + 1);
      assert LineIds(t'.lines) == LineIds(t.lines) + [l.id];
      assert ValidTables(t) ==> ValidTables(t') by {
        if ValidTables(t) {
          assert ConversationIds(t'.conversations) == ConversationIds(t.conversations);
          assert MessageIds(t'.messages) == MessageIds(t.messages);
          forall i | 0 <= i < |t'.conversations| ensures t'.conversations[i].lineId in LineIds(t'.lines) {
            assert t.conversations[i].lineId in LineIds(t.lines);
          }
        }
      }
      Write(t', Ok(l))
  }

  function WithState(l: Line, status: LineStatus, phone: Option<string>): Line {
    l.(status := status, phoneNumber := if phone.Some? then phone else l.phoneNumber)
  }

  /**
   * `line.updateMany({ where: { instanceName }, data })`: every Line with the
   * name (at most one) gets the status and, when given, the phone number;
   * a name with no Line changes nothing.
   */
  function SetLineState(t: Tables, instanceName: string, status: LineStatus, phone: Option<string>): (t': Tables)
    ensures ValidTables(t) ==> ValidTables(t')
    ensures t'.conversations == t.conversations && t'.messages == t.messages && t'.nextId == t.nextId
    ensures |t'.lines| == |t.lines|
    ensures forall i :: 0 <= i < |t.lines| ==>
      t'.lines[i] == if t.lines[i].instanceName == instanceName then WithState(t.lines[i], status, phone) else t.lines[i]
    ensures LineNamed(t.lines, instanceName).None? ==> t' == t
  {
    var lines' := seq(|t.lines|, i requires 0 <= i < |t.lines| =>
      if t.lines[i].instanceName == instanceName then WithState(t.lines[i], status, phone) else t.lines[i]);
    assert LineNamed(t.lines, instanceName).None? ==> lines' == t.lines;
    assert LineIds(lines') == LineIds(t.lines);
    var t' := t.(lines := lines');
    assert ValidTables(t) ==> ValidTables(t') by {
      if ValidTables(t) {
        forall i, j | 0 <= i < j < |lines'| ensures lines'[i].instanceName != lines'[j].instanceName {
          assert lines'[i].instanceName == t.lines[i].instanceName;
          assert lines'[j].instanceName == t.lines[j].instanceName;
        }
      }
    }
    t'
  }
}
