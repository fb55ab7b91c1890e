// The Line lifecycle against the gateway: creating an instance and its Line,
// reading the connection state and owner into the Line (`getQrCode`,
// `syncInstance`), importing chat history (`syncHistory`) and syncing every
// Line (`syncAllLines`). Gateway replies are parameters; a history sync
// started in the background is returned as a BackfillRequest. Each operation
// has a function stating its effect on the tables and a method performing
// it call by call on a Store, proved to have exactly that effect.
module LinesService {
  import opened Wrappers
  import opened Text
  import opened Schema
  import opened Gateway
  import opened Database
  import Seqs

  /** A history sync started in the background, with the options it was given. */
  datatype BackfillRequest = BackfillRequest(instanceName: string, limit: Option<nat>, daysBack: Option<nat>)

  datatype LineError = GatewayFailure(gatewayError: GatewayError) | StoreFailure(dbError: DbError)

  // ---------------------------------------------------------------------
  // createLine

  /** What a created Line is returned with: the row and the QR code of the create reply. */
  datatype CreatedLine = CreatedLine(line: Line, qrcode: Option<QrCode>)

  datatype LineCreation = LineCreation(tables: Tables, result: Result<CreatedLine, LineError>, scheduled: seq<BackfillRequest>)

  /** The replies to the three webhook registration requests. */
  datatype WebhookReplies = WebhookReplies(
    nested: Result<(), GatewayError>,
    flat: Result<(), GatewayError>,
    alternative: Result<(), GatewayError>)

  /** The options of the sync started after a Line is created. */
  const CreationBackfillLimit := 100
  const CreationBackfillDays := 30

  function CreateLineEffect(t: Tables, operatorId: string, instanceName: string,
                            reply: Result<CreateReply, GatewayError>, nowMs: int): (c: LineCreation)
    ensures c.tables.conversations == t.conversations && c.tables.messages == t.messages
    ensures ValidTables(t) ==> ValidTables(c.tables)
    ensures c.result.Ok? <==> CreateOrFallback(reply, instanceName).Ok? && LineNamed(t.lines, instanceName).None?
    ensures c.result.Err? ==> c.tables == t && c.scheduled == []
  {
    match CreateOrFallback(reply, instanceName)
    case Err(e) => LineCreation(t, Err(GatewayFailure(e)), [])
    case Ok(r) =>
      var w := Schema.CreateLine(t, instanceName, RemoteId(r, instanceName), operatorId, nowMs);
      if w.result.Err? then LineCreation(w.tables, Err(StoreFailure(w.result.error)), [])
      else LineCreation(w.tables, Ok(CreatedLine(w.result.value, CreatedQr(r))),
                        [BackfillRequest(instanceName, Some(CreationBackfillLimit), Some(CreationBackfillDays))])
  }

  /** A gateway failure other than "already exists" is passed on and no Line is stored. */
  lemma CreateLineGatewayFailure(t: Tables, operatorId: string, instanceName: string, e: GatewayError, nowMs: int)
    requires !AlreadyExists(e)
    ensures CreateLineEffect(t, operatorId, instanceName, Err(e), nowMs) == LineCreation(t, Err(GatewayFailure(e)), [])
  {
  }

  /**
   * A created Line: named as asked, with the remote id of the reply (the
   * instance name in the "already exists" fallback), the operator, status
   * Disconnected and no phone number, appended to the Lines; a backfill of
   * 100 messages over 30 days is started.
   */
  lemma CreatedLineFields(t: Tables, operatorId: string, instanceName: string,
                          reply: Result<CreateReply, GatewayError>, nowMs: int)
    requires CreateLineEffect(t, operatorId, instanceName, reply, nowMs).result.Ok?
    ensures var c := CreateLineEffect(t, operatorId, instanceName, reply, nowMs);
      var line := c.result.value.line;
      && CreateOrFallback(reply, instanceName).Ok?
      && line.instanceName == instanceName
      && line.instanceId == RemoteId(CreateOrFallback(reply, instanceName).value, instanceName)
      && (reply.Err? ==> line.instanceId == instanceName)
      && line.operatorId == operatorId
      && line.status == Disconnected && line.phoneNumber.None?
      && c.tables.lines == t.lines + [line]
      && c.tables.conversations == t.conversations && c.tables.messages == t.messages
      && c.scheduled == [BackfillRequest(instanceName, Some(100), Some(30))]
  {
  }

  /** Once the gateway has answered (or the instance exists), creation fails only on a taken instance name. */
  lemma CreateLineStoreFailure(t: Tables, operatorId: string, instanceName: string,
                               reply: Result<CreateReply, GatewayError>, nowMs: int)
    requires CreateOrFallback(reply, instanceName).Ok?
    ensures CreateLineEffect(t, operatorId, instanceName, reply, nowMs).result.Err? <==>
      LineNamed(t.lines, instanceName).Some?
    ensures CreateLineEffect(t, operatorId, instanceName, reply, nowMs).result.Err? ==>
      CreateLineEffect(t, operatorId, instanceName, reply, nowMs).tables == t
  {
  }

  /**
   * `createLine`: create the instance (or fall back when it exists), register
   * the webhook (its failure is ignored), store the Line, start a backfill.
   * `attempts` lists the webhook registration requests made.
   */
  method CreateLine(db: Store, operatorId: string, instanceName: string, reply: Result<CreateReply, GatewayError>,
                    webhook: WebhookReplies, nowMs: int)
    returns (r: Result<CreatedLine, LineError>, scheduled: seq<BackfillRequest>, attempts: seq<WebhookAttempt>)
    modifies db
    ensures var c := CreateLineEffect(old(db.Tables()), operatorId, instanceName, reply, nowMs);
      db.Tables() == c.tables && r == c.result && scheduled == c.scheduled
    ensures attempts == if CreateOrFallback(reply, instanceName).Ok?
      then ConfigureWebhook(webhook.nested, webhook.flat, webhook.alternative).0 else []
    ensures old(db.Valid()) ==> db.Valid()
  {
    var response := CreateOrFallback(reply, instanceName);
    if response.Err? {
      return Err(GatewayFailure(response.error)), [], [];
    }
    var remoteId := RemoteId(response.value, instanceName);
    var registration := ConfigureWebhook(webhook.nested, webhook.flat, webhook.alternative);
    attempts := registration.0;
    var line := db.CreateLine(instanceName, remoteId, operatorId, nowMs);
    if line.Err? {
      return Err(StoreFailure(line.error)), [], attempts;
    }
    scheduled := [BackfillRequest(instanceName, Some(CreationBackfillLimit), Some(CreationBackfillDays))];
    r := Ok(CreatedLine(line.value, CreatedQr(response.value)));
  }

  // ---------------------------------------------------------------------
  // Connection state and owner: getQrCode and syncInstance

  /** The status write a state token causes (none for a falsy token). */
  function RecordState(t: Tables, instanceName: string, token: Option<string>): (t': Tables)
    ensures ValidTables(t) ==> ValidTables(t')
    ensures t'.conversations == t.conversations && t'.messages == t.messages
  {
    match NormaliseState(token)
    case None => t
    case Some(status) => Schema.SetLineState(t, instanceName, status, None)
  }

  /** The write a resolved owner causes: status Connected and the phone number. */
  function RecordOwner(t: Tables, instanceName: string, phone: Option<string>): (t': Tables)
    ensures ValidTables(t) ==> ValidTables(t')
    ensures t'.conversations == t.conversations && t'.messages == t.messages
  {
    if phone.Some? then Schema.SetLineState(t, instanceName, Connected, phone) else t
  }

  /** What `getQrCode` answers when the instance is connected. */
  const AlreadyConnectedReply := ConnectObject(None, None, Some("connected"), None)

  datatype QrLookup = QrLookup(tables: Tables, result: Result<ConnectReply, GatewayError>, scheduled: seq<BackfillRequest>)

  function InfoPhone(info: Result<seq<InstanceInfo>, GatewayError>, instanceName: string): Option<string> {
    if info.Ok? then ResolvedPhone(info.value, instanceName) else None
  }

  /**
   * `getQrCode`: record the state; in the connected branch record the owner
   * (an info failure is ignored) and answer "connected"; otherwise, or when
   * the state call failed, pass on the connect reply.
   */
  function GetQrCodeEffect(t: Tables, instanceName: string, state: Result<StateReply, GatewayError>,
                           info: Result<seq<InstanceInfo>, GatewayError>, connect: Result<ConnectReply, GatewayError>): (q: QrLookup)
    ensures state.Err? ==> q == QrLookup(t, connect, [])
    ensures q.scheduled != [] ==> q.result == Ok(AlreadyConnectedReply) && q.scheduled == [BackfillRequest(instanceName, None, None)]
  {
    if state.Ok? then
      var token := StateToken(state.value);
      var t1 := RecordState(t, instanceName, token);
      if TakesConnectedBranch(token) then
        var phone := InfoPhone(info, instanceName);
        QrLookup(RecordOwner(t1, instanceName, phone), Ok(AlreadyConnectedReply),
                 if phone.Some? then [BackfillRequest(instanceName, None, None)] else [])
      else QrLookup(t1, connect, [])
    else QrLookup(t, connect, [])
  }

  /** `getQrCode` answers "connected" exactly in the connected branch; otherwise it is the connect call's outcome. */
  lemma GetQrCodeAnswer(t: Tables, instanceName: string, state: Result<StateReply, GatewayError>,
                        info: Result<seq<InstanceInfo>, GatewayError>, connect: Result<ConnectReply, GatewayError>)
    ensures var q := GetQrCodeEffect(t, instanceName, state, info, connect);
      && (state.Ok? && TakesConnectedBranch(StateToken(state.value)) ==> q.result == Ok(AlreadyConnectedReply))
      && (!(state.Ok? && TakesConnectedBranch(StateToken(state.value))) ==> q.result == connect && q.scheduled == [])
      && q.tables.conversations == t.conversations && q.tables.messages == t.messages
      && (ValidTables(t) ==> ValidTables(q.tables))
  {
  }

  method GetQrCode(db: Store, instanceName: string, state: Result<StateReply, GatewayError>,
                   info: Result<seq<InstanceInfo>, GatewayError>, connect: Result<ConnectReply, GatewayError>)
    returns (r: Result<ConnectReply, GatewayError>, scheduled: seq<BackfillRequest>)
    modifies db
    ensures var q := GetQrCodeEffect(old(db.Tables()), instanceName, state, info, connect);
      db.Tables() == q.tables && r == q.result && scheduled == q.scheduled
    ensures old(db.Valid()) ==> db.Valid()
  {
    scheduled := [];
    if state.Ok? {
      var token := StateToken(state.value);
      var status := NormaliseState(token);
      if status.Some? {
        db.SetLineState(instanceName, status.value, None);
      }
      if TakesConnectedBranch(token) {
        var phone := InfoPhone(info, instanceName);
        if phone.Some? {
          db.SetLineState(instanceName, Connected, phone);
          scheduled := [BackfillRequest(instanceName, None, None)];
        }
        return Ok(AlreadyConnectedReply), scheduled;
      }
    }
    r := connect;
  }

  /** The replies `syncInstance` works from: connection state, then instance info. */
  datatype InstanceReplies = InstanceReplies(state: Result<StateReply, GatewayError>, info: Result<seq<InstanceInfo>, GatewayError>)

  /** What `syncInstance` answers: the phone of a resolved owner, or the raw state (`'unknown'` when falsy). */
  datatype SyncReport = ConnectedWith(phoneNumber: string) | StatusOnly(status: string)

  /** The answer of `syncInstance`; it depends on the replies only. */
  function SyncResult(instanceName: string, replies: InstanceReplies): (r: Result<SyncReport, GatewayError>)
    ensures replies.state.Err? ==> r == Err(replies.state.error)
    ensures r.Ok? && r.value.StatusOnly? ==> Truthy(r.value.status)
    ensures r.Ok? && r.value.ConnectedWith? ==> '@' !in r.value.phoneNumber
  {
    if replies.state.Err? then Err(replies.state.error)
    else
      var token := StateToken(replies.state.value);
      if TakesConnectedBranch(token) && replies.info.Err? then Err(replies.info.error)
      else if TakesConnectedBranch(token) && ResolvedPhone(replies.info.value, instanceName).Some? then
        Ok(ConnectedWith(ResolvedPhone(replies.info.value, instanceName).value))
      else Ok(StatusOnly(OrElse(token, "unknown")))
  }

  /** The tables after `syncInstance`: the state write, then the owner write in the connected branch. */
  function SyncInstanceTables(t: Tables, instanceName: string, replies: InstanceReplies): (t': Tables)
    ensures ValidTables(t) ==> ValidTables(t')
    ensures t'.conversations == t.conversations && t'.messages == t.messages
    ensures replies.state.Err? ==> t' == t
  {
    if replies.state.Err? then t
    else
      var token := StateToken(replies.state.value);
      var t1 := RecordState(t, instanceName, token);
      if TakesConnectedBranch(token) then RecordOwner(t1, instanceName, InfoPhone(replies.info, instanceName))
      else t1
  }

  function SyncInstanceScheduled(instanceName: string, replies: InstanceReplies): seq<BackfillRequest> {
    if SyncResult(instanceName, replies).Ok? && SyncResult(instanceName, replies).value.ConnectedWith? then
      [BackfillRequest(instanceName, None, None)]
    else []
  }

  /**
   * `syncInstance` fails exactly when the state call fails, or the info call
   * fails in the connected branch; it reports a phone number exactly when an
   * owner JID was resolved, and that number is the JID's part before `@`.
   */
  lemma SyncResultCases(instanceName: string, replies: InstanceReplies)
    ensures var r := SyncResult(instanceName, replies);
      && (r.Err? <==> replies.state.Err? || (TakesConnectedBranch(StateToken(replies.state.value)) && replies.info.Err?))
      && (r.Ok? && r.value.ConnectedWith? <==>
            replies.state.Ok? && TakesConnectedBranch(StateToken(replies.state.value)) && replies.info.Ok?
            && Present(OwnerJid(ChooseInstance(replies.info.value, instanceName))))
      && (r.Ok? && r.value.ConnectedWith? ==>
            r.value.phoneNumber == PhoneOf(OwnerJid(ChooseInstance(replies.info.value, instanceName)).value))
  {
  }

  /**
   * The Line a sync is about ends with the status the token normalises to,
   * unless an owner was resolved, in which case it is Connected with the
   * owner's phone number. Other Lines, Conversations and Messages are untouched.
   */
  lemma SyncInstanceLineState(t: Tables, instanceName: string, replies: InstanceReplies, i: nat)
    requires i < |t.lines|
    ensures var t' := SyncInstanceTables(t, instanceName, replies);
      var r := SyncResult(instanceName, replies);
      && |t'.lines| == |t.lines| && t'.conversations == t.conversations && t'.messages == t.messages
      && (t.lines[i].instanceName != instanceName ==> t'.lines[i] == t.lines[i])
      && (t.lines[i].instanceName == instanceName && r.Ok? && r.value.ConnectedWith? ==>
            t'.lines[i].status == Connected && t'.lines[i].phoneNumber == Some(r.value.phoneNumber))
      && (t.lines[i].instanceName == instanceName && replies.state.Ok? && !(r.Ok? && r.value.ConnectedWith?) ==>
            t'.lines[i] == (match NormaliseState(StateToken(replies.state.value))
                            case None => t.lines[i]
                            case Some(s) => t.lines[i].(status := s)))
      && (replies.state.Err? ==> t' == t)
  {
  }

  /**
   * A raw `'connected'` token with no resolvable owner: `syncInstance`
   * reports `'connected'` while the Line is stored Disconnected.
   */
  lemma ConnectedTokenWithoutOwner(t: Tables, instanceName: string, replies: InstanceReplies, i: nat)
    requires i < |t.lines| && t.lines[i].instanceName == instanceName
    requires replies.state.Ok? && StateToken(replies.state.value) == Some("connected")
    requires replies.info.Ok? && ResolvedPhone(replies.info.value, instanceName).None?
    ensures SyncResult(instanceName, replies) == Ok(StatusOnly("connected"))
    ensures SyncInstanceTables(t, instanceName, replies).lines[i].status == Disconnected
  {
  }

  /**
   * `getQrCode` writes the Line exactly as `syncInstance` does from the same
   * state and info replies: the normalised status, then, in the connected
   * branch, Connected with the owner's phone. The info failure that
   * `syncInstance` reports is ignored here, and in both it writes nothing more.
   */
  lemma GetQrCodeWritesAsSync(t: Tables, instanceName: string, state: Result<StateReply, GatewayError>,
                              info: Result<seq<InstanceInfo>, GatewayError>, connect: Result<ConnectReply, GatewayError>)
    ensures GetQrCodeEffect(t, instanceName, state, info, connect).tables == SyncInstanceTables(t, instanceName, InstanceReplies(state, info))
  {
  }

  /**
   * The Line `getQrCode` is about ends Connected with the resolved owner's
   * phone when the connected branch resolves one; otherwise it has the status
   * the token normalises to (unchanged for a falsy token). Other Lines,
   * Conversations and Messages are untouched, and a failed state call writes nothing.
   */
  lemma GetQrCodeLineState(t: Tables, instanceName: string, state: Result<StateReply, GatewayError>,
                           info: Result<seq<InstanceInfo>, GatewayError>, connect: Result<ConnectReply, GatewayError>, i: nat)
    requires i < |t.lines|
    ensures var t' := GetQrCodeEffect(t, instanceName, state, info, connect).tables;
      var resolved := state.Ok? && TakesConnectedBranch(StateToken(state.value)) && InfoPhone(info, instanceName).Some?;
      && |t'.lines| == |t.lines| && t'.conversations == t.conversations && t'.messages == t.messages
      && (t.lines[i].instanceName != instanceName ==> t'.lines[i] == t.lines[i])
      && (t.lines[i].instanceName == instanceName && resolved ==>
            t'.lines[i].status == Connected && t'.lines[i].phoneNumber == InfoPhone(info, instanceName)
            && t'.lines[i].phoneNumber == Some(PhoneOf(OwnerJid(ChooseInstance(info.value, instanceName)).value)))
      && (t.lines[i].instanceName == instanceName && state.Ok? && !resolved ==>
            t'.lines[i] == (match NormaliseState(StateToken(state.value))
                            case None => t.lines[i]
                            case Some(s) => t.lines[i].(status := s)))
      && (state.Err? ==> t' == t)
  {
    var replies := InstanceReplies(state, info);
    GetQrCodeWritesAsSync(t, instanceName, state, info, connect);
    SyncInstanceLineState(t, instanceName, replies, i);
    SyncResultCases(instanceName, replies);
  }

  method SyncInstance(db: Store, instanceName: string, replies: InstanceReplies)
    returns (r: Result<SyncReport, GatewayError>, scheduled: seq<BackfillRequest>)
    modifies db
    ensures db.Tables() == SyncInstanceTables(old(db.Tables()), instanceName, replies)
    ensures r == SyncResult(instanceName, replies)
    ensures scheduled == SyncInstanceScheduled(instanceName, replies)
    ensures old(db.Valid()) ==> db.Valid()
  {
    scheduled := [];
    if replies.state.Err? {
      return Err(replies.state.error), [];
    }
    var token := StateToken(replies.state.value);
    var status := NormaliseState(token);
    if status.Some? {
      db.SetLineState(instanceName, status.value, None);
    }
    if TakesConnectedBranch(token) {
      if replies.info.Err? {
        return Err(replies.info.error), [];
      }
      var phone := ResolvedPhone(replies.info.value, instanceName);
      if phone.Some? {
        db.SetLineState(instanceName, Connected, phone);
        scheduled := [BackfillRequest(instanceName, None, None)];
        return Ok(ConnectedWith(phone.value)), scheduled;
      }
    }
    r := Ok(StatusOnly(OrElse(token, "unknown")));
  }

  // ---------------------------------------------------------------------
  // syncHistory

  /** One chat's import: the tables, the imported and skipped counts, and the store failure that ended it, if any. */
  datatype ChatImport = ChatImport(tables: Tables, imported: nat, skipped: nat, failure: Option<DbError>)

  /**
   * Import one chat's messages in order: skip those without an id, count and
   * skip those older than the threshold, create those not yet stored; a
   * rejected create ends the chat.
   */
  function ImportChat(t: Tables, conversationId: nat, msgs: seq<HistoryMessage>, threshold: int, nowMs: int): (r: ChatImport)
    ensures r.imported + r.skipped <= |msgs|
    ensures r.tables.lines == t.lines && r.tables.conversations == t.conversations
    decreases |msgs|
  {
    if msgs == [] then ChatImport(t, 0, 0, None)
    else
      var m := msgs[0];
      if !Present(HistoryId(m)) then ImportChat(t, conversationId, msgs[1..], threshold, nowMs)
      else if HistorySeconds(m) < threshold then
        var rest := ImportChat(t, conversationId, msgs[1..], threshold, nowMs);
        rest.(skipped := rest.skipped + 1)
      else if MessageWithEvolutionId(t.messages, HistoryId(m).value).Some? then
        ImportChat(t, conversationId, msgs[1..], threshold, nowMs)
      else
        var c := Schema.CreateMessage(t, HistoryDraft(m, conversationId, nowMs));
        if c.result.Err? then ChatImport(c.tables, 0, 0, Some(c.result.error))
        else
          var rest := ImportChat(c.tables, conversationId, msgs[1..], threshold, nowMs);
          rest.(imported := rest.imported + 1)
  }

  /** The outcome of the contact loop: the tables, and the store failure that aborted it, if any. */
  datatype ContactsSync = ContactsSync(tables: Tables, failure: Option<DbError>)

  /**
   * The contact loop: for each contact with an id, upsert its Conversation
   * (a failure aborts the loop), fetch up to `limit` messages (a failure
   * skips the chat) and import them.
   */
  function SyncContacts(t: Tables, line: Line, contacts: seq<Contact>,
                        fetch: (string, nat) -> Result<seq<HistoryMessage>, GatewayError>,
                        limit: nat, threshold: int, nowMs: int): (r: ContactsSync)
    ensures r.tables.lines == t.lines
    ensures (forall c :: c in contacts ==> !Present(c.id)) ==> r == ContactsSync(t, None)
    decreases |contacts|
  {
    if contacts == [] then ContactsSync(t, None)
    else
      var c := contacts[0];
      if !Present(c.id) then SyncContacts(t, line, contacts[1..], fetch, limit, threshold, nowMs)
      else
        var name := ContactDisplayName(c);
        var w := Schema.UpsertConversation(t, line.id, c.id.value, Some(name), Some(name), nowMs);
        if w.result.Err? then ContactsSync(w.tables, Some(w.result.error))
        else
          var t2 := match fetch(c.id.value, limit)
            case Err(_) => w.tables
            case Ok(msgs) => ImportChat(w.tables, w.result.value.id, msgs, threshold, nowMs).tables;
          SyncContacts(t2, line, contacts[1..], fetch, limit, threshold, nowMs)
  }

  /** How a history sync ended; none of these is thrown to the caller. */
  datatype SyncOutcome = NoLine | Completed | Aborted(error: LineError)

  datatype HistorySync = HistorySync(tables: Tables, outcome: SyncOutcome)

  function SyncHistoryEffect(t: Tables, instanceName: string, limit: Option<nat>, daysBack: Option<nat>,
                             contacts: Result<seq<Contact>, GatewayError>,
                             fetch: (string, nat) -> Result<seq<HistoryMessage>, GatewayError>, nowMs: int): (h: HistorySync)
    ensures LineNamed(t.lines, instanceName).None? ==> h == HistorySync(t, NoLine)
    ensures contacts.Err? ==> h.tables == t
    ensures h.outcome == NoLine <==> LineNamed(t.lines, instanceName).None?
    ensures h.tables.lines == t.lines
  {
    match LineNamed(t.lines, instanceName)
    case None => HistorySync(t, NoLine)
    case Some(line) =>
      match contacts
      case Err(e) => HistorySync(t, Aborted(GatewayFailure(e)))
      case Ok(cs) =>
        var r := SyncContacts(t, line, cs, fetch, EffectiveLimit(limit), Threshold(nowMs, EffectiveDaysBack(daysBack)), nowMs);
        HistorySync(r.tables, if r.failure.Some? then Aborted(StoreFailure(r.failure.value)) else Completed)
  }

  // What the backfill guarantees.

  /** A chat import only appends Messages, keeps the tables consistent and counts what it created. */
  lemma {:induction false} ImportChatFrame(t: Tables, conversationId: nat, msgs: seq<HistoryMessage>, threshold: int, nowMs: int)
    ensures var r := ImportChat(t, conversationId, msgs, threshold, nowMs);
      && r.tables.lines == t.lines && r.tables.conversations == t.conversations
      && |t.messages| <= |r.tables.messages| && r.tables.messages[..|t.messages|] == t.messages
      && r.imported == |r.tables.messages| - |t.messages|
      && (ValidTables(t) ==> ValidTables(r.tables))
    decreases |msgs|
  {
    if msgs != [] {
      var m := msgs[0];
      if !Present(HistoryId(m)) || HistorySeconds(m) < threshold
        || MessageWithEvolutionId(t.messages, HistoryId(m).value).Some? {
        ImportChatFrame(t, conversationId, msgs[1..], threshold, nowMs);
      } else {
        var c := Schema.CreateMessage(t, HistoryDraft(m, conversationId, nowMs));
        if c.result.Ok? {
          ImportChatFrame(c.tables, conversationId, msgs[1..], threshold, nowMs);
          var r := ImportChat(c.tables, conversationId, msgs[1..], threshold, nowMs);
          assert r.tables.messages[..|t.messages|] == r.tables.messages[..|c.tables.messages|][..|t.messages|];
        }
      }
    }
  }

  /**
   * Every Message a chat import adds belongs to the chat's Conversation, has
   * content, and was built from a message of the chat with an id and a
   * timestamp at or after the threshold.
   */
  lemma {:induction false} ImportedMessagesAreImportable(t: Tables, conversationId: nat, msgs: seq<HistoryMessage>,
                                                         threshold: int, nowMs: int, k: nat)
    requires var r := ImportChat(t, conversationId, msgs, threshold, nowMs);
      |t.messages| <= k < |r.tables.messages|
    ensures var m := ImportChat(t, conversationId, msgs, threshold, nowMs).tables.messages[k];
      && m.conversationId == conversationId && Truthy(m.content)
      && exists j :: 0 <= j < |msgs| && Importable(msgs[j], threshold)
           && m == MessageFrom(HistoryDraft(msgs[j], conversationId, nowMs), m.id)
    decreases |msgs|
  {
    var m0 := msgs[0];
    if !Present(HistoryId(m0)) || HistorySeconds(m0) < threshold
      || MessageWithEvolutionId(t.messages, HistoryId(m0).value).Some? {
      ImportedMessagesAreImportable(t, conversationId, msgs[1..], threshold, nowMs, k);
      var m := ImportChat(t, conversationId, msgs, threshold, nowMs).tables.messages[k];
      var j :| 0 <= j < |msgs[1..]| && Importable(msgs[1..][j], threshold)
           && m == MessageFrom(HistoryDraft(msgs[1..][j], conversationId, nowMs), m.id);
      assert msgs[j + 1] == msgs[1..][j];
    } else {
      var c := Schema.CreateMessage(t, HistoryDraft(m0, conversationId, nowMs));
      ImportChatFrame(c.tables, conversationId, msgs[1..], threshold, nowMs);
      var r := ImportChat(c.tables, conversationId, msgs[1..], threshold, nowMs);
      if k == |t.messages| {
        assert r.tables.messages[k] == r.tables.messages[..|c.tables.messages|][k];
        assert Importable(msgs[0], threshold);
      } else {
        ImportedMessagesAreImportable(c.tables, conversationId, msgs[1..], threshold, nowMs, k);
        var m := r.tables.messages[k];
        var j :| 0 <= j < |msgs[1..]| && Importable(msgs[1..][j], threshold)
             && m == MessageFrom(HistoryDraft(msgs[1..][j], conversationId, nowMs), m.id);
        assert msgs[j + 1] == msgs[1..][j];
      }
    }
  }

  predicate IsOld(m: HistoryMessage, threshold: int) {
    Present(HistoryId(m)) && HistorySeconds(m) < threshold
  }

  /**
   * A chat import that completes skips exactly the messages with an id that
   * are older than the threshold (a message at the threshold second is kept),
   * and afterwards every importable message of the chat is stored.
   */
  lemma {:induction false} CompletedImport(t: Tables, conversationId: nat, msgs: seq<HistoryMessage>, threshold: int, nowMs: int)
    requires ImportChat(t, conversationId, msgs, threshold, nowMs).failure.None?
    ensures var r := ImportChat(t, conversationId, msgs, threshold, nowMs);
      && r.skipped == Seqs.Count(msgs, (m: HistoryMessage) => IsOld(m, threshold))
      && forall j :: 0 <= j < |msgs| && Importable(msgs[j], threshold) ==> HasMessage(r.tables, HistoryId(msgs[j]).value)
    decreases |msgs|
  {
    if msgs != [] {
      var m := msgs[0];
      var r := ImportChat(t, conversationId, msgs, threshold, nowMs);
      var next := if !Present(HistoryId(m)) || HistorySeconds(m) < threshold
        || MessageWithEvolutionId(t.messages, HistoryId(m).value).Some? then t
        else Schema.CreateMessage(t, HistoryDraft(m, conversationId, nowMs)).tables;
      CompletedImport(next, conversationId, msgs[1..], threshold, nowMs);
      ImportChatFrame(next, conversationId, msgs[1..], threshold, nowMs);
      assert r.tables == ImportChat(next, conversationId, msgs[1..], threshold, nowMs).tables;
      forall j | 0 <= j < |msgs| && Importable(msgs[j], threshold)
        ensures HasMessage(r.tables, HistoryId(msgs[j]).value)
      {
        if j == 0 {
          var id := HistoryId(m).value;
          var i :| 0 <= i < |next.messages| && next.messages[i].evolutionId == id;
          assert r.tables.messages[i] == r.tables.messages[..|next.messages|][i];
        } else {
          assert msgs[j] == msgs[1..][j - 1];
        }
      }
    }
  }

  /** Importing a chat whose importable messages are all stored adds nothing: the backfill is idempotent. */
  lemma {:induction false} ImportChatAgain(t: Tables, conversationId: nat, msgs: seq<HistoryMessage>, threshold: int, nowMs: int)
    requires forall j :: 0 <= j < |msgs| && Importable(msgs[j], threshold) ==> HasMessage(t, HistoryId(msgs[j]).value)
    ensures ImportChat(t, conversationId, msgs, threshold, nowMs).tables == t
    decreases |msgs|
  {
    if msgs != [] {
      forall j | 0 <= j < |msgs[1..]| && Importable(msgs[1..][j], threshold)
        ensures HasMessage(t, HistoryId(msgs[1..][j]).value)
      {
        assert msgs[1..][j] == msgs[j + 1];
      }
      ImportChatAgain(t, conversationId, msgs[1..], threshold, nowMs);
    }
  }

  /** The contact loop never touches a Line, only appends Messages and keeps the tables consistent. */
  lemma {:induction false} SyncContactsFrame(t: Tables, line: Line, contacts: seq<Contact>,
                                             fetch: (string, nat) -> Result<seq<HistoryMessage>, GatewayError>,
                                             limit: nat, threshold: int, nowMs: int)
    ensures var r := SyncContacts(t, line, contacts, fetch, limit, threshold, nowMs);
      && r.tables.lines == t.lines
      && |t.messages| <= |r.tables.messages| && r.tables.messages[..|t.messages|] == t.messages
      && (ValidTables(t) ==> ValidTables(r.tables))
    decreases |contacts|
  {
    if contacts != [] {
      var c := contacts[0];
      if !Present(c.id) {
        SyncContactsFrame(t, line, contacts[1..], fetch, limit, threshold, nowMs);
      } else {
        var name := ContactDisplayName(c);
        var w := Schema.UpsertConversation(t, line.id, c.id.value, Some(name), Some(name), nowMs);
        if w.result.Ok? {
          var t2 := match fetch(c.id.value, limit)
            case Err(_) => w.tables
            case Ok(msgs) => ImportChat(w.tables, w.result.value.id, msgs, threshold, nowMs).tables;
          if fetch(c.id.value, limit).Ok? {
            ImportChatFrame(w.tables, w.result.value.id, fetch(c.id.value, limit).value, threshold, nowMs);
          }
          SyncContactsFrame(t2, line, contacts[1..], fetch, limit, threshold, nowMs);
          var r := SyncContacts(t2, line, contacts[1..], fetch, limit, threshold, nowMs);
          assert r.tables.messages[..|t.messages|] == r.tables.messages[..|t2.messages|][..|t.messages|];
        }
      }
    }
  }

  /**
   * A history sync for an instance with no Line writes nothing; any sync
   * keeps the Lines as they are, keeps the tables consistent and only
   * appends Messages.
   */
  lemma SyncHistoryFrame(t: Tables, instanceName: string, limit: Option<nat>, daysBack: Option<nat>,
                         contacts: Result<seq<Contact>, GatewayError>,
                         fetch: (string, nat) -> Result<seq<HistoryMessage>, GatewayError>, nowMs: int)
    ensures var h := SyncHistoryEffect(t, instanceName, limit, daysBack, contacts, fetch, nowMs);
      && (LineNamed(t.lines, instanceName).None? ==> h == HistorySync(t, NoLine))
      && (contacts.Err? ==> h.tables == t)
      && h.tables.lines == t.lines
      && t.messages <= h.tables.messages
      && (ValidTables(t) ==> ValidTables(h.tables))
  {
    if LineNamed(t.lines, instanceName).Some? && contacts.Ok? {
      SyncContactsFrame(t, LineNamed(t.lines, instanceName).value, contacts.value, fetch,
                        EffectiveLimit(limit), Threshold(nowMs, EffectiveDaysBack(daysBack)), nowMs);
    }
  }

  /** Under the invariant, a chat import into an existing Conversation never fails: every create it attempts is accepted. */
  lemma {:induction false} ImportChatCompletes(t: Tables, conversationId: nat, msgs: seq<HistoryMessage>, threshold: int, nowMs: int)
    requires ValidTables(t) && conversationId in ConversationIds(t.conversations)
    ensures ImportChat(t, conversationId, msgs, threshold, nowMs).failure.None?
    decreases |msgs|
  {
    if msgs != [] {
      var m := msgs[0];
      if !Present(HistoryId(m)) || HistorySeconds(m) < threshold
        || MessageWithEvolutionId(t.messages, HistoryId(m).value).Some? {
        ImportChatCompletes(t, conversationId, msgs[1..], threshold, nowMs);
      } else {
        var c := Schema.CreateMessage(t, HistoryDraft(m, conversationId, nowMs));
        assert !HasMessage(t, HistoryId(m).value);
        assert c.result.Ok?;
        ImportChatCompletes(c.tables, conversationId, msgs[1..], threshold, nowMs);
      }
    }
  }

  /** The tables after the step of the contact loop for `c`: its Conversation upserted, then its chat imported if the fetch succeeded. */
  function ContactTables(t: Tables, line: Line, c: Contact,
                         fetch: (string, nat) -> Result<seq<HistoryMessage>, GatewayError>,
                         limit: nat, threshold: int, nowMs: int): Tables
    requires Present(c.id)
    requires Schema.UpsertConversation(t, line.id, c.id.value, Some(ContactDisplayName(c)), Some(ContactDisplayName(c)), nowMs).result.Ok?
  {
    var w := Schema.UpsertConversation(t, line.id, c.id.value, Some(ContactDisplayName(c)), Some(ContactDisplayName(c)), nowMs);
    match fetch(c.id.value, limit)
    case Err(_) => w.tables
    case Ok(msgs) => ImportChat(w.tables, w.result.value.id, msgs, threshold, nowMs).tables
  }

  /**
   * The step of the contact loop for one contact with an id, under the
   * invariant and an existing Line: the upsert succeeds, the chat import
   * completes, the invariant and the Lines are kept and Messages are only
   * appended.
   */
  lemma ContactStep(t: Tables, line: Line, c: Contact,
                    fetch: (string, nat) -> Result<seq<HistoryMessage>, GatewayError>,
                    limit: nat, threshold: int, nowMs: int)
    requires ValidTables(t) && line.id in LineIds(t.lines) && Present(c.id)
    ensures var w := Schema.UpsertConversation(t, line.id, c.id.value, Some(ContactDisplayName(c)), Some(ContactDisplayName(c)), nowMs);
      && w.result.Ok? && ValidTables(w.tables) && w.tables.lines == t.lines
      && w.result.value.id in ConversationIds(w.tables.conversations)
      && (fetch(c.id.value, limit).Ok? ==>
            ImportChat(w.tables, w.result.value.id, fetch(c.id.value, limit).value, threshold, nowMs).failure.None?)
    ensures var t2 := ContactTables(t, line, c, fetch, limit, threshold, nowMs);
      && ValidTables(t2) && t2.lines == t.lines
      && |t.messages| <= |t2.messages| && t2.messages[..|t.messages|] == t.messages
  {
    var w := Schema.UpsertConversation(t, line.id, c.id.value, Some(ContactDisplayName(c)), Some(ContactDisplayName(c)), nowMs);
    if fetch(c.id.value, limit).Ok? {
      ImportChatCompletes(w.tables, w.result.value.id, fetch(c.id.value, limit).value, threshold, nowMs);
      ImportChatFrame(w.tables, w.result.value.id, fetch(c.id.value, limit).value, threshold, nowMs);
    }
  }

  /** Under the invariant and an existing Line, the contact loop runs to its end: no store call it makes is rejected. */
  lemma {:induction false} SyncContactsCompletes(t: Tables, line: Line, contacts: seq<Contact>,
                                                 fetch: (string, nat) -> Result<seq<HistoryMessage>, GatewayError>,
                                                 limit: nat, threshold: int, nowMs: int)
    requires ValidTables(t) && line.id in LineIds(t.lines)
    ensures SyncContacts(t, line, contacts, fetch, limit, threshold, nowMs).failure.None?
    decreases |contacts|
  {
    if contacts != [] {
      var c := contacts[0];
      if !Present(c.id) {
        SyncContactsCompletes(t, line, contacts[1..], fetch, limit, threshold, nowMs);
      } else {
        ContactStep(t, line, c, fetch, limit, threshold, nowMs);
        SyncContactsCompletes(ContactTables(t, line, c, fetch, limit, threshold, nowMs), line, contacts[1..], fetch, limit, threshold, nowMs);
      }
    }
  }

  /** A contact without a truthy id is skipped: the loop does what it does over the contacts that have one. */
  lemma {:induction false} ContactsWithoutIdSkipped(t: Tables, line: Line, contacts: seq<Contact>,
                                                    fetch: (string, nat) -> Result<seq<HistoryMessage>, GatewayError>,
                                                    limit: nat, threshold: int, nowMs: int)
    ensures SyncContacts(t, line, contacts, fetch, limit, threshold, nowMs)
         == SyncContacts(t, line, Seqs.Filter(contacts, (c: Contact) => Present(c.id)), fetch, limit, threshold, nowMs)
    decreases |contacts|
  {
    if contacts != [] {
      var c := contacts[0];
      var rest := Seqs.Filter(contacts[1..], (c: Contact) => Present(c.id));
      if !Present(c.id) {
        ContactsWithoutIdSkipped(t, line, contacts[1..], fetch, limit, threshold, nowMs);
      } else {
        var w := Schema.UpsertConversation(t, line.id, c.id.value, Some(ContactDisplayName(c)), Some(ContactDisplayName(c)), nowMs);
        assert ([c] + rest)[1..] == rest;
        if w.result.Ok? {
          ContactsWithoutIdSkipped(ContactTables(t, line, c, fetch, limit, threshold, nowMs), line, contacts[1..], fetch, limit, threshold, nowMs);
        }
      }
    }
  }

  /** A stored Message stays stored when Messages are only appended. */
  lemma HasMessageKept(t: Tables, r: Tables, evolutionId: string)
    requires HasMessage(t, evolutionId)
    requires |t.messages| <= |r.messages| && r.messages[..|t.messages|] == t.messages
    ensures HasMessage(r, evolutionId)
  {
    var i :| 0 <= i < |t.messages| && t.messages[i].evolutionId == evolutionId;
    assert r.messages[i] == r.messages[..|t.messages|][i];
  }

  /** A Conversation row stays as it is through the loop when no contact in it has the row's key. */
  lemma {:induction false} SyncContactsKeepsRow(t: Tables, line: Line, contacts: seq<Contact>,
                                                fetch: (string, nat) -> Result<seq<HistoryMessage>, GatewayError>,
                                                limit: nat, threshold: int, nowMs: int, i: nat)
    requires i < |t.conversations|
    requires forall c :: c in contacts && Present(c.id) ==> !IsConversationOf(t.conversations[i], line.id, c.id.value)
    ensures var r := SyncContacts(t, line, contacts, fetch, limit, threshold, nowMs).tables;
      i < |r.conversations| && r.conversations[i] == t.conversations[i]
    decreases |contacts|
  {
    if contacts != [] {
      var c := contacts[0];
      if !Present(c.id) {
        SyncContactsKeepsRow(t, line, contacts[1..], fetch, limit, threshold, nowMs, i);
      } else {
        var w := Schema.UpsertConversation(t, line.id, c.id.value, Some(ContactDisplayName(c)), Some(ContactDisplayName(c)), nowMs);
        if w.result.Ok? {
          assert w.tables.conversations[i] == t.conversations[i];
          var t2 := ContactTables(t, line, c, fetch, limit, threshold, nowMs);
          if fetch(c.id.value, limit).Ok? {
            ImportChatFrame(w.tables, w.result.value.id, fetch(c.id.value, limit).value, threshold, nowMs);
          }
          assert t2.conversations == w.tables.conversations;
          SyncContactsKeepsRow(t2, line, contacts[1..], fetch, limit, threshold, nowMs, i);
        }
      }
    }
  }

  /** After the step for `c`, some row has `c`'s key and its display name. */
  lemma ContactRowNamed(t: Tables, line: Line, c: Contact,
                        fetch: (string, nat) -> Result<seq<HistoryMessage>, GatewayError>,
                        limit: nat, threshold: int, nowMs: int)
    requires Present(c.id)
    requires Schema.UpsertConversation(t, line.id, c.id.value, Some(ContactDisplayName(c)), Some(ContactDisplayName(c)), nowMs).result.Ok?
    ensures var t2 := ContactTables(t, line, c, fetch, limit, threshold, nowMs);
      exists i :: 0 <= i < |t2.conversations| && IsConversationOf(t2.conversations[i], line.id, c.id.value)
        && t2.conversations[i].contactName == Some(ContactDisplayName(c))
  {
    var w := Schema.UpsertConversation(t, line.id, c.id.value, Some(ContactDisplayName(c)), Some(ContactDisplayName(c)), nowMs);
    if fetch(c.id.value, limit).Ok? {
      ImportChatFrame(w.tables, w.result.value.id, fetch(c.id.value, limit).value, threshold, nowMs);
    }
    var t2 := ContactTables(t, line, c, fetch, limit, threshold, nowMs);
    assert t2.conversations == w.tables.conversations;
    match ConversationIndex(t.conversations, line.id, c.id.value)
    case Some(i) =>
      assert IsConversationOf(t2.conversations[i], line.id, c.id.value);
    case None =>
      var i := |t.conversations|;
      assert t2.conversations[i] == w.result.value;
  }

  /**
   * After a contact loop that ran to its end, a contact with an id that no
   * later contact repeats has its Conversation on the Line, named
   * `name || pushName || id`.
   */
  lemma {:induction false} SyncContactsNames(t: Tables, line: Line, contacts: seq<Contact>,
                                             fetch: (string, nat) -> Result<seq<HistoryMessage>, GatewayError>,
                                             limit: nat, threshold: int, nowMs: int, k: nat)
    requires SyncContacts(t, line, contacts, fetch, limit, threshold, nowMs).failure.None?
    requires k < |contacts| && Present(contacts[k].id)
    requires forall j :: k < j < |contacts| ==> contacts[j].id != contacts[k].id
    ensures var r := SyncContacts(t, line, contacts, fetch, limit, threshold, nowMs).tables;
      exists i :: 0 <= i < |r.conversations| && IsConversationOf(r.conversations[i], line.id, contacts[k].id.value)
        && r.conversations[i].contactName == Some(ContactDisplayName(contacts[k]))
    decreases |contacts|
  {
    var c := contacts[0];
    forall j | k < j < |contacts| ensures contacts[1..][j - 1] == contacts[j] { }
    if !Present(c.id) {
      SyncContactsNames(t, line, contacts[1..], fetch, limit, threshold, nowMs, k - 1);
    } else {
      var t2 := ContactTables(t, line, c, fetch, limit, threshold, nowMs);
      if k == 0 {
        ContactRowNamed(t, line, c, fetch, limit, threshold, nowMs);
        var i :| 0 <= i < |t2.conversations| && IsConversationOf(t2.conversations[i], line.id, c.id.value)
          && t2.conversations[i].contactName == Some(ContactDisplayName(c));
        forall d | d in contacts[1..] && Present(d.id) ensures !IsConversationOf(t2.conversations[i], line.id, d.id.value) {
          var j :| 0 <= j < |contacts[1..]| && contacts[1..][j] == d;
          assert contacts[j + 1] == d;
        }
        SyncContactsKeepsRow(t2, line, contacts[1..], fetch, limit, threshold, nowMs, i);
      } else {
        SyncContactsNames(t2, line, contacts[1..], fetch, limit, threshold, nowMs, k - 1);
      }
    }
  }

  /**
   * Under the invariant and an existing Line, every importable message of a
   * contact whose fetch succeeded is stored at the end of the loop, whatever
   * the fetches of the other contacts returned.
   */
  lemma {:induction false} SyncContactsStoresChat(t: Tables, line: Line, contacts: seq<Contact>,
                                                  fetch: (string, nat) -> Result<seq<HistoryMessage>, GatewayError>,
                                                  limit: nat, threshold: int, nowMs: int, k: nat)
    requires ValidTables(t) && line.id in LineIds(t.lines)
    requires k < |contacts| && Present(contacts[k].id) && fetch(contacts[k].id.value, limit).Ok?
    ensures var msgs := fetch(contacts[k].id.value, limit).value;
      var r := SyncContacts(t, line, contacts, fetch, limit, threshold, nowMs).tables;
      forall j :: 0 <= j < |msgs| && Importable(msgs[j], threshold) ==> HasMessage(r, HistoryId(msgs[j]).value)
    decreases |contacts|
  {
    var c := contacts[0];
    if !Present(c.id) {
      assert contacts[1..][k - 1] == contacts[k];
      SyncContactsStoresChat(t, line, contacts[1..], fetch, limit, threshold, nowMs, k - 1);
    } else {
      ContactStep(t, line, c, fetch, limit, threshold, nowMs);
      var t2 := ContactTables(t, line, c, fetch, limit, threshold, nowMs);
      if k == 0 {
        var w := Schema.UpsertConversation(t, line.id, c.id.value, Some(ContactDisplayName(c)), Some(ContactDisplayName(c)), nowMs);
        var msgs := fetch(c.id.value, limit).value;
        CompletedImport(w.tables, w.result.value.id, msgs, threshold, nowMs);
        SyncContactsFrame(t2, line, contacts[1..], fetch, limit, threshold, nowMs);
        var r := SyncContacts(t2, line, contacts[1..], fetch, limit, threshold, nowMs).tables;
        forall j | 0 <= j < |msgs| && Importable(msgs[j], threshold) ensures HasMessage(r, HistoryId(msgs[j]).value) {
          HasMessageKept(t2, r, HistoryId(msgs[j]).value);
        }
      } else {
        assert contacts[1..][k - 1] == contacts[k];
        SyncContactsStoresChat(t2, line, contacts[1..], fetch, limit, threshold, nowMs, k - 1);
      }
    }
  }

  /**
   * A history sync of an existing Line over fetched contacts completes, and
   * afterwards each contact with an id has its Conversation, named after its
   * last occurrence in the list, and every importable message of each chat
   * whose fetch succeeded is stored, whatever happened to the other chats.
   */
  lemma SyncHistoryContact(t: Tables, instanceName: string, limit: Option<nat>, daysBack: Option<nat>,
                           cs: seq<Contact>, fetch: (string, nat) -> Result<seq<HistoryMessage>, GatewayError>,
                           nowMs: int, k: nat)
    requires ValidTables(t) && LineNamed(t.lines, instanceName).Some?
    requires k < |cs| && Present(cs[k].id)
    ensures var h := SyncHistoryEffect(t, instanceName, limit, daysBack, Ok(cs), fetch, nowMs);
      var line := LineNamed(t.lines, instanceName).value;
      && h.outcome == Completed
      && ((forall j :: k < j < |cs| ==> cs[j].id != cs[k].id) ==>
            exists i :: 0 <= i < |h.tables.conversations| && IsConversationOf(h.tables.conversations[i], line.id, cs[k].id.value)
              && h.tables.conversations[i].contactName == Some(ContactDisplayName(cs[k])))
      && (fetch(cs[k].id.value, EffectiveLimit(limit)).Ok? ==>
            var msgs := fetch(cs[k].id.value, EffectiveLimit(limit)).value;
            forall j :: 0 <= j < |msgs| && Importable(msgs[j], Threshold(nowMs, EffectiveDaysBack(daysBack))) ==>
              HasMessage(h.tables, HistoryId(msgs[j]).value))
  {
    var line := LineNamed(t.lines, instanceName).value;
    var limit' := EffectiveLimit(limit);
    var threshold := Threshold(nowMs, EffectiveDaysBack(daysBack));
    LineIdListed(t.lines, line);
    SyncContactsCompletes(t, line, cs, fetch, limit', threshold, nowMs);
    if forall j :: k < j < |cs| ==> cs[j].id != cs[k].id {
      SyncContactsNames(t, line, cs, fetch, limit', threshold, nowMs, k);
    }
    if fetch(cs[k].id.value, limit').Ok? {
      SyncContactsStoresChat(t, line, cs, fetch, limit', threshold, nowMs, k);
    }
  }

  /** The message loop of one chat, with the `imported` and `skipped` counters. */
  method ImportMessages(db: Store, conversationId: nat, msgs: seq<HistoryMessage>, threshold: int, nowMs: int)
    returns (imported: nat, skipped: nat, failure: Option<DbError>)
    modifies db
    ensures var r := ImportChat(old(db.Tables()), conversationId, msgs, threshold, nowMs);
      db.Tables() == r.tables && imported == r.imported && skipped == r.skipped && failure == r.failure
  {
    ghost var t0 := db.Tables();
    imported, skipped := 0, 0;
    var i := 0;
    while i < |msgs|
      invariant 0 <= i <= |msgs|
      invariant var rest := ImportChat(db.Tables(), conversationId, msgs[i..], threshold, nowMs);
        var whole := ImportChat(t0, conversationId, msgs, threshold, nowMs);
        && rest.tables == whole.tables && rest.failure == whole.failure
        && imported + rest.imported == whole.imported && skipped + rest.skipped == whole.skipped
    {
      var msg := msgs[i];
      assert msgs[i..][1..] == msgs[i + 1..];
      var id := HistoryId(msg);
      if !Present(id) {
        i := i + 1;
        continue;
      }
      if HistorySeconds(msg) < threshold {
        skipped := skipped + 1;
        i := i + 1;
        continue;
      }
      var existing := db.FindMessage(id.value);
      if existing.None? {
        var created := db.CreateMessage(HistoryDraft(msg, conversationId, nowMs));
        if created.Err? {
          return imported, skipped, Some(created.error);
        }
        imported := imported + 1;
      }
      i := i + 1;
    }
    failure := None;
  }

  /**
   * `syncHistory`: find the Line, fetch the contacts, and for each contact
   * upsert its Conversation and import its messages. Nothing is thrown: a
   * failure ends the sync with Aborted.
   */
  method SyncHistory(db: Store, instanceName: string, limit: Option<nat>, daysBack: Option<nat>,
                     contacts: Result<seq<Contact>, GatewayError>,
                     fetch: (string, nat) -> Result<seq<HistoryMessage>, GatewayError>, nowMs: int)
    returns (outcome: SyncOutcome)
    modifies db
    ensures var h := SyncHistoryEffect(old(db.Tables()), instanceName, limit, daysBack, contacts, fetch, nowMs);
      db.Tables() == h.tables && outcome == h.outcome
  {
    var pageSize := EffectiveLimit(limit);
    var days := EffectiveDaysBack(daysBack);
    var line := db.FindLine(instanceName);
    if line.None? {
      return NoLine;
    }
    if contacts.Err? {
      return Aborted(GatewayFailure(contacts.error));
    }
    var threshold := Threshold(nowMs, days);
    var cs := contacts.value;
    ghost var t0 := db.Tables();
    var i := 0;
    while i < |cs|
      invariant 0 <= i <= |cs|
      invariant SyncContacts(db.Tables(), line.value, cs[i..], fetch, pageSize, threshold, nowMs)
             == SyncContacts(t0, line.value, cs, fetch, pageSize, threshold, nowMs)
    {
      var contact := cs[i];
      assert cs[i..][1..] == cs[i + 1..];
      if !Present(contact.id) {
        i := i + 1;
        continue;
      }
      var name := ContactDisplayName(contact);
      var conversation := db.UpsertConversation(line.value.id, contact.id.value, Some(name), Some(name), nowMs);
      if conversation.Err? {
        return Aborted(StoreFailure(conversation.error));
      }
      var page := fetch(contact.id.value, pageSize);
      if page.Ok? {
        var imported, skipped, failure := ImportMessages(db, conversation.value.id, page.value, threshold, nowMs);
      }
      i := i + 1;
    }
    outcome := Completed;
  }

  // ---------------------------------------------------------------------
  // syncAllLines

  /** One entry of the sync-all report: the instance and, on failure, the error. */
  datatype SyncDetail = SyncDetail(instance: string, error: Option<GatewayError>)

  datatype SyncAllReport = SyncAllReport(total: nat, success: nat, failed: nat, details: seq<SyncDetail>)

  function Detail(instanceName: string, replies: InstanceReplies): SyncDetail {
    var r := SyncResult(instanceName, replies);
    SyncDetail(instanceName, if r.Err? then Some(r.error) else None)
  }

  predicate Succeeded(d: SyncDetail) {
    d.error.None?
  }

  predicate Failed(d: SyncDetail) {
    d.error.Some?
  }

  function Details(lines: seq<Line>, replies: string -> InstanceReplies): (r: seq<SyncDetail>)
    ensures |r| == |lines|
    ensures forall i :: 0 <= i < |lines| ==> r[i] == Detail(lines[i].instanceName, replies(lines[i].instanceName))
  {
    seq(|lines|, i requires 0 <= i < |lines| => Detail(lines[i].instanceName, replies(lines[i].instanceName)))
  }

  lemma DetailsSnoc(lines: seq<Line>, i: nat, replies: string -> InstanceReplies)
    requires i < |lines|
    ensures Details(lines[..i + 1], replies) ==
      Details(lines[..i], replies) + [Detail(lines[i].instanceName, replies(lines[i].instanceName))]
  {
  }

  /** The report of a sync over `lines`: one detail per Line, in order, and the tally. */
  function SyncAllSummary(lines: seq<Line>, replies: string -> InstanceReplies): (r: SyncAllReport)
    ensures r.total == |lines| == |r.details|
    ensures forall i :: 0 <= i < |lines| ==> r.details[i].instance == lines[i].instanceName
  {
    var details := Details(lines, replies);
    SyncAllReport(|lines|, Seqs.Count(details, Succeeded), Seqs.Count(details, Failed), details)
  }

  /** Every Line is counted once, as a success or as a failure. */
  lemma SyncAllTally(lines: seq<Line>, replies: string -> InstanceReplies)
    ensures var r := SyncAllSummary(lines, replies);
      && r.success + r.failed == r.total == |lines| == |r.details|
      && forall i :: 0 <= i < |lines| ==>
           r.details[i].instance == lines[i].instanceName
           && (Succeeded(r.details[i]) <==> SyncResult(lines[i].instanceName, replies(lines[i].instanceName)).Ok?)
  {
    Seqs.CountComplement(Details(lines, replies), Succeeded, Failed);
  }

  /** The tables after syncing each Line in turn. */
  function SyncAllTables(t: Tables, lines: seq<Line>, replies: string -> InstanceReplies): (t': Tables)
    ensures ValidTables(t) ==> ValidTables(t')
    ensures t'.conversations == t.conversations && t'.messages == t.messages
    decreases |lines|
  {
    if lines == [] then t
    else SyncAllTables(SyncInstanceTables(t, lines[0].instanceName, replies(lines[0].instanceName)), lines[1..], replies)
  }

  /** `syncAllLines`: sync every stored Line in turn; a failure is recorded and the loop goes on. */
  method SyncAllLines(db: Store, replies: string -> InstanceReplies) returns (report: SyncAllReport)
    modifies db
    ensures report == SyncAllSummary(old(db.lines), replies)
    ensures db.Tables() == SyncAllTables(old(db.Tables()), old(db.lines), replies)
  {
    var lines := db.lines;
    ghost var t0 := db.Tables();
    var success, failed, details := 0, 0, [];
    var i := 0;
    while i < |lines|
      invariant 0 <= i <= |lines|
      invariant SyncAllTables(db.Tables(), lines[i..], replies) == SyncAllTables(t0, lines, replies)
      invariant details == Details(lines[..i], replies)
      invariant success == Seqs.Count(details, Succeeded)
      invariant failed == Seqs.Count(details, Failed)
    {
      var name := lines[i].instanceName;
      assert lines[i..][1..] == lines[i + 1..];
      var r, scheduled := SyncInstance(db, name, replies(name));
      var detail := SyncDetail(name, if r.Err? then Some(r.error) else None);
      Seqs.CountAppend(details, detail, Succeeded);
      Seqs.CountAppend(details, detail, Failed);
      DetailsSnoc(lines, i, replies);
      if r.Ok? {
        success := success + 1;
      } else {
        failed := failed + 1;
      }
      details := details + [detail];
      i := i + 1;
    }
    assert lines[..i] == lines;
    report := SyncAllReport(|lines|, success, failed, details);
  }
}
