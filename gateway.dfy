// Payload shapes of the WhatsApp gateway (Evolution API) as the backend reads
// them, and the pure rules the backend applies to them: the two content
// priority chains, the message type, state-token normalisation, owner-JID
// resolution and phone extraction, the remote id fallback, the "already
// exists" fallback of instance creation and the webhook registration order.
// An absent JavaScript property is `None`.
module Gateway {
  import opened Wrappers
  import opened Text
  import opened Schema

  /** A failed gateway call: the HTTP status and the `error` text of the reply body, when there were any. */
  datatype GatewayError = GatewayError(status: Option<int>, errorText: Option<string>)

  /**
   * A WhatsApp message object. `keys` lists its properties in their order;
   * `extendedText` is `extendedTextMessage.text` and `imageCaption` is
   * `imageMessage.caption`.
   */
  datatype MessageBody = MessageBody(
    keys: seq<string>,
    conversation: Option<string>,
    extendedText: Option<string>,
    imageCaption: Option<string>)

  const EmptyBody := MessageBody([], None, None, None)

  // ---------------------------------------------------------------------
  // Content extraction.

  /** The text carried by a message: `conversation`, then the extended text, then the image caption. */
  function BodyText(b: MessageBody): (r: Option<string>)
    ensures Present(b.conversation) ==> r == b.conversation
    ensures !Present(b.conversation) && Present(b.extendedText) ==> r == b.extendedText
    ensures !Present(b.conversation) && !Present(b.extendedText) ==> r == b.imageCaption
    ensures Present(r) <==> Present(b.conversation) || Present(b.extendedText) || Present(b.imageCaption)
  {
    Or(Or(b.conversation, b.extendedText), b.imageCaption)
  }

  const WebhookFallback := "Media/Unknown"

  /** Content of a message received by webhook: its text, else `'Media/Unknown'`. */
  function WebhookContent(b: MessageBody): (r: string)
    ensures Present(BodyText(b)) ==> r == BodyText(b).value
    ensures !Present(BodyText(b)) ==> r == WebhookFallback
    ensures Truthy(r)
  {
    OrElse(BodyText(b), WebhookFallback)
  }

  const ImagePlaceholder := "\U{1F4F7} Imagem"
  const AudioPlaceholder := "\U{1F3A4} \U{C1}udio"
  const OtherPlaceholder := "Media/Outros"

  /** The placeholder a backfilled message without text gets, by its `messageType`. */
  function Placeholder(messageType: Option<string>): (r: string)
    ensures r == ImagePlaceholder <==> messageType == Some("imageMessage")
    ensures r == AudioPlaceholder <==> messageType == Some("audioMessage")
    ensures r in {ImagePlaceholder, AudioPlaceholder, OtherPlaceholder}
  {
    if messageType == Some("imageMessage") then ImagePlaceholder
    else if messageType == Some("audioMessage") then AudioPlaceholder
    else OtherPlaceholder
  }

  /** Content of a backfilled message: its text, else the placeholder for its type. */
  function HistoryContent(b: MessageBody, messageType: Option<string>): (r: string)
    ensures Present(BodyText(b)) ==> r == BodyText(b).value
    ensures !Present(BodyText(b)) ==> r == Placeholder(messageType)
    ensures Truthy(r)
  {
    OrElse(BodyText(b), Placeholder(messageType))
  }

  /** Both chains agree on every message that carries text. */
  lemma ContentChainsAgreeOnText(b: MessageBody, messageType: Option<string>)
    requires Present(BodyText(b))
    ensures WebhookContent(b) == HistoryContent(b, messageType)
  {
  }

  /** `Object.keys(message)[0]`: the name of the first property, if any. */
  function FirstKey(b: MessageBody): (r: Option<string>)
    ensures r.Some? <==> |b.keys| > 0
    ensures r.Some? ==> r.value == b.keys[0]
  {
    if |b.keys| == 0 then None else Some(b.keys[0])
  }

  // ---------------------------------------------------------------------
  // Webhook deliveries.

  datatype MessageKey = MessageKey(remoteJid: Option<string>, fromMe: bool, id: Option<string>)

  /** The `data` of a `messages.upsert` event; `messageTimestamp` is in epoch seconds. */
  datatype UpsertData = UpsertData(
    key: Option<MessageKey>,
    pushName: Option<string>,
    message: Option<MessageBody>,
    messageTimestamp: Option<int>)

  /** A webhook delivery: the event name, the instance name and the event data. */
  datatype Envelope = Envelope(event: Option<string>, instance: Option<string>, data: Option<UpsertData>)

  // ---------------------------------------------------------------------
  // Connection state.

  /** `{ state, status }` of a connection-state reply, at top level or under `instance`. */
  datatype StateData = StateData(state: Option<string>, status: Option<string>)
  datatype StateReply = StateReply(instance: Option<StateData>, top: StateData)

  /** `(data.instance || data).state || ….status`: the raw state token. */
  function StateToken(reply: StateReply): (r: Option<string>)
    ensures var d := if reply.instance.Some? then reply.instance.value else reply.top;
      r == (if Present(d.state) then d.state else d.status)
  {
    var d := reply.instance.GetOr(reply.top);
    Or(d.state, d.status)
  }

  /**
   * The Line status written for a token: a truthy `'open'` becomes Connected,
   * any other truthy token Disconnected, and a falsy token writes nothing.
   */
  function NormaliseState(token: Option<string>): (r: Option<LineStatus>)
    ensures r.Some? <==> Present(token)
    ensures r == Some(Connected) <==> token == Some("open")
  {
    if Present(token) then Some(if token.value == "open" then Connected else Disconnected) else None
  }

  /** Whether the token sends the caller down the "already connected" branch. */
  predicate TakesConnectedBranch(token: Option<string>) {
    token == Some("open") || token == Some("connected")
  }

  /** A raw `'connected'` token is stored as Disconnected yet is treated as connected. */
  lemma ConnectedTokenMismatch()
    ensures TakesConnectedBranch(Some("connected"))
    ensures NormaliseState(Some("connected")) == Some(Disconnected)
  {
  }

  /** Every token stored as Connected also takes the connected branch. */
  lemma StoredConnectedTakesBranch(token: Option<string>)
    ensures NormaliseState(token) == Some(Connected) ==> TakesConnectedBranch(token)
  {
  }

  // ---------------------------------------------------------------------
  // Owner resolution.

  datatype NestedInstance = NestedInstance(instanceName: Option<string>, ownerJid: Option<string>)

  /** One entry of a fetch-instances reply. */
  datatype InstanceInfo = InstanceInfo(
    instance: Option<NestedInstance>,
    instanceName: Option<string>,
    ownerJid: Option<string>,
    owner: Option<string>)

  predicate NamedInstance(i: InstanceInfo, name: string) {
    (i.instance.Some? && i.instance.value.instanceName == Some(name)) || i.instanceName == Some(name)
  }

  /** The entry for `name`, else the first entry, else nothing. */
  function ChooseInstance(instances: seq<InstanceInfo>, name: string): (r: Option<InstanceInfo>)
    ensures r.None? <==> instances == []
    ensures (exists i :: i in instances && NamedInstance(i, name)) ==>
      r.Some? && NamedInstance(r.value, name) &&
      exists k :: 0 <= k < |instances| && instances[k] == r.value && forall j :: 0 <= j < k ==> !NamedInstance(instances[j], name)
    ensures (forall i :: i in instances ==> !NamedInstance(i, name)) && instances != [] ==> r == Some(instances[0])
  {
    match Seqs.Find(instances, (i: InstanceInfo) => NamedInstance(i, name))
    case Some(i) => Some(i)
    case None => if instances == [] then None else Some(instances[0])
  }

  /** `ownerJid`, then `instance.ownerJid`, then `owner`. */
  function OwnerJid(chosen: Option<InstanceInfo>): (r: Option<string>)
    ensures chosen.None? ==> r.None?
    ensures chosen.Some? && Present(chosen.value.ownerJid) ==> r == chosen.value.ownerJid
    ensures chosen.Some? && !Present(chosen.value.ownerJid) ==>
      var n := chosen.value.instance;
      && (n.Some? && Present(n.value.ownerJid) ==> r == n.value.ownerJid)
      && (n.None? || !Present(n.value.ownerJid) ==> r == chosen.value.owner)
  {
    match chosen
    case None => None
    case Some(i) =>
      var nested := if i.instance.Some? then i.instance.value.ownerJid else None;
      Or(Or(i.ownerJid, nested), i.owner)
  }

  /** `ownerJid.split('@')[0]`: the phone number is the part before the first `@`. */
  function PhoneOf(jid: string): (r: string)
    ensures r <= jid && '@' !in r
    ensures |r| < |jid| ==> jid[|r|] == '@'
    ensures '@' !in jid ==> r == jid
  {
    BeforeFirst(jid, '@')
  }

  /** For a JID `user@server` whose user part has no `@`, the phone number is the user part. */
  lemma PhoneOfJid(user: string, server: string)
    requires '@' !in user
    ensures PhoneOf(user + "@" + server) == user
  {
    BeforeFirstOf(user, '@', server);
  }

  /** The phone number the Line gets: present exactly when an owner JID is truthy. */
  function ResolvedPhone(instances: seq<InstanceInfo>, name: string): (r: Option<string>)
    ensures r.Some? <==> Present(OwnerJid(ChooseInstance(instances, name)))
    ensures r.Some? ==> r.value == PhoneOf(OwnerJid(ChooseInstance(instances, name)).value)
  {
    var jid := OwnerJid(ChooseInstance(instances, name));
    if Present(jid) then Some(PhoneOf(jid.value)) else None
  }

  // ---------------------------------------------------------------------
  // Instance creation.

  datatype InstanceFields = InstanceFields(instanceId: Option<string>, id: Option<string>)

  /** A QR code as the gateway sends it: an object with `base64`, or a bare string. */
  datatype QrCode = QrObject(base64: Option<string>) | QrText(text: string)

  /**
   * A connect reply as the backend passes it on: a bare string, or an object
   * with `base64`, a `qrcode` and the connection `status`/`state`.
   */
  datatype ConnectReply =
    | ConnectText(text: string)
    | ConnectObject(base64: Option<string>, qrcode: Option<QrCode>, status: Option<string>, state: Option<string>)

  /** A create-instance reply: its `instance` object, its own top-level fields, `qrcode` and `base64`. */
  datatype CreateReply = CreateReply(
    instance: Option<InstanceFields>,
    top: InstanceFields,
    qrcode: Option<QrCode>,
    base64: Option<string>)

  /** A failure the backend treats as "the instance already exists". */
  predicate AlreadyExists(e: GatewayError) {
    e.status == Some(403) || (e.errorText.Some? && Contains(e.errorText.value, "already exists"))
  }

  /** The reply the backend continues with, or the failure it gives up on. */
  function CreateOrFallback(reply: Result<CreateReply, GatewayError>, instanceName: string): (r: Result<CreateReply, GatewayError>)
    ensures reply.Ok? ==> r == reply
    ensures reply.Err? && AlreadyExists(reply.error) ==>
      r == Ok(CreateReply(Some(InstanceFields(Some(instanceName), None)), InstanceFields(None, None), None, None))
    ensures reply.Err? && !AlreadyExists(reply.error) ==> r == reply
  {
    match reply
    case Ok(_) => reply
    case Err(e) =>
      if AlreadyExists(e) then
        Ok(CreateReply(Some(InstanceFields(Some(instanceName), None)), InstanceFields(None, None), None, None))
      else reply
  }

  /** `(reply.instance || reply)`, then `instanceId || id || instanceName`. */
  function RemoteId(reply: CreateReply, instanceName: string): (r: string)
    ensures var f := if reply.instance.Some? then reply.instance.value else reply.top;
      && (Present(f.instanceId) ==> r == f.instanceId.value)
      && (!Present(f.instanceId) && Present(f.id) ==> r == f.id.value)
      && (!Present(f.instanceId) && !Present(f.id) ==> r == instanceName)
  {
    var f := reply.instance.GetOr(reply.top);
    OrElse(Or(f.instanceId, f.id), instanceName)
  }

  /** In the "already exists" fallback the remote id is the instance name itself. */
  lemma FallbackRemoteId(e: GatewayError, instanceName: string)
    requires AlreadyExists(e)
    ensures CreateOrFallback(Err(e), instanceName).Ok?
    ensures RemoteId(CreateOrFallback(Err(e), instanceName).value, instanceName) == instanceName
  {
  }

  /** A QR code is truthy unless it is absent or the empty string. */
  predicate QrTruthy(q: Option<QrCode>) {
    q.Some? && (q.value.QrText? ==> q.value.text != "")
  }

  /** `reply.qrcode || reply.base64`: a falsy `qrcode` gives way to `base64`, whatever that holds. */
  function CreatedQr(reply: CreateReply): (r: Option<QrCode>)
    ensures QrTruthy(reply.qrcode) ==> r == reply.qrcode
    ensures !QrTruthy(reply.qrcode) ==> (r.Some? <==> reply.base64.Some?)
    ensures !QrTruthy(reply.qrcode) && reply.base64.Some? ==> r == Some(QrText(reply.base64.value))
  {
    if QrTruthy(reply.qrcode) then reply.qrcode
    else if reply.base64.Some? then Some(QrText(reply.base64.value))
    else None
  }

  // ---------------------------------------------------------------------
  // Webhook registration.

  /** The three registration requests: nested payload on `/webhook/set`, flat payload there, nested on `/webhook/instance`. */
  datatype WebhookAttempt = SetNested | SetFlat | InstanceNested

  predicate NotFound(e: GatewayError) {
    e.status == Some(404)
  }

  /**
   * The requests made, in order, and the outcome, given each request's reply
   * (a reply is consulted only if its request is made).
   */
  function ConfigureWebhook(nested: Result<(), GatewayError>, flat: Result<(), GatewayError>,
                            alternative: Result<(), GatewayError>): (r: (seq<WebhookAttempt>, Result<(), GatewayError>))
    ensures 1 <= |r.0| <= 3 && r.0 == [SetNested, SetFlat, InstanceNested][..|r.0|]
    ensures |r.0| == 1 <==> nested.Ok?
    ensures InstanceNested in r.0 <==>
      nested.Err? && flat.Err? && (NotFound(nested.error) || NotFound(flat.error))
    ensures r.1.Ok? <==> nested.Ok? || flat.Ok? || (InstanceNested in r.0 && alternative.Ok?)
    ensures r.1.Err? && InstanceNested !in r.0 ==> r.1 == flat
    ensures InstanceNested in r.0 ==> r.1 == alternative
  {
    if nested.Ok? then ([SetNested], Ok(()))
    else if flat.Ok? then ([SetNested, SetFlat], Ok(()))
    else if NotFound(nested.error) || NotFound(flat.error) then ([SetNested, SetFlat, InstanceNested], alternative)
    else ([SetNested, SetFlat], flat)
  }

  // ---------------------------------------------------------------------
  // History backfill.

  const DefaultLimit := 100
  const DefaultDaysBack := 30
  const DayMs := 24 * 60 * 60 * 1000

  /** `options?.limit || 100`: absent or zero means the default. */
  function EffectiveLimit(limit: Option<nat>): (r: nat)
    ensures r > 0
    ensures limit.Some? && limit.value > 0 ==> r == limit.value
    ensures limit.None? || limit == Some(0) ==> r == DefaultLimit
  {
    if limit.Some? && limit.value != 0 then limit.value else DefaultLimit
  }

  /** `options?.daysBack || 30`. */
  function EffectiveDaysBack(daysBack: Option<nat>): (r: nat)
    ensures r > 0
    ensures daysBack.Some? && daysBack.value > 0 ==> r == daysBack.value
    ensures daysBack.None? || daysBack == Some(0) ==> r == DefaultDaysBack
  {
    if daysBack.Some? && daysBack.value != 0 then daysBack.value else DefaultDaysBack
  }

  /** The oldest epoch second still imported: `floor((now − daysBack days) / 1000)`. */
  function Threshold(nowMs: int, daysBack: nat): (r: int)
    ensures r * 1000 <= nowMs - daysBack * DayMs < r * 1000 + 1000
  {
    (nowMs - daysBack * DayMs) / 1000
  }

  /** Widening the window never raises the threshold. */
  lemma ThresholdMonotone(nowMs: int, d1: nat, d2: nat)
    requires d1 <= d2
    ensures Threshold(nowMs, d2) <= Threshold(nowMs, d1)
  {
    assert Threshold(nowMs, d2) * 1000 <= nowMs - d1 * DayMs;
  }

  /** A contact of the address book. */
  datatype Contact = Contact(id: Option<string>, name: Option<string>, pushName: Option<string>)

  /** `name || pushName || id`, for a contact with a truthy id. */
  function ContactDisplayName(c: Contact): (r: string)
    requires Present(c.id)
    ensures Truthy(r)
    ensures r == if Present(c.name) then c.name.value else if Present(c.pushName) then c.pushName.value else c.id.value
  {
    OrElse(Or(c.name, c.pushName), c.id.value)
  }

  datatype HistoryKey = HistoryKey(id: Option<string>, fromMe: bool)

  /** A message of a chat history, as the find-messages call returns it. */
  datatype HistoryMessage = HistoryMessage(
    message: Option<MessageBody>,
    key: Option<HistoryKey>,
    messageTimestamp: Option<int>,
    messageType: Option<string>,
    status: Option<string>)

  /** `msg.key?.id`. */
  function HistoryId(m: HistoryMessage): Option<string> {
    if m.key.Some? then m.key.value.id else None
  }

  /** `msg.messageTimestamp || 0`. */
  function HistorySeconds(m: HistoryMessage): int {
    m.messageTimestamp.GetOr(0)
  }

  /** The message row the backfill creates for `m` in conversation `conversationId`. */
  function HistoryDraft(m: HistoryMessage, conversationId: nat, nowMs: int): (d: MessageDraft)
    requires Present(HistoryId(m))
    ensures d.evolutionId == HistoryId(m).value && d.conversationId == conversationId
    ensures Truthy(d.content)
    ensures d.messageType == Some(OrElse(m.messageType, "text"))
    ensures d.status == OrElse(m.status, "DELIVERED")
    ensures d.direction == Sent <==> m.key.Some? && m.key.value.fromMe
    ensures d.timestamp.Some?
    ensures HistorySeconds(m) != 0 ==> d.timestamp == Some(HistorySeconds(m) * 1000)
    ensures HistorySeconds(m) == 0 ==> d.timestamp == Some(nowMs)
  {
    var body := m.message.GetOr(EmptyBody);
    var fromMe := m.key.Some? && m.key.value.fromMe;
    var secs := HistorySeconds(m);
    MessageDraft(
      HistoryId(m).value,
      conversationId,
      HistoryContent(body, m.messageType),
      Some(OrElse(m.messageType, "text")),
      if fromMe then Sent else Received,
      OrElse(m.status, "DELIVERED"),
      Some(if secs != 0 then secs * 1000 else nowMs))
  }

  /** A message is imported only with a truthy id and a timestamp at or after the threshold. */
  predicate Importable(m: HistoryMessage, threshold: int) {
    Present(HistoryId(m)) && HistorySeconds(m) >= threshold
  }
}
