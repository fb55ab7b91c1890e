// The management page: the operator search, the Line shown for an operator,
// the calls "create user" makes, and what the QR dialog shows for the reply
// of `GET lines/:id/qrcode`.
module ManagementPage {
  import opened Wrappers
  import opened Text
  import opened Seqs
  import opened ApiTypes
  import UsersService
  import Gateway
  import Schema
  import LinesService

  /** An operator row as the page lists it. */
  datatype ManagedOperator = ManagedOperator(id: string, name: string, email: string, lines: Option<seq<LineRef>>)

  predicate NameOrEmailMatches(op: ManagedOperator, term: string) {
    Contains(Lower(op.name), Lower(term)) || Contains(Lower(op.email), Lower(term))
  }

  /** `filteredOperators`: case-insensitive search on name and e-mail only. */
  function FilteredOperators(ops: seq<ManagedOperator>, term: string): (r: seq<ManagedOperator>)
    ensures forall op :: op in r <==> op in ops && NameOrEmailMatches(op, term)
  {
    Filter(ops, (op: ManagedOperator) => NameOrEmailMatches(op, term))
  }

  /** The search keeps the operators' order, and an empty search keeps them all. */
  lemma SearchKeepsOrder(ops: seq<ManagedOperator>, term: string)
    ensures SubsequenceOf(FilteredOperators(ops, term), ops)
    ensures FilteredOperators(ops, "") == ops
  {
    FilterIsSubsequence(ops, (op: ManagedOperator) => NameOrEmailMatches(op, term));
    forall op | op in ops ensures NameOrEmailMatches(op, "") {
      assert Lower("") == "";
      ContainsEmptyAndSelf(Lower(op.name));
    }
    FilterAll(ops, (op: ManagedOperator) => NameOrEmailMatches(op, ""));
  }

  // ---------------------------------------------------------------------
  // The Line shown for an operator.

  /** `!!lines.find(connected)`. */
  function IsConnected(ls: seq<LineRef>): (b: bool)
    ensures b <==> exists l :: l in ls && IsConnectedRef(l)
  {
    Find(ls, IsConnectedRef).Some?
  }

  /** The badge and the Line agree: connected exactly when the Line shown is a connected one. */
  lemma BadgeMatchesLine(ls: seq<LineRef>)
    ensures IsConnected(ls) <==> ActiveLine(ls).Some? && IsConnectedRef(ActiveLine(ls).value)
  {
  }

  // ---------------------------------------------------------------------
  // Creating a user.

  /** The form of the "new user" dialog; `createLine` is absent unless set. */
  datatype UserForm = UserForm(name: string, email: string, role: string, wallet: string, password: string, createLine: Option<bool>)

  /** A request the page sends. */
  datatype ApiCall =
    | CreateUserCall(name: string, email: string, role: string, wallet: string, password: string)
    | CreateLineCall(operatorId: string, instanceName: string)

  /** `user-` and the first eight characters of the new account's id. */
  function InstanceNameFor(userId: string): (r: string)
    ensures StartsWith(r, "user-") && |r| <= 13
    ensures r[5..] <= userId
    ensures |userId| <= 8 ==> r == "user-" + userId
    ensures |userId| > 8 ==> r == "user-" + userId[..8]
  {
    "user-" + Take(userId, 8)
  }

  /**
   * `handleCreateUser`: the requests it sends, given the id the creation
   * returned or its failure. A back-office account without a password is
   * stopped before any request.
   */
  function CreateUserCalls(form: UserForm, created: Result<string, string>): (calls: seq<ApiCall>)
    ensures calls == [] <==> form.role == "digital" && form.password == ""
    ensures calls != [] ==> calls[0] == CreateUserCall(form.name, form.email, form.role, form.wallet, form.password)
    ensures |calls| <= 2
    ensures |calls| == 2 <==>
      calls != [] && form.role == "operador" && form.createLine != Some(false) && created.Ok?
    ensures |calls| == 2 ==> calls[1] == CreateLineCall(created.value, InstanceNameFor(created.value))
  {
    if form.role == "digital" && form.password == "" then []
    else
      var user := CreateUserCall(form.name, form.email, form.role, form.wallet, form.password);
      if form.role == "operador" && form.createLine != Some(false) && created.Ok? then
        [user, CreateLineCall(created.value, InstanceNameFor(created.value))]
      else [user]
  }

  /** The role the backend stores for the role text the form sends. */
  function RoleOf(role: string): UsersService.Role {
    if role == "digital" then UsersService.Digital else UsersService.Operador
  }

  /**
   * A back-office account created from this page always carries its own
   * password: the default one is only for accounts created elsewhere.
   */
  lemma PageDigitalAccountsGetTheirPassword(form: UserForm, created: Result<string, string>, hash: string -> string)
    requires form.role == "digital" && CreateUserCalls(form, created) != []
    ensures var call := CreateUserCalls(form, created)[0];
      UsersService.StoredPassword(Some(call.password), RoleOf(call.role), hash) == Some(hash(form.password))
  {
  }

  // ---------------------------------------------------------------------
  // The QR dialog.

  /** What the dialog holds: the QR image, the connected flag and the error text. */
  datatype QrView = QrView(qrCode: Option<string>, connected: bool, error: string)

  const QrUnavailable := "QR Code n\U{E3}o dispon\U{ED}vel (Verifique se j\U{E1} est\U{E1} conectado)"
  const QrLoadFailed := "Erro ao carregar QR Code"

  /** `data.base64 || data.qrcode?.base64 || (data if it is a string starting with 'data:')`. */
  function QrFrom(reply: Gateway.ConnectReply): (code: Option<string>)
    ensures code.Some? ==> Truthy(code.value)
    ensures reply.ConnectText? ==> (code.Some? <==> StartsWith(reply.text, "data:"))
    ensures reply.ConnectText? && code.Some? ==> code.value == reply.text
    ensures reply.ConnectObject? && Present(reply.base64) ==> code == reply.base64
  {
    match reply
    case ConnectText(text) => if StartsWith(text, "data:") then Some(text) else None
    case ConnectObject(base64, qrcode, _, _) =>
      if Present(base64) then base64
      else if qrcode.Some? && qrcode.value.QrObject? && Present(qrcode.value.base64) then qrcode.value.base64
      else None
  }

  /** `status === 'open' || state === 'open' || status === 'connected'`. */
  predicate SaysConnected(reply: Gateway.ConnectReply) {
    reply.ConnectObject? && (reply.status == Some("open") || reply.state == Some("open") || reply.status == Some("connected"))
  }

  /**
   * `fetchQR`: the error is cleared first; a code is shown as not yet
   * connected; without one the dialog shows connected or the "unavailable"
   * text; a failed request leaves image and flag and reports only when not
   * silent.
   */
  function FetchQr(s: QrView, reply: Result<Gateway.ConnectReply, Gateway.GatewayError>, silent: bool): (r: QrView)
    ensures reply.Ok? && QrFrom(reply.value).Some? ==> r == QrView(QrFrom(reply.value), false, "")
    ensures reply.Ok? && QrFrom(reply.value).None? && SaysConnected(reply.value) ==> r == QrView(None, true, "")
    ensures reply.Ok? && QrFrom(reply.value).None? && !SaysConnected(reply.value) ==>
      r == s.(error := QrUnavailable)
    ensures reply.Err? ==> (r.qrCode == s.qrCode && r.connected == s.connected
      && r.error == (if silent then "" else QrLoadFailed))
  {
    var cleared := s.(error := "");
    match reply
    case Err(_) => if silent then cleared else cleared.(error := QrLoadFailed)
    case Ok(data) =>
      match QrFrom(data)
      case Some(code) => cleared.(qrCode := Some(code), connected := false)
      case None =>
        if SaysConnected(data) then cleared.(qrCode := None, connected := true, error := "")
        else cleared.(error := QrUnavailable)
  }

  /**
   * When the backend finds the instance connected, the dialog shows it as
   * connected, with no image and no error, whatever it showed before.
   */
  lemma ConnectedInstanceShowsConnected(s: QrView, t: Schema.Tables, instanceName: string,
                                        state: Result<Gateway.StateReply, Gateway.GatewayError>,
                                        info: Result<seq<Gateway.InstanceInfo>, Gateway.GatewayError>,
                                        connect: Result<Gateway.ConnectReply, Gateway.GatewayError>, silent: bool)
    requires state.Ok? && Gateway.TakesConnectedBranch(Gateway.StateToken(state.value))
    ensures FetchQr(s, LinesService.GetQrCodeEffect(t, instanceName, state, info, connect).result, silent) == QrView(None, true, "")
  {
    LinesService.GetQrCodeAnswer(t, instanceName, state, info, connect);
  }

  /**
   * Otherwise the dialog shows the connect reply's code when it carries one,
   * so a QR image never appears next to the connected flag.
   */
  lemma DisconnectedInstanceShowsCode(s: QrView, t: Schema.Tables, instanceName: string,
                                      state: Result<Gateway.StateReply, Gateway.GatewayError>,
                                      info: Result<seq<Gateway.InstanceInfo>, Gateway.GatewayError>,
                                      connect: Result<Gateway.ConnectReply, Gateway.GatewayError>, silent: bool)
    requires !(state.Ok? && Gateway.TakesConnectedBranch(Gateway.StateToken(state.value)))
    requires connect.Ok? && QrFrom(connect.value).Some?
    ensures var r := FetchQr(s, LinesService.GetQrCodeEffect(t, instanceName, state, info, connect).result, silent);
      r.qrCode == QrFrom(connect.value) && !r.connected && r.error == ""
  {
    LinesService.GetQrCodeAnswer(t, instanceName, state, info, connect);
  }
}
