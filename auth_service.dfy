// Login: when a credential check yields no user, when it is refused, and what
// a successful login hands back. bcrypt's comparison and the JWT signature
// are parameters.
module AuthService {
  import opened Wrappers
  import Text
  import opened UsersService

  /** The account as returned to the client: everything but the password hash. */
  datatype PublicUser = PublicUser(id: string, email: string, name: string, role: Role, wallet: Option<string>)

  /** Valid credentials of an account that may not use the platform. */
  datatype AuthError = Unauthorized

  datatype Payload = Payload(email: string, sub: string, role: Role, name: string)

  datatype Session = Session(accessToken: string, user: Payload)

  function WithoutPassword(u: User): (r: PublicUser)
    ensures r.id == u.id && r.email == u.email && r.name == u.name && r.role == u.role && r.wallet == u.wallet
  {
    PublicUser(u.id, u.email, u.name, u.role, u.wallet)
  }

  /**
   * `validateUser`: `None` stands for the null result; only back-office
   * (`Digital`) accounts get through, others are refused after the password
   * matched.
   */
  function ValidateUser(users: seq<User>, email: string, pass: string, compare: (string, string) -> bool)
    : (r: Result<Option<PublicUser>, AuthError>)
    ensures r == Ok(None) <==>
      match UserWithEmail(users, email)
      case None => true
      case Some(u) => !Text.Present(u.password) || !compare(pass, u.password.value)
    ensures r.Err? <==>
      exists u :: UserWithEmail(users, email) == Some(u) && Text.Present(u.password)
        && compare(pass, u.password.value) && u.role != Digital
    ensures r.Ok? && r.value.Some? ==>
      exists u :: UserWithEmail(users, email) == Some(u) && r.value.value == WithoutPassword(u)
        && Text.Present(u.password) && compare(pass, u.password.value) && u.role == Digital
  {
    match UserWithEmail(users, email)
    case None => Ok(None)
    case Some(u) =>
      if Text.Present(u.password) && compare(pass, u.password.value) then
        if u.role != Digital then Err(Unauthorized) else Ok(Some(WithoutPassword(u)))
      else Ok(None)
  }

  /** `login`: the token signs exactly the payload that is returned. */
  function Login(u: PublicUser, sign: Payload -> string): (r: Session)
    ensures r.user.email == u.email && r.user.sub == u.id && r.user.role == u.role && r.user.name == u.name
    ensures r.accessToken == sign(r.user)
  {
    var payload := Payload(u.email, u.id, u.role, u.name);
    Session(sign(payload), payload)
  }

  /**
   * An operator account created without a password never logs in: with any
   * password and any comparison, validation yields null.
   */
  lemma OperatorWithoutPasswordNeverValidates(users: seq<User>, input: NewUser, id: string,
                                              hash: string -> string, pass: string, compare: (string, string) -> bool)
    requires input.role == Operador && !Text.Present(input.password)
    requires CreateUser(users, input, id, hash).1.Ok?
    ensures ValidateUser(CreateUser(users, input, id, hash).0, input.email, pass, compare) == Ok(None)
  {
    CreatedUserFound(users, input, id, hash);
  }
}
