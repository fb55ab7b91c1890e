// User accounts: which password hash is stored on create and on update, and
// the table calls the authentication service relies on. The hash is a
// parameter: bcrypt's salt makes it a value the model cannot compute.
module UsersService {
  import opened Wrappers
  import Text

  /** The two roles of the platform. */
  datatype Role = Operador | Digital

  datatype User = User(
    id: string,
    email: string,
    name: string,
    role: Role,
    wallet: Option<string>,
    password: Option<string>)

  /** The creation request: the account fields and an optional plain-text password. */
  datatype NewUser = NewUser(email: string, name: string, role: Role, wallet: Option<string>, password: Option<string>)

  /** An update request; an absent field leaves the stored value as it is. */
  datatype UserPatch = UserPatch(
    email: Option<string>,
    name: Option<string>,
    role: Option<Role>,
    wallet: Option<string>,
    password: Option<string>)

  datatype UserError = EmailTaken | IdTaken | UserNotFound

  predicate IsOperator(u: User) { u.role == Operador }

  /** The password assumed for a back-office account created without one. */
  const DefaultDigitalPassword := "Mudar123"

  /** The hash stored for a new account. */
  function StoredPassword(password: Option<string>, role: Role, hash: string -> string): (r: Option<string>)
    ensures Text.Present(password) ==> r == Some(hash(password.value))
    ensures !Text.Present(password) && role == Digital ==> r == Some(hash(DefaultDigitalPassword))
    ensures r.None? <==> !Text.Present(password) && role == Operador
  {
    if Text.Present(password) then Some(hash(password.value))
    else match role
      case Digital => Some(hash(DefaultDigitalPassword))
      case Operador => None
  }

  function UserWithEmail(users: seq<User>, email: string): (r: Option<User>)
    ensures r.Some? ==> r.value in users && r.value.email == email
    ensures r.None? <==> forall u :: u in users ==> u.email != email
  {
    if users == [] then None
    else if users[0].email == email then Some(users[0])
    else UserWithEmail(users[1..], email)
  }

  function IndexOfUser(users: seq<User>, id: string): (r: Option<nat>)
    ensures r.Some? ==> r.value < |users| && users[r.value].id == id
    ensures r.None? <==> forall u :: u in users ==> u.id != id
  {
    if users == [] then None
    else if users[0].id == id then Some(0)
    else match IndexOfUser(users[1..], id)
      case None => None
      case Some(k) => Some(k + 1)
  }

  ghost predicate UniqueEmails(users: seq<User>) {
    forall i, j :: 0 <= i < j < |users| ==> users[i].email != users[j].email
  }

  ghost predicate UniqueUserIds(users: seq<User>) {
    forall i, j :: 0 <= i < j < |users| ==> users[i].id != users[j].id
  }

  /** `users.create`: the new account gets `id` (generated by the database). */
  function CreateUser(users: seq<User>, input: NewUser, id: string, hash: string -> string): (r: (seq<User>, Result<User, UserError>))
    ensures r.1 == Err(EmailTaken) <==> exists u :: u in users && u.email == input.email
    ensures r.1.Err? <==> exists u :: u in users && (u.email == input.email || u.id == id)
    ensures r.1.Err? ==> r.0 == users
    ensures r.1.Ok? ==> r.0 == users + [r.1.value]
    ensures r.1.Ok? ==> var u := r.1.value;
      && u.id == id && u.email == input.email && u.name == input.name
      && u.role == input.role && u.wallet == input.wallet
      && u.password == StoredPassword(input.password, input.role, hash)
    ensures UniqueEmails(users) ==> UniqueEmails(r.0)
    ensures UniqueUserIds(users) ==> UniqueUserIds(r.0)
  {
    if UserWithEmail(users, input.email).Some? then (users, Err(EmailTaken))
    else if IndexOfUser(users, id).Some? then (users, Err(IdTaken))
    else
      var u := User(id, input.email, input.name, input.role, input.wallet,
                    StoredPassword(input.password, input.role, hash));
      (users + [u], Ok(u))
  }

  function Patched(u: User, patch: UserPatch, hash: string -> string): (r: User)
    ensures r.id == u.id
    ensures r.password == (if Text.Present(patch.password) then Some(hash(patch.password.value)) else u.password)
    ensures r.email == patch.email.GetOr(u.email) && r.name == patch.name.GetOr(u.name)
    ensures r.role == patch.role.GetOr(u.role) && r.wallet == (if patch.wallet.Some? then patch.wallet else u.wallet)
  {
    User(u.id, patch.email.GetOr(u.email), patch.name.GetOr(u.name), patch.role.GetOr(u.role),
         if patch.wallet.Some? then patch.wallet else u.wallet,
         if Text.Present(patch.password) then Some(hash(patch.password.value)) else u.password)
  }

  /** `users.update`: a supplied password is hashed; an empty one is ignored. */
  function UpdateUser(users: seq<User>, id: string, patch: UserPatch, hash: string -> string): (r: (seq<User>, Result<User, UserError>))
    ensures IndexOfUser(users, id).None? ==> r == (users, Err(UserNotFound))
    ensures IndexOfUser(users, id).Some? ==>
      var k := IndexOfUser(users, id).value;
      var u := Patched(users[k], patch, hash);
      && (r.1.Err? ==> r.1 == Err(EmailTaken))
      && (r.1.Err? <==> exists j :: 0 <= j < |users| && j != k && users[j].email == u.email)
    ensures r.1.Ok? ==> var k := IndexOfUser(users, id).value;
      r.0 == users[k := r.1.value] && r.1.value == Patched(users[k], patch, hash)
    ensures r.1.Err? ==> r.0 == users
    ensures UniqueEmails(users) ==> UniqueEmails(r.0)
    ensures UniqueUserIds(users) ==> UniqueUserIds(r.0)
  {
    match IndexOfUser(users, id)
    case None => (users, Err(UserNotFound))
    case Some(k) =>
      var u := Patched(users[k], patch, hash);
      if exists j :: 0 <= j < |users| && j != k && users[j].email == u.email then (users, Err(EmailTaken))
      else (users[k := u], Ok(u))
  }

  /** `users.remove`. */
  function RemoveUser(users: seq<User>, id: string): (r: (seq<User>, Result<User, UserError>))
    ensures r.1.Err? <==> forall u :: u in users ==> u.id != id
    ensures r.1.Err? ==> r.0 == users
    ensures r.1.Ok? ==> var k := IndexOfUser(users, id).value;
      r.1.value == users[k] && r.0 == users[..k] + users[k + 1..]
    ensures UniqueUserIds(users) ==> forall u :: u in r.0 ==> u.id != id
  {
    match IndexOfUser(users, id)
    case None => (users, Err(UserNotFound))
    case Some(k) =>
      var rest := users[..k] + users[k + 1..];
      assert UniqueUserIds(users) ==> forall u :: u in rest ==> u.id != id by {
        if UniqueUserIds(users) {
          forall u | u in rest ensures u.id != id {
            var j :| 0 <= j < |rest| && rest[j] == u;
            if j < k { assert users[j] == u; } else { assert users[j + 1] == u; }
          }
        }
      }
      (rest, Ok(users[k]))
  }

  /** Once created, the account is what `findByEmail` returns for its address. */
  lemma CreatedUserFound(users: seq<User>, input: NewUser, id: string, hash: string -> string)
    requires CreateUser(users, input, id, hash).1.Ok?
    ensures UserWithEmail(CreateUser(users, input, id, hash).0, input.email) == Some(CreateUser(users, input, id, hash).1.value)
  {
    var r := CreateUser(users, input, id, hash);
    UserWithEmailAppend(users, r.1.value);
  }

  lemma {:induction false} UserWithEmailAppend(users: seq<User>, u: User)
    requires forall v :: v in users ==> v.email != u.email
    ensures UserWithEmail(users + [u], u.email) == Some(u)
  {
    if users == [] {
    } else {
      assert (users + [u])[1..] == users[1..] + [u];
      UserWithEmailAppend(users[1..], u);
    }
  }

  // ---------------------------------------------------------------------
  // The users table.

  class UserTable {
    var users: seq<User>

    ghost predicate Valid()
      reads this
    {
      UniqueEmails(users) && UniqueUserIds(users)
    }

    constructor()
      ensures users == [] && Valid()
    {
      users := [];
    }

    method Create(input: NewUser, id: string, hash: string -> string) returns (r: Result<User, UserError>)
      modifies this
      ensures (users, r) == CreateUser(old(users), input, id, hash)
      ensures old(Valid()) ==> Valid()
    {
      var w := CreateUser(users, input, id, hash);
      users := w.0;
      r := w.1;
    }

    method FindByEmail(email: string) returns (r: Option<User>)
      ensures r == UserWithEmail(users, email)
      ensures r.Some? ==> r.value in users && r.value.email == email
    {
      r := UserWithEmail(users, email);
    }

    method Update(id: string, patch: UserPatch, hash: string -> string) returns (r: Result<User, UserError>)
      modifies this
      ensures (users, r) == UpdateUser(old(users), id, patch, hash)
      ensures old(Valid()) ==> Valid()
    {
      var w := UpdateUser(users, id, patch, hash);
      users := w.0;
      r := w.1;
    }

    method Remove(id: string) returns (r: Result<User, UserError>)
      modifies this
      ensures (users, r) == RemoveUser(old(users), id)
      ensures old(Valid()) ==> Valid()
    {
      var w := RemoveUser(users, id);
      users := w.0;
      r := w.1;
    }
  }
}
