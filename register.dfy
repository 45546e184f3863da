/** Account registration: the request is validated, the email must not be
    taken, and a CUSTOMER account is created with a hashed password.  The
    email format check and the password hash of the libraries are the
    parameters `isEmail` and `hash`. */
module RegisterRoute {
  import opened Common
  import opened Store
  import opened Schema
  import opened Http
  import Auth

  /** The JSON body.  `role` stands for any key the schema does not
      declare: it is accepted and dropped. */
  datatype RegisterBody = RegisterBody(email: Option<string>, password: Option<string>,
                                       name: Option<string>, role: Option<string>)

  const InvalidEmail := "Neplatný email"
  const ShortPassword := "Heslo musí mít alespoň 8 znaků"
  const ShortName := "Jméno musí mít alespoň 2 znaky"
  const EmailTaken := "Uživatel s tímto emailem již existuje"
  const RegisteredMessage := "Registrace úspěšná"
  const RegistrationFailed := "Došlo k chybě při registraci"

  /** The body satisfies the registration schema. */
  predicate Accepted(b: RegisterBody, isEmail: string -> bool)
  {
    && b.email.Some? && isEmail(b.email.value)
    && b.password.Some? && |b.password.value| >= 8
    && b.name.Some? && |b.name.value| >= 2
  }

  /** The issues the registration schema reports, in field order. */
  function RegisterIssues(b: RegisterBody, isEmail: string -> bool): (r: seq<Issue>)
    ensures r == [] <==> Accepted(b, isEmail)
    ensures b.email.None? ==> r[0] == Issue("email", Required)
    ensures b.email.Some? && !isEmail(b.email.value) ==> r[0] == Issue("email", InvalidEmail)
    ensures b.email.Some? && isEmail(b.email.value) && b.password.Some? && |b.password.value| < 8 ==>
              r[0] == Issue("password", ShortPassword)
    ensures b.email.Some? && isEmail(b.email.value) && b.password.Some? && |b.password.value| >= 8 &&
            b.name.Some? && |b.name.value| < 2 ==>
              r[0] == Issue("name", ShortName)
  {
    CheckString("email", b.email, isEmail, InvalidEmail)
    + CheckMinLength("password", b.password, 8, ShortPassword)
    + CheckMinLength("name", b.name, 2, ShortName)
  }

  /** The row registration inserts. */
  function NewCustomer(id: UserId, b: RegisterBody, isEmail: string -> bool, hash: string -> string): User
    requires Accepted(b, isEmail)
  {
    User(id, b.email.value, Some(hash(b.password.value)), Some(b.name.value), CUSTOMER, None)
  }

  /** POST /api/auth/register. */
  method Post(db: Db, body: Body<RegisterBody>, isEmail: string -> bool, hash: string -> string,
              newId: UserId) returns (resp: Response)
    requires db.Valid()
    modifies db`users
    ensures db.Valid()
    ensures resp.status != 201 ==> db.users == old(db.users)
    ensures body.Unparseable? ==> resp == Response(500, Error(RegistrationFailed))
    ensures body.Json? && !Accepted(body.value, isEmail) ==>
              var issues := RegisterIssues(body.value, isEmail);
              resp == Response(400, ErrorDetails(issues[0].message, issues))
    ensures body.Json? && Accepted(body.value, isEmail) &&
            FindUserByEmail(old(db.users), body.value.email.value).Some? ==>
              resp == Response(409, Error(EmailTaken))
    ensures body.Json? && Accepted(body.value, isEmail) &&
            FindUserByEmail(old(db.users), body.value.email.value).None? ==>
              && db.users == old(db.users) + [NewCustomer(newId, body.value, isEmail, hash)]
              && resp == Response(201, Registered(PublicUser(newId, body.value.email.value,
                                                             Some(body.value.name.value), CUSTOMER),
                                                  RegisteredMessage))
  {
    if body.Unparseable? {
      return Response(500, Error(RegistrationFailed));
    }
    var b := body.value;
    var issues := RegisterIssues(b, isEmail);
    if issues != [] {
      return Response(400, ErrorDetails(issues[0].message, issues));
    }
    var existing := FindUserByEmail(db.users, b.email.value);
    if existing.Some? {
      return Response(409, Error(EmailTaken));
    }
    var user := NewCustomer(newId, b, isEmail, hash);
    db.CreateUser(user);
    resp := Response(201, Registered(PublicUser(user.id, user.email, user.name, user.role),
                                     RegisteredMessage));
  }

  /** Appending a row that matches, after rows that do not, makes it the
      row found. */
  lemma {:induction false} FindAfterAppend<T>(s: seq<T>, x: T, p: T -> bool)
    requires Find(s, p).None? && p(x)
    ensures Find(s + [x], p) == Some(x)
  {
    forall j | 0 <= j < |s|
      ensures !p((s + [x])[j])
    {
      assert (s + [x])[j] == s[j];
    }
    assert (s + [x])[|s|] == x;
  }

  /** A registered account can sign in with the password it registered:
      given a non-empty hash that the password check accepts for its own input,
      `authorize` then returns the new CUSTOMER with the registered email and
      name. */
  lemma RegisterThenSignIn(users: seq<User>, b: RegisterBody, isEmail: string -> bool,
                           hash: string -> string, verify: (string, string) -> bool, id: UserId)
    requires Accepted(b, isEmail) && b.email.value != ""
    requires FindUserByEmail(users, b.email.value).None?
    requires hash(b.password.value) != "" && verify(b.password.value, hash(b.password.value))
    ensures Auth.Authorize(Some(Auth.Credentials(b.email, b.password)),
                           users + [NewCustomer(id, b, isEmail, hash)], verify)
            == Auth.Authorized(Auth.AuthUser(id, b.email.value, Some(b.name.value), CUSTOMER, None))
  {
    var u := NewCustomer(id, b, isEmail, hash);
    FindAfterAppend(users, u, (v: User) => v.email == b.email.value);
  }

  /** After a registration, the same email is taken: a second registration
      with it is answered 409. */
  lemma RegisteredEmailTaken(users: seq<User>, b: RegisterBody, isEmail: string -> bool,
                             hash: string -> string, id: UserId)
    requires Accepted(b, isEmail)
    ensures FindUserByEmail(users + [NewCustomer(id, b, isEmail, hash)], b.email.value).Some?
  {
    var s := users + [NewCustomer(id, b, isEmail, hash)];
    assert s[|users|].email == b.email.value;
  }
}
