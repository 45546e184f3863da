/** Sign-in with email and password, and the claims the session token
    carries.  The password check of the hashing library is the parameter
    `verify(plain, hash)`. */
module Auth {
  import opened Common
  import opened Store

  /** The submitted form; a field that is missing or empty is falsy. */
  datatype Credentials = Credentials(email: Option<string>, password: Option<string>)

  /** What a successful sign-in hands to the session layer. */
  datatype AuthUser = AuthUser(id: UserId, email: string, name: Option<string>, role: Role,
                               image: Option<string>)

  datatype AuthResult = Authorized(user: AuthUser) | Rejected(message: string)

  const MissingCredentials := "Email a heslo jsou povinné"
  const InvalidCredentials := "Neplatné přihlašovací údaje"

  predicate Present(v: Option<string>)
  {
    v.Some? && v.value != ""
  }

  predicate Submitted(creds: Option<Credentials>)
  {
    creds.Some? && Present(creds.value.email) && Present(creds.value.password)
  }

  function ClaimsOf(u: User): AuthUser
  {
    AuthUser(u.id, u.email, u.name, u.role, u.image)
  }

  /** The `authorize` callback of the credentials provider. */
  function Authorize(creds: Option<Credentials>, users: seq<User>,
                     verify: (string, string) -> bool): (r: AuthResult)
    ensures !Submitted(creds) ==> r == Rejected(MissingCredentials)
    ensures Submitted(creds) && FindUserByEmail(users, creds.value.email.value).None? ==>
              r == Rejected(InvalidCredentials)
    ensures r.Rejected? ==> r.message == MissingCredentials || r.message == InvalidCredentials
    ensures Submitted(creds) && r.Rejected? ==> r.message == InvalidCredentials
    ensures r.Authorized? <==>
              Submitted(creds) &&
              exists u :: u in users && u.email == creds.value.email.value && Present(u.password) &&
                          verify(creds.value.password.value, u.password.value) &&
                          FindUserByEmail(users, u.email) == Some(u)
    ensures r.Authorized? ==> FindUserByEmail(users, creds.value.email.value).Some? &&
                              r.user == ClaimsOf(FindUserByEmail(users, creds.value.email.value).value)
  {
    if !Submitted(creds) then
      Rejected(MissingCredentials)
    else
      var email := creds.value.email.value;
      var password := creds.value.password.value;
      match FindUserByEmail(users, email)
      case None => Rejected(InvalidCredentials)
      case Some(user) =>
        if !Present(user.password) then
          Rejected(InvalidCredentials)
        else if !verify(password, user.password.value) then
          Rejected(InvalidCredentials)
        else
          Authorized(ClaimsOf(user))
  }

  /** An unknown email and a wrong password are reported identically, so a
      caller cannot learn which emails are registered. */
  lemma UnknownEmailLikeWrongPassword(creds: Option<Credentials>, usersA: seq<User>,
                                      usersB: seq<User>, verify: (string, string) -> bool)
    requires Submitted(creds)
    requires forall u :: u in usersA ==> u.email != creds.value.email.value
    requires FindUserByEmail(usersB, creds.value.email.value).Some?
    requires FindUserByEmail(usersB, creds.value.email.value).value.password.Some?
    requires !verify(creds.value.password.value,
                     FindUserByEmail(usersB, creds.value.email.value).value.password.value)
    ensures Authorize(creds, usersA, verify) == Authorize(creds, usersB, verify)
  {
  }

  /** Once emails are unique, a sign-in succeeds exactly for the user holding
      the email, when the password verifies against that user's hash, and
      yields that user's id, email, name, role and image. */
  lemma {:induction false} AuthorizeUniqueUser(creds: Option<Credentials>, users: seq<User>,
                                               verify: (string, string) -> bool, i: nat)
    requires UniqueEmails(users) && i < |users|
    requires Submitted(creds) && creds.value.email.value == users[i].email
    ensures Authorize(creds, users, verify).Authorized? <==>
              Present(users[i].password) && verify(creds.value.password.value, users[i].password.value)
    ensures Authorize(creds, users, verify).Authorized? ==>
              Authorize(creds, users, verify).user == ClaimsOf(users[i])
  {
    FindUserByEmailUnique(users, i);
  }

  /** The JWT of a session.  `claims` holds every other claim (subject,
      name, email, picture, issue and expiry times); the callback never
      touches it. */
  class Token {
    var role: Option<Role>
    var id: Option<UserId>
    var claims: map<string, string>

    constructor (claims: map<string, string>)
      ensures role == None && id == None && this.claims == claims
    {
      role := None;
      id := None;
      this.claims := claims;
    }

    /** The `jwt` callback: on sign-in the user's role and id are copied into
        the token; on later requests the token is returned as it is. */
    method Jwt(user: Option<AuthUser>)
      modifies this`role, this`id
      ensures user.Some? ==> role == Some(user.value.role) && id == Some(user.value.id)
      ensures user.None? ==> role == old(role) && id == old(id)
      ensures claims == old(claims)
    {
      if user.Some? {
        role := Some(user.value.role);
        id := Some(user.value.id);
      }
    }
  }

  /** A sign-in as the authentication library runs it: `authorize`, then
      the `jwt` callback with the authorised user.  The token ends up with
      the role and id of the account the email lookup finds. */
  method SignIn(creds: Option<Credentials>, users: seq<User>, verify: (string, string) -> bool,
                token: Token) returns (r: AuthResult)
    modifies token`role, token`id
    ensures r == Authorize(creds, users, verify)
    ensures r.Rejected? ==> token.role == old(token.role) && token.id == old(token.id)
    ensures r.Authorized? ==> token.role == Some(r.user.role) && token.id == Some(r.user.id)
    ensures r.Authorized? ==> var u := FindUserByEmail(users, creds.value.email.value).value;
                              token.role == Some(u.role) && token.id == Some(u.id)
  {
    r := Authorize(creds, users, verify);
    if r.Authorized? {
      token.Jwt(Some(r.user));
    }
  }
}
