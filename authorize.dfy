/**
 * The credentials authorizer: the `authorize` callback of the credentials
 * provider. It looks the user up by email, compares the password with the
 * stored hash, and returns the identity handed to the session issuer, or
 * `null` (here `None`) on any failure. It only reads the store.
 */
module Authorizer {
  import opened Wrappers
  import opened Strings
  import opened Password
  import opened Users
  import RegisterRoute

  datatype Credentials = Credentials(email: Option<string>, password: Option<string>)

  /** The identity given to the session: no password hash. */
  datatype Identity = Identity(id: nat, email: string, name: string)

  function IdentityOf(u: User): Identity {
    Identity(u.id, u.email, u.name)
  }

  /** The credentials are complete, name a stored user, and the password verifies against that user's hash. */
  ghost predicate Accepted(users: map<string, User>, c: Credentials, h: Hasher) {
    && Truthy(c.email) && Truthy(c.password)
    && c.email.value in users
    && h.verify(c.password.value, users[c.email.value].passwordHash)
  }

  function Authorize(users: map<string, User>, c: Credentials, h: Hasher): (r: Option<Identity>)
    ensures r.Some? <==> Accepted(users, c, h)
    ensures r.Some? ==> r.value == IdentityOf(users[c.email.value])
  {
    if !Truthy(c.email) || !Truthy(c.password) then None
    else
      match Lookup(users, c.email.value)
      case None => None
      case Some(user) =>
        if !h.verify(c.password.value, user.passwordHash) then None
        else Some(Identity(user.id, user.email, user.name))
  }

  /** Incomplete credentials are refused before the store is consulted: the answer is the same for every store. */
  lemma IncompleteCredentialsSkipLookup(users: map<string, User>, other: map<string, User>, c: Credentials, h: Hasher)
    requires !Truthy(c.email) || !Truthy(c.password)
    ensures Authorize(users, c, h) == Authorize(other, c, h) == None
  {
  }

  /**
   * "No such user" and "wrong password" give the same value, so a caller cannot
   * tell whether an email is registered.
   */
  lemma FailuresAreIndistinguishable(users: map<string, User>, unknown: Credentials, wrong: Credentials, h: Hasher)
    requires Truthy(unknown.email) && Truthy(unknown.password) && unknown.email.value !in users
    requires Truthy(wrong.email) && Truthy(wrong.password) && wrong.email.value in users
    requires !h.verify(wrong.password.value, users[wrong.email.value].passwordHash)
    ensures Authorize(users, unknown, h) == Authorize(users, wrong, h) == None
  {
  }

  /** After a successful registration, signing in with the same email and password succeeds. */
  lemma RegisterThenAuthorize(st: Store, f: RegisterRoute.Form, h: Hasher, salt: Salt, faults: RegisterRoute.Faults)
    requires Sound(h)
    requires RegisterRoute.Register(st, RegisterRoute.Request(Some(f)), h, salt, faults).response.Ok?
    ensures var o := RegisterRoute.Register(st, RegisterRoute.Request(Some(f)), h, salt, faults);
            Authorize(o.store.users, Credentials(f.email, f.password), h)
              == Some(Identity(o.response.id, f.email.value, f.name.value))
  {
    var o := RegisterRoute.Register(st, RegisterRoute.Request(Some(f)), h, salt, faults);
    assert o.store.users[f.email.value].passwordHash == h.hash(f.password.value, SaltRounds, salt);
  }

  /** A failed registration grants no sign-in that was not already possible. */
  lemma FailedRegistrationGrantsNothing(st: Store, req: RegisterRoute.Request, h: Hasher, salt: Salt,
                                        faults: RegisterRoute.Faults, c: Credentials)
    requires RegisterRoute.Register(st, req, h, salt, faults).response.Err?
    ensures Authorize(RegisterRoute.Register(st, req, h, salt, faults).store.users, c, h) == Authorize(st.users, c, h)
  {
  }
}
