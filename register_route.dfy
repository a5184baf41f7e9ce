/**
 * The registration endpoint, `POST /api/auth/register`: validate the three
 * fields, refuse an email already registered, hash the password, create the
 * user and answer with `{success: true, user: {id, email}}`; any exception on
 * the way becomes a 500 with a generic message.
 *
 * `Register` states the whole outcome of one request as a function of the
 * store before it; `Post` is the handler, step by step, proved to produce it.
 */
module RegisterRoute {
  import opened Wrappers
  import opened Strings
  import opened Password
  import opened Users

  /** The fields destructured from the JSON body; a field absent from the body is `None`. */
  datatype Form = Form(name: Option<string>, email: Option<string>, password: Option<string>)

  /** A request; `body` is `None` when `request.json()` throws. */
  datatype Request = Request(body: Option<Form>)

  /**
   * The response: `Ok` is the JSON `{success: true, user: {id, email}}` with
   * status 200; `Err` is `{error}` with its status.
   */
  datatype Response = Ok(id: nat, email: string) | Err(status: nat, error: string)

  const MissingFields: Response := Err(400, "Missing fields")
  const UserExists: Response := Err(400, "User already exists.")
  const InternalError: Response := Err(500, "Something went wrong. Try again.")

  /** The calls the handler makes to its collaborators, in order. */
  datatype Effect = FindUser(email: string) | HashPassword(password: string) | CreateUser(email: string)

  /** Which collaborator calls throw on this request: the lookup, the hash or the insert. */
  datatype Faults = Faults(lookupThrows: bool, hashThrows: bool, createThrows: bool)

  datatype Outcome = Outcome(response: Response, store: Store, effects: seq<Effect>)

  predicate AllPresent(f: Form) {
    Truthy(f.name) && Truthy(f.email) && Truthy(f.password)
  }

  /** The record a successful registration of `f` adds. */
  function NewUser(st: Store, f: Form, h: Hasher, salt: Salt): User
    requires AllPresent(f)
  {
    User(st.nextId, f.name.value, f.email.value, h.hash(f.password.value, SaltRounds, salt))
  }

  /** The outcome of one registration request against store `st`. */
  function Register(st: Store, req: Request, h: Hasher, salt: Salt, faults: Faults): (o: Outcome)
    // Exactly the well-formed requests for a new email whose calls all return succeed.
    ensures o.response.Ok? <==>
      && req.body.Some? && AllPresent(req.body.value)
      && req.body.value.email.value !in st.users
      && !faults.lookupThrows && !faults.hashThrows && !faults.createThrows
    // On success exactly one record is added, under the email, and the response
    // carries that record's id and email and nothing else.
    ensures o.response.Ok? ==>
      var u := NewUser(st, req.body.value, h, salt);
      && o.store == Store(st.users[u.email := u], st.nextId + 1)
      && o.response == Ok(o.store.users[u.email].id, o.store.users[u.email].email)
      && o.effects == [FindUser(u.email), HashPassword(req.body.value.password.value), CreateUser(u.email)]
    // Every error leaves the store as it was.
    ensures o.response.Err? ==> o.store == st
    ensures o.response.Err? ==> o.response in {MissingFields, UserExists, InternalError}
    // The uniqueness invariant of the store is preserved.
    ensures WellFormed(st) ==> WellFormed(o.store)
  {
    if req.body.None? then Outcome(InternalError, st, [])
    else
      var f := req.body.value;
      if !AllPresent(f) then Outcome(MissingFields, st, [])
      else
        var email := f.email.value;
        var find := [FindUser(email)];
        if faults.lookupThrows then Outcome(InternalError, st, find)
        else if email in st.users then Outcome(UserExists, st, find)
        else
          var hashing := find + [HashPassword(f.password.value)];
          if faults.hashThrows then Outcome(InternalError, st, hashing)
          else if faults.createThrows then Outcome(InternalError, st, hashing + [CreateUser(email)])
          else
            var u := NewUser(st, f, h, salt);
            var st' := Store(st.users[email := u], st.nextId + 1);
            assert WellFormed(st) ==> WellFormed(st') by {
              if WellFormed(st) { InsertKeepsWellFormed(st, u); }
            }
            Outcome(Ok(u.id, u.email), st', hashing + [CreateUser(email)])
  }

  /** A missing or empty field is refused before the store is touched or a hash computed. */
  lemma MissingFieldIsRefusedUntouched(st: Store, f: Form, h: Hasher, salt: Salt, faults: Faults)
    requires !AllPresent(f)
    ensures Register(st, Request(Some(f)), h, salt, faults) == Outcome(MissingFields, st, [])
  {
  }

  /** A registered email is refused after one lookup, with no hash computed and no write. */
  lemma DuplicateIsRefusedWithoutHashing(st: Store, f: Form, h: Hasher, salt: Salt, faults: Faults)
    requires AllPresent(f) && f.email.value in st.users
    requires !faults.lookupThrows
    ensures Register(st, Request(Some(f)), h, salt, faults) == Outcome(UserExists, st, [FindUser(f.email.value)])
  {
  }

  /** An exception in any step yields the generic 500 and adds no record. */
  lemma ThrowIsGenericAndAddsNothing(st: Store, req: Request, h: Hasher, salt: Salt, faults: Faults)
    requires req.body.None? ||
             (AllPresent(req.body.value) &&
              (faults.lookupThrows ||
               (req.body.value.email.value !in st.users && (faults.hashThrows || faults.createThrows))))
    ensures Register(st, req, h, salt, faults).response == InternalError
    ensures Register(st, req, h, salt, faults).store == st
  {
  }

  /** Once `email` is registered, any second registration of it is refused as a duplicate. */
  lemma SecondRegistrationIsDuplicate(st: Store, f: Form, g: Form, h: Hasher, s1: Salt, s2: Salt, faults2: Faults)
    requires Register(st, Request(Some(f)), h, s1, Faults(false, false, false)).response.Ok?
    requires AllPresent(g) && g.email == f.email
    requires !faults2.lookupThrows
    ensures var st' := Register(st, Request(Some(f)), h, s1, Faults(false, false, false)).store;
            Register(st', Request(Some(g)), h, s2, faults2).response == UserExists
  {
  }

  /**
   * The handler, step by step. Each awaited collaborator call either returns
   * or throws (as `faults` says); a throw skips to the catch-all 500.
   */
  method Post(db: UserTable, req: Request, h: Hasher, salt: Salt, faults: Faults)
    returns (response: Response, effects: seq<Effect>)
    requires db.Valid()
    modifies db
    ensures db.Valid()
    ensures Outcome(response, db.Snapshot(), effects) == Register(old(db.Snapshot()), req, h, salt, faults)
  {
    effects := [];
    if req.body.None? {
      return InternalError, effects;
    }
    var f := req.body.value;
    if !Truthy(f.name) || !Truthy(f.email) || !Truthy(f.password) {
      return MissingFields, effects;
    }
    var name, email, password := f.name.value, f.email.value, f.password.value;

    effects := effects + [FindUser(email)];
    var existing := db.FindUnique(email, faults.lookupThrows);
    if existing.Threw? {
      return InternalError, effects;
    }
    if existing.value.Some? {
      return UserExists, effects;
    }

    effects := effects + [HashPassword(password)];
    if faults.hashThrows {
      return InternalError, effects;
    }
    var hashedPassword := h.hash(password, SaltRounds, salt);

    effects := effects + [CreateUser(email)];
    var created := db.Create(name, email, hashedPassword, faults.createThrows);
    if created.Threw? {
      return InternalError, effects;
    }
    response := Ok(created.value.id, created.value.email);
  }
}
