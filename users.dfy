/**
 * The user store behind `prisma.user`: user records keyed by email. The
 * registration route looks a user up with `findUnique({where: {email}})`, which
 * Prisma allows only on a unique field, so the store refuses a second record with
 * an email it already holds. The database itself is not modelled: a call that
 * throws (store unavailable) is chosen by the `down` argument.
 */
module Users {
  import opened Wrappers

  datatype User = User(id: nat, name: string, email: string, passwordHash: string)

  /** The outcome of one external call: a value, or an exception. */
  datatype Call<T> = Returned(value: T) | Threw

  /** The store's contents as a value: its records and the id the next record receives. */
  datatype Store = Store(users: map<string, User>, nextId: nat)

  /**
   * Every record is filed under its own email (so there is at most one user per
   * email), every id was issued before `nextId`, and no two records share an id.
   */
  ghost predicate WellFormed(st: Store) {
    && (forall e | e in st.users :: st.users[e].email == e && st.users[e].id < st.nextId)
    && (forall e1, e2 | e1 in st.users && e2 in st.users && e1 != e2 :: st.users[e1].id != st.users[e2].id)
  }

  function Lookup(users: map<string, User>, email: string): (r: Option<User>)
    ensures r.Some? <==> email in users
    ensures r.Some? ==> r.value == users[email]
  {
    if email in users then Some(users[email]) else None
  }

  /** Storing a record with a fresh id under a new email keeps the store well formed. */
  lemma InsertKeepsWellFormed(st: Store, u: User)
    requires WellFormed(st)
    requires u.email !in st.users && u.id == st.nextId
    ensures WellFormed(Store(st.users[u.email := u], st.nextId + 1))
  {
  }

  class UserTable {
    var users: map<string, User>
    var nextId: nat

    ghost predicate Valid()
      reads this
    {
      WellFormed(Snapshot())
    }

    function Snapshot(): Store
      reads this
    {
      Store(users, nextId)
    }

    constructor ()
      ensures Valid() && users == map[] && nextId == 0
    {
      users := map[];
      nextId := 0;
    }

    /** `prisma.user.findUnique({where: {email}})`: reads the store, changes nothing. */
    method FindUnique(email: string, down: bool) returns (r: Call<Option<User>>)
      ensures down ==> r.Threw?
      ensures !down ==> r == Returned(Lookup(users, email))
    {
      if down {
        return Threw;
      }
      r := Returned(Lookup(users, email));
    }

    /**
     * `prisma.user.create({data: {name, email, passwordHash}})`: adds one record with
     * a fresh id; throws, adding nothing, when the store is down or already holds `email`.
     */
    method Create(name: string, email: string, passwordHash: string, down: bool) returns (r: Call<User>)
      requires Valid()
      modifies this
      ensures Valid()
      ensures (down || email in old(users)) ==> r.Threw? && users == old(users) && nextId == old(nextId)
      ensures !(down || email in old(users)) ==>
        && r == Returned(User(old(nextId), name, email, passwordHash))
        && users == old(users)[email := r.value]
        && nextId == old(nextId) + 1
    {
      if down || email in users {
        return Threw;
      }
      var u := User(nextId, name, email, passwordHash);
      InsertKeepsWellFormed(Snapshot(), u);
      users := users[email := u];
      nextId := nextId + 1;
      r := Returned(u);
    }
  }
}
