/**
 * The session provider: a fixed table of sample users, a first-match login on
 * exact email and password, and the signed-in user kept under the "user" key.
 */
module AuthContext {
  import opened Wrappers
  import opened Seqs
  import opened Records

  /** A sample user, password included. */
  datatype SampleUser = SampleUser(id: int, email: string, password: string, role: string, name: string)

  const SampleUsers: seq<SampleUser> := [
    SampleUser(1, "admin@example.com", "admin123", "Admin", "Admin User"),
    SampleUser(2, "staff@example.com", "staff123", "Staff", "Staff User"),
    SampleUser(3, "customer@example.com", "customer123", "Customer", "Customer User")
  ]

  /** `user => user.email === email && user.password === password`. */
  function Matches(email: string, password: string): SampleUser -> bool {
    (u: SampleUser) => u.email == email && u.password == password
  }

  /** The session record built from a user: every key but the password. */
  function SessionOf(u: SampleUser): (s: SessionUser)
    ensures s.id == u.id && s.email == u.email && s.role == u.role && s.name == u.name
  {
    SessionUser(u.id, u.email, u.role, u.name)
  }

  /** The session `login` opens over a user table: that of the first user matching both credentials exactly. */
  function Authenticate(users: seq<SampleUser>, email: string, password: string): (r: Option<SessionUser>)
    ensures r.Some? <==> exists i :: 0 <= i < |users| && users[i].email == email && users[i].password == password
    ensures r.Some? ==>
      exists i :: && 0 <= i < |users| && users[i].email == email && users[i].password == password
                  && r.value == SessionOf(users[i])
                  && forall j :: 0 <= j < i ==> !(users[j].email == email && users[j].password == password)
  {
    match Find(users, Matches(email, password))
    case None => None
    case Some(u) => Some(SessionOf(u))
  }

  /** Each sample user's own credentials open that user's session. */
  lemma SampleCredentialsSignIn(k: nat)
    requires k < |SampleUsers|
    ensures Authenticate(SampleUsers, SampleUsers[k].email, SampleUsers[k].password) == Some(SessionOf(SampleUsers[k]))
  {
    assert Matches(SampleUsers[k].email, SampleUsers[k].password)(SampleUsers[k]);
  }

  /** The comparison is exact: a differently cased email does not sign in. */
  lemma EmailIsCaseSensitive()
    ensures Authenticate(SampleUsers, "Admin@example.com", "admin123").None?
  {
    assert SampleUsers[0].email[0] != 'A';
  }

  class AuthProvider {
    var user: Option<SessionUser>
    var loading: bool
    const storage: LocalStorage

    /** Before the restore effect: no user, loading (children are not rendered yet). */
    constructor (storage: LocalStorage)
      ensures this.storage == storage && user.None? && loading
    {
      this.storage := storage;
      user := None;
      loading := true;
    }

    /** The mount effect: take the stored user if there is one; afterwards children render. */
    method Restore()
      requires storage.WellFormed()
      modifies this
      ensures UserKey in storage.items ==> user == Some(storage.items[UserKey].user)
      ensures UserKey !in storage.items ==> user == old(user)
      ensures !loading
    {
      var stored := storage.GetItem(UserKey);
      match stored {
        case Some(b) =>
          assert FitsKey(UserKey, b);
          user := Some(b.user);
        case None =>
      }
      loading := false;
    }

    /** `login(email, password)`: on a match the session is set and stored; otherwise nothing changes. */
    method Login(email: string, password: string) returns (ok: bool)
      modifies this, storage
      ensures ok <==> Authenticate(SampleUsers, email, password).Some?
      ensures ok ==> user == Authenticate(SampleUsers, email, password)
      ensures ok ==> storage.items == old(storage.items)[UserKey := UserRecord(user.value)]
      ensures !ok ==> user == old(user) && storage.items == old(storage.items)
      ensures loading == old(loading)
      ensures old(storage.WellFormed()) ==> storage.WellFormed()
    {
      var found := Authenticate(SampleUsers, email, password);
      match found {
        case Some(u) =>
          user := Some(u);
          storage.SetItem(UserKey, UserRecord(u));
          ok := true;
        case None =>
          ok := false;
      }
    }

    /** `logout()`: no user, and the stored one removed. */
    method Logout()
      modifies this, storage
      ensures user.None? && storage.items == old(storage.items) - {UserKey}
      ensures loading == old(loading)
      ensures old(storage.WellFormed()) ==> storage.WellFormed()
    {
      user := None;
      storage.RemoveItem(UserKey);
    }
  }
}
