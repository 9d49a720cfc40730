/** The persisted authentication store of src/stores/authStore.ts: who is
    logged in, and whether anyone is. Only these two fields are written to
    durable storage (key `auth-storage`); no token is. */
module Auth {
  import opened Types

  /** The persisted snapshot: exactly `user` and `isAuthenticated`. */
  datatype Persisted = Persisted(user: Option<User>, isAuthenticated: bool)

  class AuthStore {
    var user: Option<User>
    var isAuthenticated: bool

    /** The store's invariant: authenticated exactly when a user is held.
        Every action establishes it, and a reload keeps it
        (`ReloadKeepsInvariant`). */
    ghost predicate Valid()
      reads this
    {
      isAuthenticated <==> user.Some?
    }

    constructor ()
      ensures Valid()
      ensures user == None && !isAuthenticated
    {
      user := None;
      isAuthenticated := false;
    }

    method Login(u: User)
      modifies this
      ensures Valid()
      ensures user == Some(u) && isAuthenticated
    {
      user, isAuthenticated := Some(u), true;
    }

    method Logout()
      modifies this
      ensures Valid()
      ensures user == None && !isAuthenticated
    {
      user, isAuthenticated := None, false;
    }

    /** Same effect as `Login`. */
    method SetUser(u: User)
      modifies this
      ensures Valid()
      ensures user == Some(u) && isAuthenticated
    {
      user, isAuthenticated := Some(u), true;
    }

    /** `partialize`: the snapshot the persistence layer writes. It holds
        the two fields and nothing else, no token among them, and it is
        consistent whenever the store is. */
    function Partialize(): (snapshot: Persisted)
      reads this
      ensures snapshot.user == user && snapshot.isAuthenticated == isAuthenticated
      ensures Valid() ==> (snapshot.isAuthenticated <==> snapshot.user.Some?)
    {
      Persisted(user, isAuthenticated)
    }

    /** Rehydration after a reload: the persisted fields overwrite the
        store's, and the invariant holds again exactly when it held of the
        snapshot. */
    method Rehydrate(p: Persisted)
      modifies this
      ensures user == p.user && isAuthenticated == p.isAuthenticated
      ensures Valid() <==> (p.isAuthenticated <==> p.user.Some?)
    {
      user, isAuthenticated := p.user, p.isAuthenticated;
    }
  }

  /** Log in, persist, reload into a fresh store: the same user comes back,
      still authenticated, and the snapshot held nothing but those fields. */
  method ReloadAfterLogin(u: User) returns (snapshot: Persisted, restoredUser: Option<User>, restoredAuthenticated: bool)
    ensures snapshot == Persisted(Some(u), true)
    ensures restoredUser == Some(u) && restoredAuthenticated
  {
    var before := new AuthStore();
    before.Login(u);
    snapshot := before.Partialize();
    var after := new AuthStore();
    after.Rehydrate(snapshot);
    restoredUser, restoredAuthenticated := after.user, after.isAuthenticated;
  }

  /** Persisting a consistent store and reloading the snapshot into a fresh
      store gives a consistent store with the same snapshot. */
  method ReloadKeepsInvariant(source: AuthStore) returns (restored: AuthStore)
    requires source.Valid()
    ensures restored.Valid()
    ensures restored.Partialize() == source.Partialize()
  {
    var snapshot := source.Partialize();
    restored := new AuthStore();
    restored.Rehydrate(snapshot);
  }

  /** Logging out twice leaves the store as logging out once does, whatever
      was logged in before. */
  method LogoutIdempotent(u: User) returns (once: Persisted, twice: Persisted)
    ensures once == twice == Persisted(None, false)
  {
    var store := new AuthStore();
    store.Login(u);
    store.Logout();
    once := store.Partialize();
    store.Logout();
    twice := store.Partialize();
  }

  /** `setUser` and `login` lead from the same state to the same state. */
  method SetUserIsLogin(u: User, previous: Option<User>) returns (viaLogin: Persisted, viaSetUser: Persisted)
    ensures viaLogin == viaSetUser == Persisted(Some(u), true)
  {
    var a := new AuthStore();
    var b := new AuthStore();
    if previous.Some? {
      a.Login(previous.value);
      b.Login(previous.value);
    }
    a.Login(u);
    b.SetUser(u);
    viaLogin, viaSetUser := a.Partialize(), b.Partialize();
  }
}
