/** The persisted session store (`authStore`): the signed-in user and whether the
    session check is still in flight. */
module AuthStore {
  import opened Common
  import opened Domain

  /** The store's state as a value. */
  datatype AuthState = AuthState(user: Option<User>, isCheckingAuth: bool)

  /** The slice written to local storage. */
  datatype Persisted = Persisted(user: Option<User>)

  /** A fresh store: nobody signed in, and the session still to be checked. */
  const Initial: AuthState := AuthState(None, true)

  /** The state once the session check has answered. */
  function Settled(reply: Reply<User>): (s: AuthState)
    ensures !s.isCheckingAuth
    ensures s.user.Some? <==> reply.Ok?
    ensures reply.Ok? ==> s.user == Some(reply.data)
  {
    match reply
    case Ok(u) => AuthState(Some(u), false)
    case Err(_, _, _) => AuthState(None, false)
  }

  /** `partialize`: only the user is stored. */
  function Partialize(s: AuthState): (p: Persisted)
    ensures p.user == s.user
  {
    Persisted(s.user)
  }

  /** Rehydration merges the stored slice over the initial state. */
  function Rehydrate(p: Persisted): (s: AuthState)
    ensures s.user == p.user && s.isCheckingAuth
  {
    AuthState(p.user, Initial.isCheckingAuth)
  }

  /** A reloaded page restores the user but always checks the session again, whatever
      the state was when it was saved. */
  lemma ReloadRechecks(s: AuthState)
    ensures Rehydrate(Partialize(s)) == AuthState(s.user, true)
    ensures Partialize(Rehydrate(Partialize(s))) == Partialize(s)
  {
  }

  /** Two states that differ only in `isCheckingAuth` are stored alike. */
  lemma CheckingNotPersisted(s: AuthState, t: AuthState)
    requires s.user == t.user
    ensures Partialize(s) == Partialize(t)
  {
  }

  class Store {
    var user: Option<User>
    var isCheckingAuth: bool

    function State(): AuthState
      reads this
    {
      AuthState(user, isCheckingAuth)
    }

    constructor()
      ensures State() == Initial
    {
      user := None;
      isCheckingAuth := true;
    }

    /** `checkAuth`, first half: the check starts and the user is kept meanwhile. */
    method BeginCheckAuth()
      modifies this
      ensures isCheckingAuth && user == old(user)
    {
      isCheckingAuth := true;
    }

    /** `checkAuth`, second half: the answer of `GET /auth/check` arrives. */
    method FinishCheckAuth(reply: Reply<User>)
      modifies this
      ensures State() == Settled(reply)
    {
      match reply {
        case Ok(u) =>
          user := Some(u);
          isCheckingAuth := false;
        case Err(_, _, _) =>
          user := None;
          isCheckingAuth := false;
      }
    }

    /** `login(userData)`: the user is replaced, the check flag is left alone. */
    method Login(userData: User)
      modifies this
      ensures user == Some(userData) && isCheckingAuth == old(isCheckingAuth)
    {
      user := Some(userData);
    }

    /** `logout`: the user is cleared whether `POST /auth/logout` succeeds or not. */
    method Logout(reply: Reply<()>)
      modifies this
      ensures user == None && isCheckingAuth == old(isCheckingAuth)
    {
      match reply {
        case Ok(_) => user := None;
        case Err(_, _, _) => user := None;
      }
    }

    /** What the store writes to local storage. */
    function Stored(): (p: Persisted)
      reads this
      ensures p == Partialize(State())
    {
      Persisted(user)
    }
  }
}
