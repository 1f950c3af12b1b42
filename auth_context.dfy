/**
 * The authentication provider (`src/context/AuthContext.tsx`): the current
 * user and session, a loading flag, and a copy of both in local storage
 * under `'auth_user'` and `'auth_session'` so that a reload starts signed
 * in. Backend answers (`getSession`, the auth-state events) are inputs.
 *
 * The two storage entries are modelled as optional values: `None` is a
 * removed key, and serialising then parsing a user or a session gives it
 * back unchanged.
 */
module AuthContext {
  import opened Wrappers

  /** The parts of a backend user the application reads. */
  datatype User = User(id: string, email: Option<string>)

  /** A backend session; its `user` may be missing. */
  datatype Session = Session(accessToken: string, user: Option<User>)

  /** The events the auth listener receives. */
  datatype AuthEvent =
    | InitialSession
    | SignedIn
    | SignedOut
    | TokenRefreshed
    | UserUpdated
    | PasswordRecovery

  /** The storage keys. */
  const UserCacheKey: string := "auth_user"
  const SessionCacheKey: string := "auth_session"

  /** The provider's user and session. */
  datatype AuthState = AuthState(user: Option<User>, session: Option<Session>)

  /** `newSession?.user || null`. */
  function SessionUser(s: Option<Session>): Option<User> {
    if s.Some? then s.value.user else None
  }

  /**
   * The listener's effect on the state: a sign-in or a token refresh adopts
   * the new session and its user, a sign-out clears both, any other event
   * changes nothing.
   */
  function Reduce(st: AuthState, event: AuthEvent, newSession: Option<Session>): (r: AuthState)
    ensures event == SignedOut ==> r == AuthState(None, None)
    ensures (event == SignedIn || event == TokenRefreshed) ==> r == AuthState(SessionUser(newSession), newSession)
    ensures event !in {SignedIn, TokenRefreshed, SignedOut} ==> r == st
    // whatever the event, a user is only ever present together with a session
    ensures r.user.Some? && st.user.None? ==> r.session.Some?
  {
    if event == SignedIn || event == TokenRefreshed then AuthState(SessionUser(newSession), newSession)
    else if event == SignedOut then AuthState(None, None)
    else st
  }

  /** Repeating an event with the same session changes nothing more. */
  lemma ReduceIdempotent(st: AuthState, event: AuthEvent, newSession: Option<Session>)
    ensures Reduce(Reduce(st, event, newSession), event, newSession) == Reduce(st, event, newSession)
  {
  }

  /** The state after an event does not depend on the state before it, except for events that keep it. */
  lemma ReduceForgetsPast(s1: AuthState, s2: AuthState, event: AuthEvent, newSession: Option<Session>)
    requires event in {SignedIn, TokenRefreshed, SignedOut}
    ensures Reduce(s1, event, newSession) == Reduce(s2, event, newSession)
  {
  }

  /** After a sign-out, only a sign-in or a token refresh brings a user back. */
  lemma SignedOutStaysOut(st: AuthState, events: seq<AuthEvent>, sessions: seq<Option<Session>>)
    requires |events| == |sessions|
    requires forall i :: 0 <= i < |events| ==> events[i] !in {SignedIn, TokenRefreshed}
    ensures ReduceAll(Reduce(st, SignedOut, None), events, sessions) == AuthState(None, None)
  {
    ReduceAllKeeps(AuthState(None, None), events, sessions);
  }

  /** The state after a sequence of events. */
  function ReduceAll(st: AuthState, events: seq<AuthEvent>, sessions: seq<Option<Session>>): AuthState
    requires |events| == |sessions|
    decreases |events|
  {
    if |events| == 0 then st else ReduceAll(Reduce(st, events[0], sessions[0]), events[1..], sessions[1..])
  }

  /** Events that neither sign in nor refresh never change a signed-out state. */
  lemma {:induction false} ReduceAllKeeps(st: AuthState, events: seq<AuthEvent>, sessions: seq<Option<Session>>)
    requires st == AuthState(None, None)
    requires |events| == |sessions|
    requires forall i :: 0 <= i < |events| ==> events[i] !in {SignedIn, TokenRefreshed}
    ensures ReduceAll(st, events, sessions) == st
    decreases |events|
  {
    if |events| > 0 {
      assert events[0] !in {SignedIn, TokenRefreshed};
      ReduceAllKeeps(Reduce(st, events[0], sessions[0]), events[1..], sessions[1..]);
    }
  }

  class AuthProvider {
    var user: Option<User>
    var session: Option<Session>
    var isLoading: bool
    /** `localStorage['auth_user']` and `localStorage['auth_session']`. */
    var cachedUser: Option<User>
    var cachedSession: Option<Session>

    /** Each storage entry holds the current value when there is one and is removed otherwise. */
    predicate CacheSynced()
      reads this
    {
      cachedUser == user && cachedSession == session
    }

    /**
     * The first render: user and session come from storage (null when the
     * key is absent), and loading is on exactly when no user is cached.
     */
    constructor (storedUser: Option<User>, storedSession: Option<Session>)
      ensures user == storedUser && session == storedSession
      ensures isLoading <==> storedUser.None?
      ensures cachedUser == storedUser && cachedSession == storedSession
      ensures CacheSynced()
    {
      user := storedUser;
      session := storedSession;
      isLoading := storedUser.None?;
      cachedUser := storedUser;
      cachedSession := storedSession;
    }

    /** The two cache effects: each entry is written or removed to match the state. */
    method SyncCache()
      modifies this
      ensures CacheSynced()
      ensures user == old(user) && session == old(session) && isLoading == old(isLoading)
    {
      if user.Some? {
        cachedUser := user;
      } else {
        cachedUser := None;
      }
      if session.Some? {
        cachedSession := session;
      } else {
        cachedSession := None;
      }
    }

    /**
     * `fetchSession` on mount, with `fetched` the session `getSession`
     * returns. It runs only when user or session is missing, adopts the
     * fetched session only when there is one, and ends with loading off.
     */
    method FetchSession(fetched: Option<Session>)
      requires CacheSynced()
      modifies this
      ensures CacheSynced()
      ensures old(user).Some? && old(session).Some? ==>
                user == old(user) && session == old(session) && isLoading == old(isLoading)
      ensures old(user).None? || old(session).None? ==>
                && !isLoading
                && (fetched.Some? ==> session == fetched && user == fetched.value.user)
                && (fetched.None? ==> user == old(user) && session == old(session))
    {
      if user.None? || session.None? {
        isLoading := true;
        if fetched.Some? {
          session := fetched;
          user := fetched.value.user;
        }
        isLoading := false;
        SyncCache();
      }
    }

    /**
     * The auth-state listener followed by the cache effects. A sign-out also
     * removes both entries explicitly.
     */
    method OnAuthStateChange(event: AuthEvent, newSession: Option<Session>)
      requires CacheSynced()
      modifies this
      ensures CacheSynced()
      ensures AuthState(user, session) == Reduce(AuthState(old(user), old(session)), event, newSession)
      ensures isLoading == old(isLoading)
      ensures event == SignedOut ==> cachedUser.None? && cachedSession.None?
    {
      if event == SignedIn || event == TokenRefreshed {
        session := newSession;
        user := if newSession.Some? then newSession.value.user else None;
      } else if event == SignedOut {
        session := None;
        user := None;
        cachedUser := None;
        cachedSession := None;
      }
      SyncCache();
    }
  }

  /**
   * Mounting the provider: the first render, then the session fetch. Loading
   * is off afterwards whatever was cached and whatever the backend returned.
   */
  method Mount(storedUser: Option<User>, storedSession: Option<Session>, fetched: Option<Session>) returns (p: AuthProvider)
    ensures fresh(p)
    ensures !p.isLoading && p.CacheSynced()
    ensures fetched.None? || (storedUser.Some? && storedSession.Some?) ==>
              p.user == storedUser && p.session == storedSession
  {
    p := new AuthProvider(storedUser, storedSession);
    p.FetchSession(fetched);
  }
}
