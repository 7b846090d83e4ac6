/** The provider that holds the signed-in user, their profile and the loading flag. */
module AuthContext {
  import opened Wrappers
  import opened Schema
  import opened Backend

  /** The value the context hands to every page. */
  datatype AuthState = AuthState(user: Option<AuthUser>, profile: Option<Profile>, loading: bool)

  const Initial := AuthState(None, None, true)

  /** The profile belongs to the user, and there is no profile without a user. */
  predicate Consistent(s: AuthState) {
    s.profile.Some? ==> s.user.Some? && s.profile.value.id == s.user.value.id
  }

  /**
   * The state after an auth event whose session holds `session`, where
   * `fetched` is what `getProfile` gave (`None` where it threw): the user is
   * the session's, the profile the fetched one or none, and loading is over.
   */
  function AfterAuthEvent(session: Option<AuthUser>, fetched: Option<Profile>): (s: AuthState)
    ensures !s.loading && s.user == session
    ensures s.profile.Some? <==> session.Some? && fetched.Some?
    ensures s.profile.Some? ==> s.profile == fetched
  {
    AuthState(session, if session.Some? then fetched else None, false)
  }

  /** An auth event leaves a consistent state when the fetched row is the session user's. */
  lemma AuthEventConsistent(session: Option<AuthUser>, fetched: Option<Profile>)
    requires session.Some? && fetched.Some? ==> fetched.value.id == session.value.id
    ensures Consistent(AfterAuthEvent(session, fetched))
  {
  }

  /**
   * The state after the initial `getSession()` answer: the user is the
   * session's; a fetched profile replaces the old one, a failed fetch or a
   * missing user leaves it; loading is not touched.
   */
  function AfterInitialSession(s: AuthState, session: Option<AuthUser>, fetched: Option<Profile>): (t: AuthState)
    ensures t.user == session && t.loading == s.loading
    ensures t.profile == if session.Some? && fetched.Some? then fetched else s.profile
  {
    AuthState(session, if session.Some? && fetched.Some? then fetched else s.profile, s.loading)
  }

  /**
   * The initial session can arrive after an auth event: if the event signed
   * someone in and the session is empty, the profile stays while the user
   * is gone.
   */
  lemma LateInitialSessionKeepsProfile(p: Profile)
    ensures var u := AuthUser(p.id, p.email);
      var s := AfterInitialSession(AfterAuthEvent(Some(u), Some(p)), None, None);
      && s.user.None? && s.profile == Some(p) && !Consistent(s)
  {
  }

  class AuthProvider {
    var user: Option<AuthUser>
    var profile: Option<Profile>
    var loading: bool
    /** The auth-state listener is registered. */
    var listening: bool

    function State(): AuthState
      reads this
    {
      AuthState(user, profile, loading)
    }

    constructor ()
      ensures State() == Initial && !listening
    {
      user, profile, loading, listening := None, None, true, false;
    }

    /** The mount effect registers the auth-state listener. */
    method Mount()
      modifies this`listening
      ensures listening
    {
      listening := true;
    }

    /** The `getSession().then(...)` callback, with the outcome of its profile fetch. */
    method HandleInitialSession(session: Option<AuthUser>, db: Database, accepted: bool)
      modifies this`user, this`profile
      ensures var fetched := if session.Some? && accepted && session.value.id in db.profiles then Some(db.profiles[session.value.id]) else None;
        State() == AfterInitialSession(old(State()), session, fetched)
    {
      user := session;
      if session.Some? {
        var fetched := db.FetchProfile(session.value.id, accepted);
        if fetched.Some? {
          profile := fetched;
        }
      }
    }

    /** The `onAuthStateChange` callback, with the outcome of its profile fetch. */
    method HandleAuthChange(session: Option<AuthUser>, db: Database, accepted: bool)
      modifies this`user, this`profile, this`loading
      ensures var fetched := if session.Some? && accepted && session.value.id in db.profiles then Some(db.profiles[session.value.id]) else None;
        State() == AfterAuthEvent(session, fetched)
      ensures db.Keyed() ==> Consistent(State())
    {
      user := session;
      if session.Some? {
        var fetched := db.FetchProfile(session.value.id, accepted);
        profile := fetched;
      } else {
        profile := None;
      }
      loading := false;
    }

    /** The effect's cleanup unsubscribes the listener. */
    method Teardown()
      modifies this`listening
      ensures !listening
    {
      listening := false;
    }
  }
}
