/**
 * The browser's session context: the React state (token, user, loading) and
 * the three keys it keeps in local storage (token, user, lastActivity).
 * Clock readings are the explicit parameter `now`, in milliseconds; the
 * one-minute timer and the DOM activity listeners become the two entry points
 * Tick and OnActivity, which fire only while the session is armed.
 */
module AuthContext {
  import opened Wrappers
  import opened Api

  /** 30 minutes of inactivity, in milliseconds. */
  const InactivityTimeout: int := 30 * 60 * 1000

  /** The session has been idle too long: a last activity is stored and strictly more than the timeout has passed. */
  predicate Idle(lastActivity: Option<int>, now: int)
  {
    lastActivity.Some? && now - lastActivity.value > InactivityTimeout
  }

  /** Exactly thirty minutes of silence is not yet idle; one millisecond more is. */
  lemma IdleBoundaryIsStrict(t: int)
    ensures !Idle(Some(t), t + 1800000)
    ensures Idle(Some(t), t + 1800001)
  {
  }

  /** Once idle, a session stays idle as time goes on. */
  lemma IdleIsMonotonic(lastActivity: Option<int>, now: int, later: int)
    requires now <= later && Idle(lastActivity, now)
    ensures Idle(lastActivity, later)
  {
  }

  class AuthProvider {
    // React state
    var token: Option<string>
    var user: Option<PublicUser>
    var loading: bool
    // local storage
    var storedToken: Option<string>
    var storedUser: Option<PublicUser>
    var lastActivity: Option<int>

    /**
     * The token in memory mirrors the token in storage. Every step keeps it
     * except a verification that settles after a timer tick (TickDuringVerify).
     */
    ghost predicate Valid()
      reads this
    {
      token == storedToken
    }

    /** The inactivity timer and the activity listeners are installed exactly while this holds. */
    predicate Armed()
      reads this
    {
      Truthy(token)
    }

    /** Mounting the provider: state is hydrated from storage, and loading starts. */
    constructor (savedToken: Option<string>, savedUser: Option<PublicUser>, savedActivity: Option<int>)
      ensures Valid()
      ensures storedToken == savedToken && storedUser == savedUser && lastActivity == savedActivity
      ensures token == savedToken && user == savedUser && loading
    {
      storedToken, storedUser, lastActivity := savedToken, savedUser, savedActivity;
      token, user := savedToken, savedUser;
      loading := true;
    }

    /** `login`: stores the token, the user and the current time, and sets the state. */
    method Login(jwtToken: string, userData: PublicUser, now: int)
      requires Valid()
      modifies this
      ensures Valid()
      ensures storedToken == Some(jwtToken) && storedUser == Some(userData) && lastActivity == Some(now)
      ensures token == Some(jwtToken) && user == Some(userData)
      ensures loading == old(loading)
    {
      storedToken := Some(jwtToken);
      storedUser := Some(userData);
      lastActivity := Some(now);
      token := Some(jwtToken);
      user := Some(userData);
    }

    /** `logout`: removes all three storage keys and clears the state; a second call changes nothing. */
    method Logout()
      modifies this
      ensures Valid()
      ensures storedToken.None? && storedUser.None? && lastActivity.None?
      ensures token.None? && user.None? && !Armed()
      ensures loading == old(loading)
    {
      storedToken := None;
      storedUser := None;
      lastActivity := None;
      token := None;
      user := None;
    }

    /** `updateActivity`: records `now` only while a token is held. */
    method UpdateActivity(now: int)
      modifies this
      ensures old(Valid()) ==> Valid()
      ensures lastActivity == if Truthy(old(token)) then Some(now) else old(lastActivity)
      ensures token == old(token) && user == old(user) && loading == old(loading)
      ensures storedToken == old(storedToken) && storedUser == old(storedUser)
    {
      if Truthy(token) {
        lastActivity := Some(now);
      }
    }

    /** `checkInactivity`: logs out exactly when the session is idle at `now`. */
    method CheckInactivity(now: int)
      modifies this
      ensures old(Valid()) ==> Valid()
      ensures Idle(old(lastActivity), now) ==>
                token.None? && user.None? && storedToken.None? && storedUser.None? && lastActivity.None?
      ensures !Idle(old(lastActivity), now) ==>
                && token == old(token) && user == old(user)
                && storedToken == old(storedToken) && storedUser == old(storedUser)
                && lastActivity == old(lastActivity)
      ensures loading == old(loading)
    {
      if lastActivity.Some? {
        var timeSinceLastActivity := now - lastActivity.value;
        if timeSinceLastActivity > InactivityTimeout {
          Logout();
        }
      }
    }

    /** One firing of the one-minute timer: it runs only while the session is armed. */
    method Tick(now: int)
      modifies this
      ensures old(Valid()) ==> Valid()
      ensures Armed() ==> old(Armed())
      ensures old(Armed()) && Idle(old(lastActivity), now) ==>
                token.None? && user.None? && storedToken.None? && storedUser.None? && lastActivity.None?
      ensures !old(Armed()) || !Idle(old(lastActivity), now) ==>
                && token == old(token) && user == old(user)
                && storedToken == old(storedToken) && storedUser == old(storedUser)
                && lastActivity == old(lastActivity)
      ensures loading == old(loading)
    {
      if Truthy(token) {
        CheckInactivity(now);
      }
    }

    /** A mouse, key, scroll or touch event: the listener is attached only while armed. */
    method OnActivity(now: int)
      modifies this
      ensures old(Valid()) ==> Valid()
      ensures lastActivity == if old(Armed()) then Some(now) else old(lastActivity)
      ensures token == old(token) && user == old(user) && loading == old(loading)
      ensures storedToken == old(storedToken) && storedUser == old(storedUser)
    {
      if Truthy(token) {
        UpdateActivity(now);
      }
    }

    /**
     * The synchronous start of the mount-time `verifyToken`: it reads the
     * stored token, and with none it only ends loading. Otherwise GET
     * /auth/verify is awaited, and timer ticks may run before FinishVerify.
     */
    method BeginVerify() returns (saved: Option<string>)
      requires Valid()
      modifies this
      ensures Valid()
      ensures saved == storedToken
      ensures loading == (old(loading) && Truthy(saved))
      ensures token == old(token) && user == old(user)
      ensures storedToken == old(storedToken) && storedUser == old(storedUser)
      ensures lastActivity == old(lastActivity)
    {
      saved := storedToken;
      if !Truthy(saved) {
        loading := false;
      }
    }

    /**
     * The end of `verifyToken`, once GET /auth/verify has settled: `verified`
     * is the user it returned, or None when it failed, which logs out. A
     * success sets the user, sets the token to the one read at the start
     * (whatever storage holds now) and refreshes the activity time. Loading
     * ends in every case.
     */
    method FinishVerify(saved: Option<string>, verified: Option<PublicUser>, now: int)
      requires Truthy(saved)
      modifies this
      ensures !loading
      ensures verified.None? ==>
                && Valid()
                && token.None? && user.None? && storedToken.None? && storedUser.None? && lastActivity.None?
      ensures verified.Some? ==>
                && token == saved && user == verified && lastActivity == Some(now)
                && storedToken == old(storedToken) && storedUser == old(storedUser)
      ensures verified.Some? ==> (Valid() <==> saved == old(storedToken))
    {
      if verified.Some? {
        user := verified;
        token := saved;
        lastActivity := Some(now);
      } else {
        Logout();
      }
      loading := false;
    }

    /**
     * `verifyToken` when the request settles before any timer tick: with no
     * stored token only loading ends; a failure logs out; a success restores
     * user and token and refreshes the activity time. Loading ends in every
     * case and the state token keeps mirroring the stored one.
     */
    method VerifyOnMount(verified: Option<PublicUser>, now: int)
      requires Valid()
      modifies this
      ensures Valid() && !loading
      ensures !Truthy(old(storedToken)) ==>
                && token == old(token) && user == old(user)
                && storedToken == old(storedToken) && storedUser == old(storedUser)
                && lastActivity == old(lastActivity)
      ensures Truthy(old(storedToken)) && verified.None? ==>
                token.None? && user.None? && storedToken.None? && storedUser.None? && lastActivity.None?
      ensures Truthy(old(storedToken)) && verified.Some? ==>
                && token == old(storedToken) && user == verified
                && storedToken == old(storedToken) && storedUser == old(storedUser)
                && lastActivity == Some(now)
    {
      var saved := BeginVerify();
      if Truthy(saved) {
        FinishVerify(saved, verified, now);
      }
    }
  }

  /**
   * A session that logs in at `t` survives every timer tick up to thirty
   * minutes later and is logged out by the first tick after that.
   */
  method LoginThenTick(auth: AuthProvider, jwtToken: string, userData: PublicUser, t: int, now: int)
    requires auth.Valid() && jwtToken != "" && t <= now
    modifies auth
    ensures auth.Valid()
    ensures now - t <= InactivityTimeout ==> auth.token == Some(jwtToken) && auth.user == Some(userData)
    ensures now - t > InactivityTimeout ==> auth.token.None? && auth.user.None?
  {
    auth.Login(jwtToken, userData, t);
    auth.Tick(now);
  }

  /**
   * A reload after a long absence: when the server still accepts the stored
   * token and answers before the first timer tick, verification resets
   * lastActivity before any inactivity check runs, so a session idle for
   * longer than the timeout survives that tick.
   */
  method ReloadAfterIdle(auth: AuthProvider, verified: PublicUser, now: int)
    requires auth.Valid() && Truthy(auth.storedToken) && Idle(auth.lastActivity, now)
    modifies auth
    ensures auth.Valid() && !auth.loading
    ensures auth.token == old(auth.storedToken) && auth.user == Some(verified)
    ensures auth.lastActivity == Some(now)
  {
    auth.VerifyOnMount(Some(verified), now);
    auth.Tick(now + 60000);
  }

  /**
   * A timer tick while GET /auth/verify is pending: the session read at mount
   * is idle, so the tick logs out and clears storage; the late success then
   * sets the token read before the await again. The state holds a token that
   * storage no longer has, so the token no longer mirrors storage.
   */
  method TickDuringVerify(auth: AuthProvider, verified: PublicUser, now: int, later: int)
    requires auth.Valid() && Truthy(auth.storedToken) && Idle(auth.lastActivity, now)
    modifies auth
    ensures !auth.Valid()
    ensures auth.token == old(auth.storedToken) && auth.user == Some(verified)
    ensures auth.storedToken.None? && auth.storedUser.None? && auth.lastActivity == Some(later)
  {
    var saved := auth.BeginVerify();
    auth.Tick(now);
    auth.FinishVerify(saved, Some(verified), later);
  }

  /**
   * After the race the timer is armed again by the restored token: once that
   * session is idle, the next tick logs out and storage and state agree again.
   */
  method TickAfterRace(auth: AuthProvider, verified: PublicUser, now: int, later: int)
    requires auth.Valid() && Truthy(auth.storedToken) && Idle(auth.lastActivity, now)
    modifies auth
    ensures auth.Valid()
    ensures auth.token.None? && auth.user.None? && auth.lastActivity.None?
  {
    TickDuringVerify(auth, verified, now, later);
    auth.Tick(later + InactivityTimeout + 1);
  }
}
