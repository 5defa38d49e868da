/**
 * The `auth` slice of the store: login, session and logout flags, and the failed-attempt
 * counter that locks the account for a fixed time once it reaches the maximum.
 */
module AuthSlices {
  import opened Types
  import opened Constants
  import opened Storage
  import opened Auth

  const INITIAL_AUTH_STATE: AuthState := AuthState(false, None, None, false, None, 0, false, None)

  const LOGIN_FAILED: string := "Login failed"
  const NO_SESSION: string := "No valid session found"

  /** `incrementFailedAttempts`: one more failure; reaching the maximum locks until now + duration. */
  function Incremented(s: AuthState, now: int): AuthState {
    var count := s.failedAttempts + 1;
    if count >= MAX_LOGIN_ATTEMPTS then
      s.(failedAttempts := count, isLocked := true, lockoutEndTime := Some(now + LOCKOUT_DURATION))
    else
      s.(failedAttempts := count)
  }

  /** The state after one failed attempt at each of the given times, in order. */
  function AfterFailures(s: AuthState, times: seq<int>): AuthState
    decreases |times|
  {
    if times == [] then s else AfterFailures(Incremented(s, times[0]), times[1..])
  }

  /**
   * `checkLockoutStatus.fulfilled`: take the stored count; stay locked only while a stored,
   * non-zero end time lies in the future, and forget the end time otherwise.
   */
  function LockoutChecked(s: AuthState, attempts: int, lockoutTime: Option<int>, now: int): AuthState {
    if lockoutTime.Some? && lockoutTime.value != 0 && now < lockoutTime.value then
      s.(failedAttempts := attempts, isLocked := true, lockoutEndTime := lockoutTime)
    else
      s.(failedAttempts := attempts, isLocked := false, lockoutEndTime := None)
  }

  /** `loginUser.fulfilled`: signed in, counter reset; the lock flags are left as they were. */
  function LoginFulfilled(s: AuthState, result: AuthResult): AuthState {
    s.(isLoading := false, isAuthenticated := true, user := Some(result.user),
       sessionToken := Some(result.token), failedAttempts := 0, error := None)
  }

  /** `loginUser.rejected`: loading ends and the message is kept; the counter is not touched. */
  function LoginRejected(s: AuthState, message: string): AuthState {
    s.(isLoading := false, error := Some(message))
  }

  /** Each failure adds exactly one to the counter. */
  lemma {:induction false} FailuresCounted(s: AuthState, times: seq<int>)
    ensures AfterFailures(s, times).failedAttempts == s.failedAttempts + |times|
    decreases |times|
  {
    if times != [] {
      FailuresCounted(Incremented(s, times[0]), times[1..]);
    }
  }

  /** A further failure is one more step of the sequence. */
  lemma {:induction false} AfterFailuresSnoc(s: AuthState, times: seq<int>, now: int)
    ensures AfterFailures(s, times + [now]) == Incremented(AfterFailures(s, times), now)
    decreases |times|
  {
    if times == [] {
      assert AfterFailures(s, [now]) == AfterFailures(Incremented(s, now), []);
    } else {
      assert (times + [now])[1..] == times[1..] + [now];
      AfterFailuresSnoc(Incremented(s, times[0]), times[1..], now);
    }
  }

  /**
   * Once the count reaches the maximum the account is locked, and the lock ends one lockout
   * duration after the latest failure: every failure at or past the maximum refreshes it.
   */
  lemma {:induction false} LockedAfterMaxFailures(s: AuthState, times: seq<int>)
    requires |times| > 0 && s.failedAttempts + |times| >= MAX_LOGIN_ATTEMPTS
    ensures AfterFailures(s, times).isLocked
    ensures AfterFailures(s, times).lockoutEndTime == Some(times[|times| - 1] + LOCKOUT_DURATION)
    decreases |times|
  {
    var rest := times[1..];
    if rest == [] {
      assert AfterFailures(s, times) == AfterFailures(Incremented(s, times[0]), rest);
    } else {
      LockedAfterMaxFailures(Incremented(s, times[0]), rest);
      assert rest[|rest| - 1] == times[|times| - 1];
    }
  }

  /** Below the maximum, failures leave the lock flags exactly as they were. */
  lemma {:induction false} NoLockBelowMax(s: AuthState, times: seq<int>)
    requires s.failedAttempts + |times| < MAX_LOGIN_ATTEMPTS
    ensures AfterFailures(s, times).isLocked == s.isLocked
    ensures AfterFailures(s, times).lockoutEndTime == s.lockoutEndTime
    decreases |times|
  {
    if times != [] {
      NoLockBelowMax(Incremented(s, times[0]), times[1..]);
    }
  }

  /** From the initial state, four failures leave the account open and the fifth locks it. */
  lemma FifthFailureLocks(times: seq<int>)
    requires |times| == MAX_LOGIN_ATTEMPTS
    ensures !AfterFailures(INITIAL_AUTH_STATE, times[..MAX_LOGIN_ATTEMPTS - 1]).isLocked
    ensures AfterFailures(INITIAL_AUTH_STATE, times).isLocked
    ensures AfterFailures(INITIAL_AUTH_STATE, times).lockoutEndTime == Some(times[4] + LOCKOUT_DURATION)
  {
    NoLockBelowMax(INITIAL_AUTH_STATE, times[..MAX_LOGIN_ATTEMPTS - 1]);
    LockedAfterMaxFailures(INITIAL_AUTH_STATE, times);
  }

  /**
   * A lock set at `now` and read back after a restart holds exactly until now + duration;
   * from then on the check forgets it.
   */
  lemma LockoutSurvivesRestart(s: AuthState, now: int, restarted: AuthState, attempts: int, later: int)
    requires now >= 0 && s.failedAttempts + 1 >= MAX_LOGIN_ATTEMPTS
    ensures var locked := Incremented(s, now);
      var checked := LockoutChecked(restarted, attempts, locked.lockoutEndTime, later);
      (checked.isLocked <==> later < now + LOCKOUT_DURATION)
      && checked.lockoutEndTime == (if later < now + LOCKOUT_DURATION then locked.lockoutEndTime else None)
      && checked.failedAttempts == attempts
  {
  }

  /** The zero that unlocking stores reads back as unlocked, whatever the clock says. */
  lemma StoredZeroIsUnlocked(s: AuthState, now: int)
    ensures LockoutChecked(s, 0, Some(0), now) == s.(failedAttempts := 0, isLocked := false, lockoutEndTime := None)
  {
  }

  /**
   * A successful login resets the counter but keeps a lock in place, and the next failure
   * then leaves the old end time as it is instead of refreshing it.
   */
  lemma LoginKeepsStaleLock(s: AuthState, result: AuthResult, now: int)
    requires s.isLocked
    ensures LoginFulfilled(s, result).failedAttempts == 0
    ensures LoginFulfilled(s, result).isLocked
    ensures LoginFulfilled(s, result).lockoutEndTime == s.lockoutEndTime
    ensures Incremented(LoginFulfilled(s, result), now).lockoutEndTime == s.lockoutEndTime
  {
  }

  class AuthSlice {
    var state: AuthState
    const auth: AuthService
    const storage: StorageService

    /** The slice and the service share one storage gateway, and the directory is well formed. */
    ghost predicate Valid()
      reads this, auth
    {
      auth.storage == storage && auth.Valid()
    }

    constructor (auth: AuthService)
      requires auth.Valid()
      ensures state == INITIAL_AUTH_STATE && this.auth == auth && storage == auth.storage
      ensures Valid()
    {
      this.auth := auth;
      storage := auth.storage;
      state := INITIAL_AUTH_STATE;
    }

    /** `incrementFailedAttempts`: count the failure, lock at the maximum, persist both. */
    method IncrementFailedAttempts(now: int, lockoutFails: bool, attemptsFails: bool)
      modifies this, storage
      ensures state == Incremented(old(state), now)
      ensures !attemptsFails ==> storage.GetFailedAttempts(false) == state.failedAttempts
      ensures state.failedAttempts >= MAX_LOGIN_ATTEMPTS && !lockoutFails ==>
        storage.GetLockoutTime(false) == state.lockoutEndTime
      ensures state.failedAttempts < MAX_LOGIN_ATTEMPTS ==>
        storage.GetLockoutTime(false) == old(storage.GetLockoutTime(false))
      ensures var locked := if state.failedAttempts >= MAX_LOGIN_ATTEMPTS && !lockoutFails
                            then old(storage.plain)[LOCKOUT_TIME_KEY := StoredNumber(now + LOCKOUT_DURATION)]
                            else old(storage.plain);
        storage.plain == if attemptsFails then locked else locked[FAILED_ATTEMPTS_KEY := StoredNumber(state.failedAttempts)]
      ensures storage.secure == old(storage.secure) && storage.encrypted == old(storage.encrypted)
    {
      state := state.(failedAttempts := state.failedAttempts + 1);
      if state.failedAttempts >= MAX_LOGIN_ATTEMPTS {
        state := state.(isLocked := true, lockoutEndTime := Some(now + LOCKOUT_DURATION));
        storage.StoreLockoutTime(now + LOCKOUT_DURATION, lockoutFails);
      }
      storage.StoreFailedAttempts(state.failedAttempts, attemptsFails);
    }

    /** `clearError`. */
    method ClearError()
      modifies this
      ensures state == old(state).(error := None)
    {
      state := state.(error := None);
    }

    /** `unlockAccount`: open the account, reset the counter, and persist 0 for both. */
    method UnlockAccount(attemptsFails: bool, lockoutFails: bool)
      modifies this, storage
      ensures state == old(state).(isLocked := false, lockoutEndTime := None, failedAttempts := 0)
      ensures !attemptsFails ==> storage.GetFailedAttempts(false) == 0
      ensures !lockoutFails ==> storage.GetLockoutTime(false) == Some(0)
      ensures var reset := if attemptsFails then old(storage.plain)
                           else old(storage.plain)[FAILED_ATTEMPTS_KEY := StoredNumber(0)];
        storage.plain == if lockoutFails then reset else reset[LOCKOUT_TIME_KEY := StoredNumber(0)]
      ensures storage.secure == old(storage.secure) && storage.encrypted == old(storage.encrypted)
    {
      state := state.(isLocked := false, lockoutEndTime := None, failedAttempts := 0);
      storage.StoreFailedAttempts(0, attemptsFails);
      storage.StoreLockoutTime(0, lockoutFails);
    }

    method LoginUserPending()
      modifies this
      ensures state == old(state).(isLoading := true, error := None)
    {
      state := state.(isLoading := true, error := None);
    }

    method LoginUserFulfilled(result: AuthResult)
      modifies this
      ensures state == LoginFulfilled(old(state), result)
    {
      state := state.(isLoading := false, isAuthenticated := true, user := Some(result.user));
      state := state.(sessionToken := Some(result.token), failedAttempts := 0, error := None);
    }

    method LoginUserRejected(message: string)
      modifies this
      ensures state == LoginRejected(old(state), message)
    {
      state := state.(isLoading := false, error := Some(message));
    }

    method VerifySessionPending()
      modifies this
      ensures state == old(state).(isLoading := true)
    {
      state := state.(isLoading := true);
    }

    method VerifySessionFulfilled(result: AuthResult)
      modifies this
      ensures state == old(state).(isLoading := false, isAuthenticated := true,
                                   user := Some(result.user), sessionToken := Some(result.token))
    {
      state := state.(isLoading := false, isAuthenticated := true);
      state := state.(user := Some(result.user), sessionToken := Some(result.token));
    }

    /** `verifySession.rejected`: signed out, but the message is not recorded. */
    method VerifySessionRejected()
      modifies this
      ensures state == old(state).(isLoading := false, isAuthenticated := false)
    {
      state := state.(isLoading := false, isAuthenticated := false);
    }

    /** `logoutUser.fulfilled`: a fresh copy of the initial state. */
    method LogoutUserFulfilled()
      modifies this
      ensures state == INITIAL_AUTH_STATE
    {
      state := INITIAL_AUTH_STATE;
    }

    method CheckLockoutStatusFulfilled(attempts: int, lockoutTime: Option<int>, now: int)
      modifies this
      ensures state == LockoutChecked(old(state), attempts, lockoutTime, now)
    {
      state := state.(failedAttempts := attempts);
      if lockoutTime.Some? && lockoutTime.value != 0 && now < lockoutTime.value {
        state := state.(isLocked := true, lockoutEndTime := lockoutTime);
      } else {
        state := state.(isLocked := false, lockoutEndTime := None);
      }
    }

    /**
     * The `loginUser` thunk with its three reducers: pending, then the service's login; on
     * success persist a zero count and sign in, otherwise record the message.
     */
    method LoginUser(credentials: Credentials, tokenNonce: Nonce, later: nat, faults: WriteFaults, attemptsFails: bool)
      returns (r: Result<AuthResult>)
      requires Valid()
      modifies this, storage
      ensures Valid()
      ensures var key := EmailKey.Normalize(credentials.email);
        r.Ok? <==> (key in auth.users
                    && auth.users[key].passwordHash == PasswordHash.HexString(PasswordHash.RollingHash(credentials.password))
                    && faults == NO_FAULTS)
      ensures var key := EmailKey.Normalize(credentials.email);
        !(key in auth.users
          && auth.users[key].passwordHash == PasswordHash.HexString(PasswordHash.RollingHash(credentials.password))) ==>
          r == Err(INVALID_LOGIN_ERROR) && unchanged(storage)
      ensures var key := EmailKey.Normalize(credentials.email);
        key in auth.users
        && auth.users[key].passwordHash == PasswordHash.HexString(PasswordHash.RollingHash(credentials.password)) ==>
          r == if faults.credentials then Err(CREDENTIALS_ERROR)
               else if faults.sessionToken then Err(SESSION_TOKEN_ERROR)
               else if faults.userData then Err(USER_DATA_ERROR)
               else Ok(AuthResult(auth.users[key].user, SessionToken.GenerateSessionToken(tokenNonce, later)))
      ensures var key := EmailKey.Normalize(credentials.email);
        r.Ok? ==> r.value == AuthResult(auth.users[key].user, SessionToken.GenerateSessionToken(tokenNonce, later))
      ensures r.Ok? ==>
        state == LoginFulfilled(old(state).(isLoading := true, error := None), r.value)
        && storage.GetCredentials(false) == Some(credentials)
        && storage.GetSessionToken(false) == Some(r.value.token)
        && storage.GetUserData(false) == Some(r.value.user)
        && storage.plain == if attemptsFails then old(storage.plain)
                            else old(storage.plain)[FAILED_ATTEMPTS_KEY := StoredNumber(0)]
      ensures r.Err? ==>
        state == LoginRejected(old(state).(isLoading := true, error := None), r.error)
        && storage.plain == old(storage.plain)
    {
      LoginUserPending();
      var result := auth.Login(credentials, tokenNonce, later, faults);
      if result.Ok? {
        storage.StoreFailedAttempts(0, attemptsFails);
        LoginUserFulfilled(result.value);
        r := result;
      } else {
        var message := RejectMessage(result.error, LOGIN_FAILED);
        LoginUserRejected(message);
        r := Err(message);
      }
    }

    /** The `verifySession` thunk: sign in from the stored session, or sign out when there is none. */
    method VerifySession(tokenFails: bool, userFails: bool) returns (r: Result<AuthResult>)
      modifies this
      ensures var found := auth.VerifySession(tokenFails, userFails);
        r == (if found.Some? then Ok(found.value) else Err(NO_SESSION))
        && state == if found.Some? then
          old(state).(isLoading := false, isAuthenticated := true,
                      user := Some(found.value.user), sessionToken := Some(found.value.token))
        else
          old(state).(isLoading := false, isAuthenticated := false)
    {
      VerifySessionPending();
      var found := auth.VerifySession(tokenFails, userFails);
      if found.Some? {
        VerifySessionFulfilled(found.value);
        r := Ok(found.value);
      } else {
        VerifySessionRejected();
        r := Err(NO_SESSION);
      }
    }

    /** The `logoutUser` thunk: the service's logout never fails, so the slice always resets. */
    method LogoutUser(removeFails: bool, clearFails: bool, multiRemoveFails: bool)
      requires Valid()
      modifies this, storage
      ensures Valid()
      ensures state == INITIAL_AUTH_STATE
      ensures storage.secure == if removeFails then old(storage.secure) else old(storage.secure) - {KEYCHAIN_SERVICE}
      ensures storage.encrypted == if clearFails then old(storage.encrypted) else map[]
      ensures storage.plain ==
        if clearFails || multiRemoveFails then old(storage.plain) else old(storage.plain) - PLAIN_KEYS
      ensures !clearFails ==> !auth.CheckSession(false, false).valid
    {
      var outcome := auth.Logout(removeFails, clearFails, multiRemoveFails);
      if outcome == Pass {
        LogoutUserFulfilled();
      }
    }

    /** The `checkLockoutStatus` thunk: read the persisted count and end time, then apply them. */
    method CheckLockoutStatus(now: int, attemptsFails: bool, lockoutFails: bool)
      modifies this
      ensures state == LockoutChecked(old(state), storage.GetFailedAttempts(attemptsFails),
                                      storage.GetLockoutTime(lockoutFails), now)
    {
      var attempts := storage.GetFailedAttempts(attemptsFails);
      var lockoutTime := storage.GetLockoutTime(lockoutFails);
      CheckLockoutStatusFulfilled(attempts, lockoutTime, now);
    }
  }

  /**
   * Five failures lock the account, and a slice started afresh over the same storage finds
   * it still locked before the end time.
   */
  method LockoutAcrossRestartScenario(auth: AuthService, now: int, later: int)
    returns (restarted: AuthSlice)
    requires auth.Valid() && 0 <= now && later < now + LOCKOUT_DURATION
    modifies auth.storage
    ensures restarted.state.isLocked && restarted.state.failedAttempts == MAX_LOGIN_ATTEMPTS
    ensures restarted.state.lockoutEndTime == Some(now + LOCKOUT_DURATION)
  {
    var slice := new AuthSlice(auth);
    slice.IncrementFailedAttempts(now, false, false);
    slice.IncrementFailedAttempts(now, false, false);
    slice.IncrementFailedAttempts(now, false, false);
    slice.IncrementFailedAttempts(now, false, false);
    slice.IncrementFailedAttempts(now, false, false);
    assert auth.storage.GetFailedAttempts(false) == MAX_LOGIN_ATTEMPTS;
    assert auth.storage.GetLockoutTime(false) == Some(now + LOCKOUT_DURATION);
    restarted := new AuthSlice(auth);
    restarted.CheckLockoutStatus(later, false, false);
  }

  /** After an unlock, a slice started afresh over the same storage finds the account open. */
  method UnlockAcrossRestartScenario(auth: AuthService, later: int)
    returns (reopened: AuthSlice)
    requires auth.Valid()
    modifies auth.storage
    ensures !reopened.state.isLocked && reopened.state.failedAttempts == 0
    ensures reopened.state.lockoutEndTime == None
  {
    var slice := new AuthSlice(auth);
    slice.UnlockAccount(false, false);
    reopened := new AuthSlice(auth);
    reopened.CheckLockoutStatus(later, false, false);
  }
}
