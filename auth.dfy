/**
 * The passcode gate of `AuthProvider`: an attempt counter, a lockout after
 * five wrong passcodes that lasts fifteen minutes, and a sign-in that expires
 * after twenty-four hours, all persisted in `localStorage` under four keys
 * and restored when the provider mounts.
 *
 * The browser's `localStorage` is the `storage` map from key to string; the
 * clock (`Date.now()`) is the `now` parameter, in milliseconds. The
 * configured passcode (`NEXT_PUBLIC_ACCESS_PASSCODE`) may be undefined, in
 * which case no passcode is accepted.
 */
module Auth {
  import opened Js

  const AuthKey := "mutumwa_auth"
  const ExpiryKey := "mutumwa_auth_expiry"
  const AttemptsKey := "mutumwa_attempts"
  const LockoutKey := "mutumwa_lockout"
  const AuthenticatedMarker := "authenticated"

  const MaxAttempts := 5
  /** Fifteen minutes, in milliseconds. */
  const LockoutTime := 15 * 60 * 1000
  /** Twenty-four hours, in milliseconds. */
  const SessionLifetime := 24 * 60 * 60 * 1000

  type Storage = map<string, string>

  /** The four storage keys are distinct (they differ in length). */
  lemma KeysDistinct()
    ensures AuthKey != ExpiryKey && AuthKey != AttemptsKey && AuthKey != LockoutKey
    ensures ExpiryKey != AttemptsKey && ExpiryKey != LockoutKey && AttemptsKey != LockoutKey
  {
    assert |AuthKey| == 12 && |ExpiryKey| == 19 && |AttemptsKey| == 16 && |LockoutKey| == 15;
  }

  /** The provider's state fields together with the storage they persist to. */
  datatype Gate = Gate(
    isAuthenticated: bool,
    isLoading: bool,
    attemptCount: JsNumber,
    isLockedOut: bool,
    lockoutEndTime: int,
    storage: Storage)

  /** The state right after mounting, before the restore effect has run. */
  function Mounted(storage: Storage): Gate
  {
    Gate(false, true, Num(0), false, 0, storage)
  }

  /** `localStorage.getItem(key)` is a non-empty string (JavaScript truthiness). */
  predicate Present(storage: Storage, key: string)
  {
    key in storage && storage[key] != ""
  }

  /** The lockout part of `checkAuth`, over the items read into `s`. */
  function RestoreLockout(g: Gate, s: Storage, now: nat): (r: Gate)
    ensures r.isLockedOut <==> g.isLockedOut || (Present(s, LockoutKey) && LessThan(now, ParseInt(s[LockoutKey])))
    ensures r.isAuthenticated == g.isAuthenticated && r.attemptCount == g.attemptCount
    ensures r.storage.Keys <= g.storage.Keys
    ensures forall k :: k in r.storage ==> r.storage[k] == g.storage[k]
  {
    if Present(s, LockoutKey) then
      var lockoutTime := ParseInt(s[LockoutKey]);
      if LessThan(now, lockoutTime) then g.(isLockedOut := true, lockoutEndTime := lockoutTime.n)
      else g.(storage := g.storage - {LockoutKey} - {AttemptsKey})
    else g
  }

  /** The attempt-count part of `checkAuth`, over the items read into `s`. */
  function RestoreAttempts(g: Gate, s: Storage): (r: Gate)
    ensures r.isLockedOut == g.isLockedOut && r.isAuthenticated == g.isAuthenticated && r.storage == g.storage
  {
    if Present(s, AttemptsKey) then g.(attemptCount := ParseInt(s[AttemptsKey])) else g
  }

  /** The sign-in part of `checkAuth`, over the items read into `s`. */
  function RestoreSignIn(g: Gate, s: Storage, now: nat): (r: Gate)
    ensures r.isLockedOut == g.isLockedOut
    ensures r.isAuthenticated <==> (g.isAuthenticated || (
      && Present(s, AuthKey) && Present(s, ExpiryKey)
      && s[AuthKey] == AuthenticatedMarker
      && LessThan(now, ParseInt(s[ExpiryKey]))))
    ensures r.storage.Keys <= g.storage.Keys
    ensures forall k :: k in r.storage ==> r.storage[k] == g.storage[k]
  {
    if Present(s, AuthKey) && Present(s, ExpiryKey) then
      if LessThan(now, ParseInt(s[ExpiryKey])) && s[AuthKey] == AuthenticatedMarker then g.(isAuthenticated := true)
      else g.(storage := g.storage - {AuthKey} - {ExpiryKey})
    else g
  }

  /**
   * The `checkAuth` restore logic. All four items are read before anything is
   * removed, so an attempt count that the expired-lockout branch deletes is
   * still loaded from the value read beforehand.
   */
  function Restore(g: Gate, now: nat): (r: Gate)
    ensures !r.isLoading
    ensures r.isLockedOut <==> g.isLockedOut || (Present(g.storage, LockoutKey) && LessThan(now, ParseInt(g.storage[LockoutKey])))
    ensures r.isAuthenticated <==> (g.isAuthenticated || (
      && Present(g.storage, AuthKey) && Present(g.storage, ExpiryKey)
      && g.storage[AuthKey] == AuthenticatedMarker
      && LessThan(now, ParseInt(g.storage[ExpiryKey]))))
    ensures r.storage.Keys <= g.storage.Keys
    ensures forall k :: k in r.storage ==> r.storage[k] == g.storage[k]
  {
    var s := g.storage;
    RestoreSignIn(RestoreAttempts(RestoreLockout(g, s, now), s), s, now).(isLoading := false)
  }

  /** `login(passcode)`: the new state and the returned flag. */
  function LoginStep(g: Gate, valid: Option<string>, passcode: string, now: nat): (r: (Gate, bool))
    // Locked out: nothing changes, not even the attempt count.
    ensures g.isLockedOut && now < g.lockoutEndTime ==> r == (g, false)
    // Only the configured passcode signs in.
    ensures r.1 <==> !(g.isLockedOut && now < g.lockoutEndTime) && valid == Some(passcode)
    ensures r.1 ==> && r.0.isAuthenticated && r.0.attemptCount == Num(0) && !r.0.isLockedOut
                    && AttemptsKey !in r.0.storage && LockoutKey !in r.0.storage
                    && AuthKey in r.0.storage && r.0.storage[AuthKey] == AuthenticatedMarker
                    && ExpiryKey in r.0.storage && r.0.storage[ExpiryKey] == IntToString(now + SessionLifetime)
    // A wrong passcode counts, and the fifth consecutive one locks.
    ensures !(g.isLockedOut && now < g.lockoutEndTime) && valid != Some(passcode) ==>
      && r.0.attemptCount == Inc(g.attemptCount)
      && AttemptsKey in r.0.storage && r.0.storage[AttemptsKey] == NumberToString(Inc(g.attemptCount))
      && r.0.isAuthenticated == g.isAuthenticated
      && (AtLeast(Inc(g.attemptCount), MaxAttempts) ==>
            r.0.isLockedOut && r.0.lockoutEndTime == now + LockoutTime
            && LockoutKey in r.0.storage && r.0.storage[LockoutKey] == IntToString(now + LockoutTime))
      && (!AtLeast(Inc(g.attemptCount), MaxAttempts) ==>
            r.0.isLockedOut == g.isLockedOut && r.0.lockoutEndTime == g.lockoutEndTime
            && r.0.storage == g.storage[AttemptsKey := NumberToString(Inc(g.attemptCount))])
    ensures r.0.isLoading == g.isLoading
  {
    KeysDistinct();
    if g.isLockedOut && now < g.lockoutEndTime then
      (g, false)
    else if valid == Some(passcode) then
      var s := g.storage - {AttemptsKey} - {LockoutKey};
      var s' := s[AuthKey := AuthenticatedMarker][ExpiryKey := IntToString(now + SessionLifetime)];
      (g.(isAuthenticated := true, attemptCount := Num(0), isLockedOut := false, storage := s'), true)
    else
      var count := Inc(g.attemptCount);
      var s := g.storage[AttemptsKey := NumberToString(count)];
      if AtLeast(count, MaxAttempts) then
        var lockoutEnd := now + LockoutTime;
        (g.(attemptCount := count, isLockedOut := true, lockoutEndTime := lockoutEnd,
            storage := s[LockoutKey := IntToString(lockoutEnd)]), false)
      else
        (g.(attemptCount := count, storage := s), false)
  }

  /**
   * What `login` leaves alone: a sign-in keeps the lockout end time and
   * every key but the four it removes or writes; a locking failure keeps
   * every key but the two it writes.
   */
  lemma LoginStepFrame(g: Gate, valid: Option<string>, passcode: string, now: nat)
    ensures var r := LoginStep(g, valid, passcode, now);
      && (r.1 ==>
            && r.0.lockoutEndTime == g.lockoutEndTime
            && r.0.storage.Keys == g.storage.Keys - {AttemptsKey, LockoutKey} + {AuthKey, ExpiryKey}
            && forall k :: k in g.storage && k != AttemptsKey && k != LockoutKey && k != AuthKey && k != ExpiryKey ==>
                 r.0.storage[k] == g.storage[k])
      && (!r.1 && !(g.isLockedOut && now < g.lockoutEndTime) && AtLeast(Inc(g.attemptCount), MaxAttempts) ==>
            && r.0.storage.Keys == g.storage.Keys + {AttemptsKey, LockoutKey}
            && forall k :: k in g.storage && k != AttemptsKey && k != LockoutKey ==> r.0.storage[k] == g.storage[k])
  {
  }

  /** `logout()`: only the sign-in and its two keys are affected. */
  function LogoutStep(g: Gate): (r: Gate)
    ensures !r.isAuthenticated
    ensures AuthKey !in r.storage && ExpiryKey !in r.storage
    ensures forall k :: k in g.storage && k != AuthKey && k != ExpiryKey ==> k in r.storage && r.storage[k] == g.storage[k]
    ensures r.storage.Keys <= g.storage.Keys
    ensures r.(isAuthenticated := g.isAuthenticated, storage := g.storage) == g
  {
    g.(isAuthenticated := false, storage := g.storage - {AuthKey, ExpiryKey})
  }

  // -----------------------------------------------------------------------
  // Round trips through storage: what a later mount restores

  /**
   * After a successful sign-in at `t`, a page loaded at `t'` is signed in
   * exactly when `t'` is within twenty-four hours of `t`; otherwise both
   * sign-in keys are removed. Attempt and lockout data are gone either way.
   */
  lemma SignInSurvivesReload(g: Gate, valid: Option<string>, passcode: string, t: nat, t': nat)
    requires !(g.isLockedOut && t < g.lockoutEndTime)
    requires valid == Some(passcode)
    ensures var r := Restore(Mounted(LoginStep(g, valid, passcode, t).0.storage), t');
      && (r.isAuthenticated <==> t' < t + SessionLifetime)
      && (t' >= t + SessionLifetime ==> AuthKey !in r.storage && ExpiryKey !in r.storage)
      && !r.isLockedOut && r.attemptCount == Num(0) && !r.isLoading
  {
    ParseIntOfIntToString(t + SessionLifetime);
  }

  /**
   * Restoring from storage that holds a lockout end `end` and a count:
   * locked until `end`, and afterwards unlocked with both keys removed but
   * the count still loaded.
   */
  lemma RestoreStoredLockout(s: Storage, end: nat, count: JsNumber, now: nat)
    requires LockoutKey in s && s[LockoutKey] == IntToString(end)
    requires AttemptsKey in s && s[AttemptsKey] == NumberToString(count)
    ensures var r := Restore(Mounted(s), now);
      && (now < end ==> r.isLockedOut && r.lockoutEndTime == end)
      && (now >= end ==>
            && !r.isLockedOut && LockoutKey !in r.storage && AttemptsKey !in r.storage
            && r.attemptCount == count)
  {
    KeysDistinct();
    ParseIntOfIntToString(end);
    ParseIntOfNumberToString(count);
    assert Present(s, LockoutKey) && Present(s, AttemptsKey);
    var l := RestoreLockout(Mounted(s), s, now);
    var a := RestoreAttempts(l, s);
    assert a.attemptCount == count;
    if now >= end {
      assert l.storage == s - {LockoutKey} - {AttemptsKey};
    }
  }

  /**
   * After the wrong passcode that triggers the lockout at `t`, a page loaded
   * before the lockout ends is locked until the same end time; one loaded
   * later has the lockout and attempts keys removed but, because the count is
   * read before the removal, still starts from the stored count.
   */
  lemma LockoutSurvivesReload(g: Gate, valid: Option<string>, passcode: string, t: nat, t': nat)
    requires !(g.isLockedOut && t < g.lockoutEndTime)
    requires valid != Some(passcode)
    requires AtLeast(Inc(g.attemptCount), MaxAttempts)
    ensures var r := Restore(Mounted(LoginStep(g, valid, passcode, t).0.storage), t');
      && (t' < t + LockoutTime ==> r.isLockedOut && r.lockoutEndTime == t + LockoutTime)
      && (t' >= t + LockoutTime ==>
            && !r.isLockedOut && LockoutKey !in r.storage && AttemptsKey !in r.storage
            && r.attemptCount == Inc(g.attemptCount))
  {
    var s := LoginStep(g, valid, passcode, t).0.storage;
    RestoreStoredLockout(s, t + LockoutTime, Inc(g.attemptCount), t');
  }

  /**
   * A consequence of the stale count: once a lockout has expired and the page
   * is reloaded, a single wrong passcode locks it again for fifteen minutes.
   */
  lemma RelockAfterExpiredLockout(g: Gate, valid: Option<string>, passcode: string, t: nat, t': nat, wrong: string)
    requires !(g.isLockedOut && t < g.lockoutEndTime)
    requires valid != Some(passcode) && valid != Some(wrong)
    requires AtLeast(Inc(g.attemptCount), MaxAttempts)
    requires t' >= t + LockoutTime
    ensures var r := Restore(Mounted(LoginStep(g, valid, passcode, t).0.storage), t');
      var after := LoginStep(r, valid, wrong, t');
      after.0.isLockedOut && after.0.lockoutEndTime == t' + LockoutTime
  {
    LockoutSurvivesReload(g, valid, passcode, t, t');
  }

  /** Signing out leaves the attempt and lockout data for the next mount. */
  lemma LogoutKeepsLockout(g: Gate, now: nat)
    ensures var r := Restore(Mounted(LogoutStep(g).storage), now);
      && !r.isAuthenticated
      && r.isLockedOut == Restore(Mounted(g.storage), now).isLockedOut
      && r.attemptCount == Restore(Mounted(g.storage), now).attemptCount
  {
  }

  /** A second lockout step after a restore changes nothing. */
  lemma LockoutStepStable(g: Gate, now: nat)
    ensures var r := Restore(g, now); RestoreLockout(r, r.storage, now) == r
  {
    KeysDistinct();
    var r := Restore(g, now);
    if Present(r.storage, LockoutKey) {
      assert r.storage[LockoutKey] == g.storage[LockoutKey];
      assert RestoreLockout(g, g.storage, now).isLockedOut;
    }
  }

  /** A second attempt-count step after a restore changes nothing. */
  lemma AttemptsStepStable(g: Gate, now: nat)
    ensures var r := Restore(g, now); RestoreAttempts(r, r.storage) == r
  {
    KeysDistinct();
    var r := Restore(g, now);
    if Present(r.storage, AttemptsKey) {
      assert r.storage[AttemptsKey] == g.storage[AttemptsKey];
    }
  }

  /** A second sign-in step after a restore changes nothing. */
  lemma SignInStepStable(g: Gate, now: nat)
    ensures var r := Restore(g, now); RestoreSignIn(r, r.storage, now) == r
  {
    KeysDistinct();
    var r := Restore(g, now);
    if Present(r.storage, AuthKey) && Present(r.storage, ExpiryKey) {
      assert r.storage[AuthKey] == g.storage[AuthKey] && r.storage[ExpiryKey] == g.storage[ExpiryKey];
    }
  }

  /** Running the restore logic a second time changes nothing further. */
  lemma RestoreIdempotent(g: Gate, now: nat)
    ensures Restore(Restore(g, now), now) == Restore(g, now)
  {
    LockoutStepStable(g, now);
    AttemptsStepStable(g, now);
    SignInStepStable(g, now);
  }

  // -----------------------------------------------------------------------
  // The provider object

  class AuthProvider {
    /** `NEXT_PUBLIC_ACCESS_PASSCODE`, possibly undefined. */
    const validPasscode: Option<string>
    var isAuthenticated: bool
    var isLoading: bool
    var attemptCount: JsNumber
    var isLockedOut: bool
    var lockoutEndTime: int
    /** `localStorage` */
    var storage: Storage

    function State(): Gate
      reads this
    {
      Gate(isAuthenticated, isLoading, attemptCount, isLockedOut, lockoutEndTime, storage)
    }

    /** The initial `useState` values over the browser's current storage. */
    constructor (validPasscode: Option<string>, storage: Storage)
      ensures this.validPasscode == validPasscode
      ensures State() == Mounted(storage)
    {
      this.validPasscode := validPasscode;
      isAuthenticated := false;
      isLoading := true;
      attemptCount := Num(0);
      isLockedOut := false;
      lockoutEndTime := 0;
      this.storage := storage;
    }

    /** The mount effect `checkAuth`. */
    method CheckAuth(now: nat)
      modifies this
      ensures State() == Restore(old(State()), now)
    {
      // All four items are read first.
      var s := storage;
      CheckLockout(s, now);
      LoadAttempts(s);
      CheckSignIn(s, now);
      isLoading := false;
    }

    /** The lockout step of `checkAuth`: a lockout still running is restored, an expired one removed with the attempt count. */
    method CheckLockout(s: Storage, now: nat)
      modifies this
      ensures State() == RestoreLockout(old(State()), s, now)
    {
      if Present(s, LockoutKey) {
        var lockoutTime := ParseInt(s[LockoutKey]);
        if LessThan(now, lockoutTime) {
          isLockedOut := true;
          lockoutEndTime := lockoutTime.n;
        } else {
          storage := storage - {LockoutKey};
          storage := storage - {AttemptsKey};
        }
      }
    }

    /** The attempt-count step of `checkAuth`: the count read at the start is loaded. */
    method LoadAttempts(s: Storage)
      modifies this
      ensures State() == RestoreAttempts(old(State()), s)
    {
      if Present(s, AttemptsKey) {
        attemptCount := ParseInt(s[AttemptsKey]);
      }
    }

    /** The sign-in step of `checkAuth`: a sign-in that has not expired is restored, otherwise both of its keys are removed. */
    method CheckSignIn(s: Storage, now: nat)
      modifies this
      ensures State() == RestoreSignIn(old(State()), s, now)
    {
      if Present(s, AuthKey) && Present(s, ExpiryKey) {
        var expiryTime := ParseInt(s[ExpiryKey]);
        if LessThan(now, expiryTime) && s[AuthKey] == AuthenticatedMarker {
          isAuthenticated := true;
        } else {
          storage := storage - {AuthKey};
          storage := storage - {ExpiryKey};
        }
      }
    }

    /** `login(passcode)` */
    method Login(passcode: string, now: nat) returns (ok: bool)
      modifies this
      ensures (State(), ok) == LoginStep(old(State()), validPasscode, passcode, now)
    {
      KeysDistinct();
      if isLockedOut && now < lockoutEndTime {
        return false;
      }
      if validPasscode == Some(passcode) {
        isAuthenticated := true;
        attemptCount := Num(0);
        isLockedOut := false;
        storage := storage - {AttemptsKey};
        storage := storage - {LockoutKey};
        var expiryTime := now + SessionLifetime;
        storage := storage[AuthKey := AuthenticatedMarker];
        storage := storage[ExpiryKey := IntToString(expiryTime)];
        return true;
      } else {
        var newAttemptCount := Inc(attemptCount);
        attemptCount := newAttemptCount;
        storage := storage[AttemptsKey := NumberToString(newAttemptCount)];
        if AtLeast(newAttemptCount, MaxAttempts) {
          var lockoutEnd := now + LockoutTime;
          isLockedOut := true;
          lockoutEndTime := lockoutEnd;
          storage := storage[LockoutKey := IntToString(lockoutEnd)];
        }
        return false;
      }
    }

    /** `logout()` */
    method Logout()
      modifies this
      ensures State() == LogoutStep(old(State()))
    {
      isAuthenticated := false;
      storage := storage - {AuthKey};
      storage := storage - {ExpiryKey};
    }
  }
}
