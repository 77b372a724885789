/**
 * The passcode form of `LoginPage`: the `m:ss` rendering of the lockout
 * countdown, the countdown clamp, and the guards and messages of the submit
 * handler. The `onLogin` callback is the caller's; the value it returns when
 * it is called is a parameter of `Submit`.
 */
module Login {
  import opened Js
  import Auth

  /** `s.padStart(n, c)` */
  function PadStart(s: string, n: nat, c: char): (r: string)
    ensures |r| == if |s| >= n then |s| else n
    ensures r[|r| - |s|..] == s
    ensures forall i :: 0 <= i < |r| - |s| ==> r[i] == c
    decreases n - |s|
  {
    if |s| >= n then s else PadStart([c] + s, n, c)
  }

  /** The seconds part of `formatTime(ms)`. */
  function Seconds(ms: nat): (s: nat)
    ensures s < 60
  {
    (ms % 60000) / 1000
  }

  /** `seconds.toString().padStart(2, '0')` for the seconds of a clock. */
  function TwoDigits(seconds: nat): (r: string)
    requires seconds < 60
    ensures |r| == 2 && AllDigits(r) && DecimalValue(r) == seconds
  {
    PaddedSeconds(seconds);
    PadStart(NatToString(seconds), 2, '0')
  }

  lemma PaddedSeconds(seconds: nat)
    requires seconds < 60
    ensures var r := PadStart(NatToString(seconds), 2, '0');
      |r| == 2 && AllDigits(r) && DecimalValue(r) == seconds
  {
    var d := NatToString(seconds);
    DecimalOfNatToString(seconds);
    var r := PadStart(d, 2, '0');
    if seconds < 10 {
      assert r == ['0'] + d;
      assert r[..1] == ['0'];
    } else {
      assert d == NatToString(seconds / 10) + [DigitChar(seconds % 10)];
      assert r == d;
    }
  }

  /** `formatTime(ms)`: whole minutes, a colon, and two-digit seconds. */
  function FormatTime(ms: nat): string
  {
    NatToString(ms / 60000) + ":" + TwoDigits(Seconds(ms))
  }

  /** Whole minutes times sixty plus the seconds is the whole seconds left. */
  lemma FormatTimeSplitsSeconds(ms: nat)
    ensures (ms / 60000) * 60 + Seconds(ms) == ms / 1000
  {
    var m := ms / 60000;
    var rest := ms % 60000;
    assert ms == m * 60000 + rest;
    assert ms / 1000 == m * 60 + rest / 1000 by {
      assert m * 60000 + rest == (m * 60 + rest / 1000) * 1000 + rest % 1000;
    }
  }

  /**
   * An independent reading of an `m:ss` clock: minutes, a colon, exactly two
   * digits below sixty; the value is the number of whole seconds.
   */
  function ReadClock(text: string): Option<nat>
  {
    var parts := Split(text, ':');
    if |parts| == 2 && parts[0] != [] && AllDigits(parts[0])
       && |parts[1]| == 2 && AllDigits(parts[1]) && DecimalValue(parts[1]) < 60
    then Some(DecimalValue(parts[0]) * 60 + DecimalValue(parts[1]))
    else None
  }

  /** Reading minutes, a colon and two digits below sixty gives `value`, the seconds they count. */
  lemma {:induction false} ReadClockOfParts(minutes: string, sec: string, value: nat)
    requires minutes != [] && AllDigits(minutes)
    requires |sec| == 2 && AllDigits(sec) && DecimalValue(sec) < 60
    requires value == DecimalValue(minutes) * 60 + DecimalValue(sec)
    ensures ReadClock(minutes + ":" + sec) == Some(value)
  {
    assert minutes + ":" + sec == minutes + [':'] + sec;
    assert ':' !in minutes;
    assert ':' !in sec;
    SplitAt(minutes, ':', sec);
    SplitWithout(sec, ':');
  }

  /** Reading the rendered countdown gives back the whole seconds remaining. */
  lemma ReadClockOfFormatTime(ms: nat)
    ensures ReadClock(FormatTime(ms)) == Some(ms / 1000)
  {
    DecimalOfNatToString(ms / 60000);
    FormatTimeSplitsSeconds(ms);
    ReadClockOfParts(NatToString(ms / 60000), TwoDigits(Seconds(ms)), ms / 1000);
  }

  /** The full lockout of fifteen minutes renders as "15:00". */
  lemma FormatFullLockout()
    ensures FormatTime(Auth.LockoutTime) == "15:00"
  {
    var ms := Auth.LockoutTime;
    assert ms == 900000;
    assert ms / 60000 == 15;
    assert Seconds(ms) == 0;
    assert NatToString(1) == ['1'];
    assert NatToString(15) == NatToString(1) + [DigitChar(5)];
    assert NatToString(15) == "15";
    assert NatToString(0) == "0";
    assert TwoDigits(0) == "00";
    assert FormatTime(ms) == NatToString(15) + ":" + TwoDigits(0);
  }

  /** `Math.max(0, lockoutEndTime - Date.now())`: the countdown value. */
  function Countdown(lockoutEndTime: int, now: int): (r: nat)
    ensures r == 0 <==> lockoutEndTime <= now
    ensures r > 0 ==> now + r == lockoutEndTime
  {
    if lockoutEndTime - now > 0 then lockoutEndTime - now else 0
  }

  /** The messages the form can show; `Text` gives their wording. */
  datatype FormError =
    | NoError
    | LockedFor(timeRemaining: nat)
    | EmptyPasscode
    | TemporarilyLocked
    | Invalid(remaining: nat)

  function Text(e: FormError): string
  {
    match e
    case NoError => ""
    case LockedFor(ms) => "Too many failed attempts. Try again in " + FormatTime(ms)
    case EmptyPasscode => "Please enter a passcode"
    case TemporarilyLocked => "Too many failed attempts. Account temporarily locked."
    case Invalid(n) => "Invalid passcode. " + NatToString(n) + " attempt" + (if n != 1 then "s" else "") + " remaining."
  }

  /** The message after `onLogin` rejected the passcode. */
  function FailureMessage(maxAttempts: int, attemptCount: int): (e: FormError)
    ensures e.TemporarilyLocked? <==> maxAttempts - attemptCount - 1 <= 0
    ensures e.Invalid? <==> maxAttempts - attemptCount - 1 > 0
    ensures e.Invalid? ==> e.remaining == maxAttempts - attemptCount - 1
  {
    var remaining := maxAttempts - attemptCount - 1;
    if remaining <= 0 then TemporarilyLocked else Invalid(remaining)
  }

  /** "attempt" takes a plural "s" for every count except one. */
  lemma InvalidWording(n: nat)
    ensures Text(Invalid(n)) == "Invalid passcode. " + NatToString(n)
                               + (if n == 1 then " attempt remaining." else " attempts remaining.")
  {
    var head := "Invalid passcode. " + NatToString(n);
    if n == 1 {
      assert head + " attempt" + "" + " remaining." == head + " attempt remaining.";
    } else {
      assert head + " attempt" + "s" + " remaining." == head + " attempts remaining.";
    }
  }

  /**
   * With the gate's own limit, the form announces the lockout on exactly the
   * wrong passcode that makes the gate lock: the count the page shows is the
   * one from before the call, and the gate locks once that count plus one
   * reaches the limit.
   */
  lemma FailureMessageAgreesWithGate(attemptCount: int)
    ensures FailureMessage(Auth.MaxAttempts, attemptCount) == TemporarilyLocked
        <==> AtLeast(Inc(Num(attemptCount)), Auth.MaxAttempts)
  {
  }

  class LoginForm {
    var passcode: string
    var error: FormError
    var isLoading: bool
    var timeRemaining: nat

    constructor ()
      ensures passcode == "" && error == NoError && !isLoading && timeRemaining == 0
    {
      passcode := "";
      error := NoError;
      isLoading := false;
      timeRemaining := 0;
    }

    /**
     * One tick of the lockout countdown; `reload` says the interval stops and
     * the page reloads.
     */
    method Tick(lockoutEndTime: int, now: int) returns (reload: bool)
      modifies this`timeRemaining
      ensures timeRemaining == Countdown(lockoutEndTime, now)
      ensures reload <==> now >= lockoutEndTime
    {
      var remaining := Countdown(lockoutEndTime, now);
      timeRemaining := remaining;
      reload := remaining == 0;
    }

    /**
     * `handleSubmit`. `sent` is the passcode handed to `onLogin`, or `None`
     * when the guards stop the submission first; `loginSucceeds` is what
     * `onLogin` returns when called.
     */
    method Submit(isLockedOut: bool, attemptCount: int, maxAttempts: int, loginSucceeds: bool)
      returns (sent: Option<string>)
      modifies this`error, this`passcode, this`isLoading
      ensures isLockedOut ==>
        sent == None && error == LockedFor(timeRemaining)
        && passcode == old(passcode) && isLoading == old(isLoading)
      ensures !isLockedOut && Trim(old(passcode)) == [] ==>
        sent == None && error == EmptyPasscode
        && passcode == old(passcode) && isLoading == old(isLoading)
      ensures !isLockedOut && Trim(old(passcode)) != [] ==>
        sent == Some(old(passcode)) && !isLoading
        && (loginSucceeds ==> error == NoError && passcode == old(passcode))
        && (!loginSucceeds ==> error == FailureMessage(maxAttempts, attemptCount) && passcode == "")
    {
      if isLockedOut {
        error := LockedFor(timeRemaining);
        return None;
      }
      if Trim(passcode) == [] {
        error := EmptyPasscode;
        return None;
      }
      isLoading := true;
      error := NoError;
      sent := Some(passcode);
      var success := loginSucceeds;
      if !success {
        error := FailureMessage(maxAttempts, attemptCount);
        passcode := "";
      }
      isLoading := false;
    }
  }
}
