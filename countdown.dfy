/** The lock screen's timed access: the expiry test applied to a timed code
    at login, the once-a-second countdown that ends the session, and the
    `HH:MM:SS` display of the remaining seconds. */
module Countdown {
  import opened Common

  // ---------------------------------------------------------------------------
  // formatTime
  // ---------------------------------------------------------------------------

  /** `n.toString().padStart(2, '0')`. */
  function Pad2(n: nat): (r: string)
    ensures |r| >= 2 && DecimalValue(r) == n
    ensures forall k :: 0 <= k < |r| ==> '0' <= r[k] <= '9'
    ensures n < 100 ==> |r| == 2
    ensures n >= 100 ==> r == Decimal(n)
  {
    DecimalRoundTrip(n);
    DecimalLength(n);
    if |Decimal(n)| < 2 then
      LeadingZero(Decimal(n));
      "0" + Decimal(n)
    else Decimal(n)
  }

  /** `formatTime(seconds)` for a non-negative number of seconds. */
  function FormatTime(seconds: nat): string
  {
    var h := seconds / 3600;
    var m := (seconds % 3600) / 60;
    var s := seconds % 60;
    Pad2(h) + ":" + Pad2(m) + ":" + Pad2(s)
  }

  /** The three fields split the seconds exactly, minutes and seconds below 60. */
  lemma FieldsSplitSeconds(seconds: nat)
    ensures var h, m, s := seconds / 3600, (seconds % 3600) / 60, seconds % 60;
      h * 3600 + m * 60 + s == seconds && 0 <= m < 60 && 0 <= s < 60
  {
    var h, r := seconds / 3600, seconds % 3600;
    assert seconds == h * 3600 + r && 0 <= r < 3600;
    var m, s := r / 60, r % 60;
    assert r == m * 60 + s && 0 <= s < 60;
    assert seconds == (h * 60 + m) * 60 + s;
    assert seconds % 60 == s;
  }

  /** Reads a display back: hours are everything before the last six
      characters, then `:MM:SS`. */
  function ClockValue(r: string): nat
    requires |r| >= 6
  {
    DecimalValue(r[..|r| - 6]) * 3600 + DecimalValue(r[|r| - 5..|r| - 3]) * 60 + DecimalValue(r[|r| - 2..])
  }

  /** The display loses nothing: hours are never truncated, so reading the
      display back gives the seconds. */
  lemma FormatTimeRoundTrip(seconds: nat)
    ensures |FormatTime(seconds)| >= 8
    ensures ClockValue(FormatTime(seconds)) == seconds
  {
    var h, m, s := seconds / 3600, (seconds % 3600) / 60, seconds % 60;
    FieldsSplitSeconds(seconds);
    var r := FormatTime(seconds);
    var ph, pm, ps := Pad2(h), Pad2(m), Pad2(s);
    assert r == ph + ":" + pm + ":" + ps;
    assert |pm| == 2 && |ps| == 2;
    assert r[..|r| - 6] == ph;
    assert r[|r| - 5..|r| - 3] == pm;
    assert r[|r| - 2..] == ps;
  }

  /** The display is exactly `HH:MM:SS` (eight characters, colons at 2 and
      5, digits elsewhere) precisely below 100 hours. */
  lemma FormatTimeShape(seconds: nat)
    ensures |FormatTime(seconds)| == 8 <==> seconds < 360000
    ensures seconds < 360000 ==>
      var r := FormatTime(seconds);
      && r[2] == ':' && r[5] == ':'
      && forall k :: 0 <= k < 8 && k != 2 && k != 5 ==> '0' <= r[k] <= '9'
  {
    var h := seconds / 3600;
    DecimalLength(h);
    var r := FormatTime(seconds);
    if seconds < 360000 {
      var ph, pm, ps := Pad2(h), Pad2((seconds % 3600) / 60), Pad2(seconds % 60);
      assert r == ph + ":" + pm + ":" + ps;
      forall k | 0 <= k < 8 && k != 2 && k != 5
        ensures '0' <= r[k] <= '9'
      {
        if k < 2 {
          assert r[k] == ph[k];
        } else if k < 5 {
          assert r[k] == pm[k - 3];
        } else {
          assert r[k] == ps[k - 6];
        }
      }
    }
  }

  // ---------------------------------------------------------------------------
  // The countdown updater and the timer condition
  // ---------------------------------------------------------------------------

  /** What one tick of the countdown does to `timeLeft`, and whether it ends
      the session (`accessType` back to `'none'`, password cleared). */
  datatype TickResult = TickResult(next: int, expired: bool)

  /** The updater passed to `setTimeLeft` each second; `None` is `null`. */
  function Tick(prev: Option<int>): (r: TickResult)
    ensures r.expired <==> prev.Some? && prev.value != 0 && prev.value <= 1
    ensures r.expired ==> r.next == 0
    ensures !r.expired ==> r.next == (if prev.Some? && prev.value != 0 then prev.value - 1 else 0)
  {
    if prev.Some? && prev.value != 0 && prev.value <= 1 then TickResult(0, true)
    else TickResult(if prev.Some? && prev.value != 0 then prev.value - 1 else 0, false)
  }

  /** The timer runs only for timed access with seconds left. */
  predicate TimerRuns(access: string, timeLeft: Option<int>)
  {
    access == "timed" && timeLeft.Some? && timeLeft.value > 0
  }

  /** The value `timeLeft` holds after `k` ticks started from `n` seconds. */
  function AfterTicks(n: int, k: nat): Option<int>
  {
    if k == 0 then Some(n) else Some(Tick(AfterTicks(n, k - 1)).next)
  }

  /** Started from `n > 0` seconds, the countdown passes through every value
      down to 1 without ending the session, and the `n`-th tick ends it at 0. */
  lemma {:induction false} CountdownEndsOnTime(n: int, k: nat)
    requires n > 0 && k <= n
    ensures AfterTicks(n, k) == Some(n - k)
    ensures k < n ==> TimerRuns("timed", AfterTicks(n, k))
    ensures 0 < k < n ==> !Tick(AfterTicks(n, k - 1)).expired
    ensures k == n ==> Tick(AfterTicks(n, k - 1)).expired
  {
    if k > 0 {
      CountdownEndsOnTime(n, k - 1);
    }
  }

  // ---------------------------------------------------------------------------
  // The expiry test at login
  // ---------------------------------------------------------------------------

  /** The code record the lookup returns. `expiresAt` holds the expiry in
      milliseconds when the record has one. */
  datatype CodeRecord = CodeRecord(isActive: Option<bool>, codeType: string, expiresAt: Option<int>)

  datatype LoginError = WrongCode | CodeDisabled | CodeExpired

  /** `Granted` carries the new access type and, for a timed code, the
      seconds left (`None`: `timeLeft` is not set). */
  datatype LoginResult = Denied(error: LoginError) | Granted(access: string, timeLeft: Option<int>)

  /** `Math.floor((expires - now) / 1000)`. */
  function SecondsLeft(expires: int, now: int): int
  {
    (expires - now) / 1000
  }

  /** The login decision once the lookup has answered (`None`: an error or
      no row); `now` is the clock in milliseconds. */
  function CheckCode(record: Option<CodeRecord>, now: int): (r: LoginResult)
    ensures record.None? ==> r == Denied(WrongCode)
    ensures record.Some? && record.value.isActive == Some(false) ==> r == Denied(CodeDisabled)
    ensures r == Denied(CodeExpired) <==>
      record.Some? && record.value.isActive != Some(false) && record.value.codeType == "timed"
      && record.value.expiresAt.Some? && record.value.expiresAt.value - now < 1000
    ensures r.Granted? ==> r.access == record.value.codeType
    ensures r.Granted? && r.timeLeft.Some? ==> TimerRuns(r.access, r.timeLeft)
  {
    if record.None? then Denied(WrongCode)
    else
      var data := record.value;
      if data.isActive == Some(false) then Denied(CodeDisabled)
      else if data.codeType == "timed" && data.expiresAt.Some? then
        var diff := SecondsLeft(data.expiresAt.value, now);
        if diff <= 0 then Denied(CodeExpired) else Granted(data.codeType, Some(diff))
      else Granted(data.codeType, None)
  }

  /** The floor makes a code with less than a full second left expired. */
  lemma ExpiredBelowOneSecond(expires: int, now: int)
    ensures SecondsLeft(expires, now) <= 0 <==> expires - now < 1000
  {
  }

  // ---------------------------------------------------------------------------
  // The lock screen's state
  // ---------------------------------------------------------------------------

  /** The message line under the form. */
  datatype Notice = NoNotice | LoginFailed(reason: LoginError) | AccessTimeOver

  class LockScreen {
    var access: string
    var timeLeft: Option<int>
    var password: string
    var notice: Notice

    constructor ()
      ensures access == "none" && timeLeft.None? && password == "" && notice == NoNotice
    {
      access := "none";
      timeLeft := None;
      password := "";
      notice := NoNotice;
    }

    /** Applies a login decision. */
    method Login(record: Option<CodeRecord>, now: int)
      modifies this
      ensures var r := CheckCode(record, now);
        && (r.Denied? ==>
              access == old(access) && timeLeft == old(timeLeft) && notice == LoginFailed(r.error))
        && (r.Granted? ==>
              && access == r.access && notice == NoNotice
              && timeLeft == (if r.timeLeft.Some? then r.timeLeft else old(timeLeft)))
      ensures password == old(password)
    {
      var r := CheckCode(record, now);
      notice := NoNotice;
      match r {
        case Denied(e) =>
          notice := LoginFailed(e);
        case Granted(a, t) =>
          if t.Some? {
            timeLeft := t;
          }
          access := a;
      }
    }

    /** One firing of the interval: applies `Tick` and, when it expires,
        ends the session. */
    method TimerFires()
      requires TimerRuns(access, timeLeft)
      modifies this
      ensures timeLeft == Some(Tick(old(timeLeft)).next)
      ensures Tick(old(timeLeft)).expired ==> access == "none" && password == "" && notice == AccessTimeOver
      ensures !Tick(old(timeLeft)).expired ==>
        access == old(access) && password == old(password) && notice == old(notice)
      ensures TimerRuns(access, timeLeft) <==> old(timeLeft.value) > 1
    {
      var t := Tick(timeLeft);
      if t.expired {
        access := "none";
        password := "";
        notice := AccessTimeOver;
      }
      timeLeft := Some(t.next);
    }
  }
}
