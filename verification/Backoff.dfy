/** The heartbeat of `wolksensor.c`: the minute counter that starts data exchanges, and the period that backs off while
    exchanges keep failing. */
module Backoff {
  import opened Basics

  const MAX_NO_CONNECTION_HEARTBEAT := 60
  const MAX_ALARM_RETRIES := 2

  /** The period of the heartbeat, the minutes counted, the period used after failures, and the failures in a row. */
  datatype Heart = Heart(current: Word16, timer: Word16, fallback: Word16, failures: Byte)

  /** `start_heartbeat`: 0 may not be divided by. */
  function Started(heart: Heart, period: Word16): Heart
    requires period == 0 ==> heart.current == 0 || heart.timer == 0
  {
    if heart.current == period then heart
    else heart.(current := period, timer := if heart.timer != 0 then period - heart.timer % period else 0)
  }

  /** `minute_expired_listener`: the minute counted and whether a heartbeat is posted. */
  function Ticked(heart: Heart): (Heart, bool) {
    if heart.current == 0 then (heart, false)
    else
      var timer := (heart.timer + 1) % 0x1_0000;
      if timer == heart.current then (heart.(timer := 0), true) else (heart.(timer := timer), false)
  }

  /** `adjust_heartbeat_on_error` without USB and without alarms to sound. */
  function Failed(heart: Heart, period: Word16): Heart
    requires period > 0 && (heart.failures != 0 ==> heart.fallback > 0)
  {
    var fallback := if heart.failures == 0 then period else heart.fallback;
    var failures := (heart.failures + 1) % 0x100;
    var counted := heart.(failures := failures, fallback := fallback);
    if failures % 2 == 0 && fallback < MAX_NO_CONNECTION_HEARTBEAT then
      var doubled := if 2 * fallback < MAX_NO_CONNECTION_HEARTBEAT then 2 * fallback else MAX_NO_CONNECTION_HEARTBEAT;
      Started(counted.(fallback := doubled), doubled)
    else counted
  }

  /** After k failures in a row. */
  function FailedTimes(heart: Heart, period: Word16, k: nat): (r: Heart)
    requires period > 0 && heart.failures == 0
    ensures r.failures != 0 ==> r.fallback > 0
  {
    if k == 0 then heart else Failed(FailedTimes(heart, period, k - 1), period)
  }

  function Power2(n: nat): (p: nat)
    ensures p > 0
  {
    if n == 0 then 1 else 2 * Power2(n - 1)
  }

  function Capped(n: nat): nat {
    if n < MAX_NO_CONNECTION_HEARTBEAT then n else MAX_NO_CONNECTION_HEARTBEAT
  }

  /** The failures as the 8-bit counter has them after k of them, between 1 and 256. */
  function Counted(k: nat): (j: nat)
    requires k > 0
    ensures 1 <= j <= 0x100
  {
    (k - 1) % 0x100 + 1
  }

  /** The back-off in closed form: the period doubles with every second failure up to an hour, and starts over when the counter
      wraps. A period of an hour or more stays. */
  function Expected(period: Word16, k: nat): nat
    requires k > 0
  {
    if period >= MAX_NO_CONNECTION_HEARTBEAT then period else Capped(period * Power2(Counted(k) / 2))
  }

  lemma CountedNext(k: nat)
    requires k > 0
    ensures Counted(k + 1) == if Counted(k) == 0x100 then 1 else Counted(k) + 1
  {
  }

  /** One more doubling. */
  lemma Doubling(period: nat, n: nat)
    ensures Capped(period * Power2(n + 1)) == Capped(2 * Capped(period * Power2(n)))
  {
    assert period * Power2(n + 1) == 2 * (period * Power2(n));
  }

  /** How the closed form goes on. */
  lemma ExpectedNext(period: Word16, k: nat)
    requires 0 < period < MAX_NO_CONNECTION_HEARTBEAT && k > 0
    ensures Expected(period, k) <= MAX_NO_CONNECTION_HEARTBEAT
    ensures Counted(k + 1) == 1 ==> Expected(period, k + 1) == period
    ensures Counted(k + 1) > 1 ==>
              Expected(period, k + 1) == if Counted(k + 1) % 2 == 0 then Capped(2 * Expected(period, k)) else Expected(period, k)
  {
    hide Counted, Power2;
    CountedNext(k);
    var i, j := Counted(k), Counted(k + 1);
    if j == 1 {
      assert Power2(1 / 2) == 1 by {
        PowerZero();
      }
    } else if j % 2 == 0 {
      assert j / 2 == i / 2 + 1;
      Doubling(period, i / 2);
    } else {
      assert j / 2 == i / 2;
    }
  }

  lemma PowerZero()
    ensures Power2(0) == 1
  {
  }

  /** Whether a failure starts the heartbeat anew, and with which period. */
  lemma FailedIs(heart: Heart, period: Word16)
    requires period > 0 && (heart.failures != 0 ==> heart.fallback > 0)
    ensures var r, base := Failed(heart, period), if heart.failures == 0 then period else heart.fallback;
            && r.failures == (heart.failures + 1) % 0x100
            && if heart.failures % 2 == 1 && base < MAX_NO_CONNECTION_HEARTBEAT
               then r.fallback == r.current == Capped(2 * base)
               else r.fallback == base && r.current == heart.current
  {
    hide Power2;
  }

  /** The counter and the failures counted agree. */
  lemma CountedModulo(j: nat)
    requires 1 <= j <= 0x100
    ensures j == 0x100 ==> j % 0x100 == 0 && (j % 0x100 + 1) % 0x100 == 1
    ensures j < 0x100 ==> j % 0x100 == j && (j % 0x100 + 1) % 0x100 == (j + 1) % 0x100
  {
  }

  /** The back-off in closed form, for any number of failures. */
  lemma {:induction false} BackoffClosedForm(heart: Heart, period: Word16, k: nat)
    requires 0 < k && period > 0 && heart.failures == 0
    ensures var r := FailedTimes(heart, period, k);
            && r.failures == Counted(k) % 0x100
            && r.fallback == Expected(period, k)
    decreases k
  {
    hide Counted, Power2, Expected, Failed;
    FailedIs(FailedTimes(heart, period, k - 1), period);
    if k == 1 {
      FirstFailure(period);
    } else {
      BackoffClosedForm(heart, period, k - 1);
      CountedNext(k - 1);
      CountedModulo(Counted(k - 1));
      if period < MAX_NO_CONNECTION_HEARTBEAT {
        ExpectedNext(period, k - 1);
      } else {
        LongPeriod(period, k - 1);
        LongPeriod(period, k);
      }
    }
  }

  lemma FirstFailure(period: Word16)
    ensures Counted(1) == 1 && Expected(period, 1) == period
  {
    PowerZero();
  }

  lemma LongPeriod(period: Word16, k: nat)
    requires period >= MAX_NO_CONNECTION_HEARTBEAT && k > 0
    ensures Expected(period, k) == period
  {
  }

  lemma {:induction false} PowerGrows(n: nat)
    ensures Power2(n) > n
  {
    if n > 0 {
      PowerGrows(n - 1);
    }
  }

  /** After as many failures as the counter holds the period is an hour. */
  lemma FullCount(period: Word16, k: nat)
    requires 0 < period < MAX_NO_CONNECTION_HEARTBEAT && k > 0 && Counted(k) == 0x100
    ensures Expected(period, k) == MAX_NO_CONNECTION_HEARTBEAT
  {
    hide Power2;
    PowerGrows(128);
    assert period * Power2(128) >= Power2(128);
  }

  /** From the second failure on the heartbeat runs with the back-off, except that the wrap of the counter leaves it at an
      hour for one failure. */
  lemma {:induction false} HeartbeatFollows(heart: Heart, period: Word16, k: nat)
    requires 2 <= k && 0 < period < MAX_NO_CONNECTION_HEARTBEAT && heart.failures == 0
    ensures FailedTimes(heart, period, k).current
            == if Counted(k) == 1 then MAX_NO_CONNECTION_HEARTBEAT else Expected(period, k)
    decreases k
  {
    hide Counted, Power2, Expected, Failed;
    BackoffClosedForm(heart, period, k - 1);
    FailedIs(FailedTimes(heart, period, k - 1), period);
    CountedModulo(Counted(k - 1));
    CountedNext(k - 1);
    ExpectedNext(period, k - 1);
    if k == 2 {
      FirstFailure(period);
    } else {
      HeartbeatFollows(heart, period, k - 1);
      if Counted(k - 1) == 1 {
        OnceAround(k - 1, period);
      }
      if Counted(k) == 1 {
        FullCount(period, k - 1);
      }
    }
  }

  lemma OnceAround(k: nat, period: Word16)
    requires k > 0 && Counted(k) == 1 && 0 < period
    ensures Expected(period, k) == period
  {
    PowerZero();
  }

  // ---- when the next heartbeat comes ----

  /** The heart after n minutes, and whether any of them brought a heartbeat. */
  function After(heart: Heart, n: nat): (Heart, bool) {
    if n == 0 then (heart, false)
    else
      var (before, beaten) := After(heart, n - 1);
      var (now, beats) := Ticked(before);
      (now, beaten || beats)
  }

  /** Minutes until the counter reaches the period, around its 16 bits if it is already there. */
  function Wait(heart: Heart): (n: nat)
    requires heart.current > 0
    ensures 0 < n <= 0x1_0000
  {
    if heart.timer < heart.current then heart.current - heart.timer else 0x1_0000 - heart.timer + heart.current
  }

  lemma {:induction false} CountsUp(heart: Heart, n: nat)
    requires heart.current > 0 && n < Wait(heart)
    ensures After(heart, n) == (heart.(timer := (heart.timer + n) % 0x1_0000), false)
    decreases n
  {
    if n > 0 {
      CountsUp(heart, n - 1);
    }
  }

  /** The next heartbeat comes after exactly `Wait` minutes. */
  lemma NextBeat(heart: Heart, n: nat)
    requires heart.current > 0
    ensures After(heart, n).1 <==> n >= Wait(heart)
  {
    if n < Wait(heart) {
      CountsUp(heart, n);
    } else {
      CountsUp(heart, Wait(heart) - 1);
      assert After(heart, Wait(heart)).1;
      BeatStays(heart, Wait(heart), n);
    }
  }

  lemma {:induction false} BeatStays(heart: Heart, m: nat, n: nat)
    requires m <= n && After(heart, m).1
    ensures After(heart, n).1
    decreases n
  {
    if m < n {
      BeatStays(heart, m, n - 1);
    }
  }

  /** After a change of the period the next heartbeat comes within one period exactly if the minutes counted before are 0 or
      not a multiple of the new period; otherwise the counter is put on the period itself and has to go around. */
  lemma BeatsWithinPeriod(heart: Heart, period: Word16)
    requires period > 0 && heart.current != period
    ensures var started := Started(heart, period);
            && (After(started, period).1 <==> heart.timer == 0 || heart.timer % period != 0)
            && (heart.timer != 0 && heart.timer % period == 0 ==> Wait(started) == 0x1_0000)
  {
    NextBeat(Started(heart, period), period);
  }

  // ---- the static variables ----

  class Heartbeat {
    var current: Word16
    var timer: Word16
    var fallback: Word16
    var failures: Byte

    function State(): Heart
      reads this
    {
      Heart(current, timer, fallback, failures)
    }

    constructor ()
      ensures State() == Heart(0, 0, 10, 0)
    {
      current, timer, fallback, failures := 0, 0, 10, 0;
    }

    /** `start_heartbeat`. */
    method StartHeartbeat(period: Word16)
      requires period == 0 ==> current == 0 || timer == 0
      modifies this
      ensures State() == Started(old(State()), period)
    {
      if current != period {
        if timer != 0 {
          timer := period - timer % period;
        }
        current := period;
      }
    }

    /** `minute_expired_listener`. */
    method MinuteExpired() returns (beats: bool)
      modifies this
      ensures (State(), beats) == Ticked(old(State()))
    {
      beats := false;
      if current != 0 {
        timer := (timer + 1) % 0x1_0000;
        if timer == current {
          beats := true;
          timer := 0;
        }
      }
    }

    /** `adjust_heartbeat_on_error`. */
    method AdjustOnError(systemHeartbeat: Word16, usb: bool, unsoundedAlarms: bool, soundAlarmRetries: Byte)
      requires systemHeartbeat > 0 && (failures != 0 ==> fallback > 0)
      modifies this
      ensures usb ==> State() == Started(old(State()), systemHeartbeat)
      ensures !usb && unsoundedAlarms && soundAlarmRetries <= MAX_ALARM_RETRIES ==> State() == old(State())
      ensures !usb && !(unsoundedAlarms && soundAlarmRetries <= MAX_ALARM_RETRIES) ==> State() == Failed(old(State()), systemHeartbeat)
    {
      if usb {
        StartHeartbeat(systemHeartbeat);
        return;
      }
      if unsoundedAlarms && soundAlarmRetries <= MAX_ALARM_RETRIES {
        return;
      }
      if failures == 0 {
        fallback := systemHeartbeat;
      }
      failures := (failures + 1) % 0x100;
      if failures % 2 == 0 && fallback < MAX_NO_CONNECTION_HEARTBEAT {
        var doubled := fallback * 2;
        fallback := if doubled < MAX_NO_CONNECTION_HEARTBEAT then doubled else MAX_NO_CONNECTION_HEARTBEAT;
        StartHeartbeat(fallback);
      }
    }

    /** Failures in a row. */
    method FailTimes(systemHeartbeat: Word16, k: nat)
      requires systemHeartbeat > 0 && failures == 0
      modifies this
      ensures State() == FailedTimes(old(State()), systemHeartbeat, k)
      ensures k > 0 ==> fallback == Expected(systemHeartbeat, k)
    {
      for i := 0 to k
        invariant State() == FailedTimes(old(State()), systemHeartbeat, i)
      {
        AdjustOnError(systemHeartbeat, false, false, 0);
      }
      if k > 0 {
        BackoffClosedForm(old(State()), systemHeartbeat, k);
      }
    }
  }
}
