/** The seconds counter `uint8_t timer` that `loop()` advances once per call and that
    decides when a reading is taken. */
module Cadence {

  /** `READING_INTERVAL`, in loop calls (one per second). */
  const ReadingInterval := 60
  /** `timer` is a `uint8_t`. */
  const TimerModulus := 256

  /** A call that starts with this timer value takes and saves a reading. */
  predicate Fires(t: nat) {
    t == ReadingInterval
  }

  /** `timer++` on a `uint8_t`: 255 wraps around to 0. */
  function Increment(t: nat): (r: nat)
    requires t < TimerModulus
    ensures r < TimerModulus && (r == 0 <==> t == TimerModulus - 1)
  {
    if t == TimerModulus - 1 then 0 else t + 1
  }

  /** The timer after one `loop()` call: reset to 0 when it fires, then incremented. */
  function Tick(t: nat): (r: nat)
    requires t < TimerModulus
    ensures r < TimerModulus && (Fires(t) ==> r == 1)
  {
    Increment(if Fires(t) then 0 else t)
  }

  /** The timer at the start of call n + 1, i.e. after n calls from the initial 0. */
  function TimerAfter(n: nat): (r: nat)
    ensures r < TimerModulus
  {
    if n == 0 then 0 else Tick(TimerAfter(n - 1))
  }

  /** How many readings the first n calls took. */
  function ReadingsAfter(n: nat): nat {
    if n == 0 then 0 else ReadingsAfter(n - 1) + (if Fires(TimerAfter(n - 1)) then 1 else 0)
  }

  /** Within 0..60 the 8-bit increment never wraps: a firing call leaves 1, any other call
      adds one. */
  lemma TickInRange(t: nat)
    requires t <= ReadingInterval
    ensures Tick(t) <= ReadingInterval
    ensures Tick(t) == if Fires(t) then 1 else t + 1
  {
  }

  /** Counting m up by one in base 60: the remainder steps up or wraps to 0, and the
      quotient grows exactly on the wrap. */
  lemma StepBase60(m: nat)
    ensures (m + 1) % ReadingInterval == if m % ReadingInterval == ReadingInterval - 1 then 0 else m % ReadingInterval + 1
    ensures (m + 1) / ReadingInterval == m / ReadingInterval + (if m % ReadingInterval == ReadingInterval - 1 then 1 else 0)
  {
    var q, r := m / ReadingInterval, m % ReadingInterval;
    assert m == ReadingInterval * q + r && 0 <= r < ReadingInterval;
    if r == ReadingInterval - 1 {
      assert m + 1 == ReadingInterval * (q + 1) + 0;
    } else {
      assert m + 1 == ReadingInterval * q + (r + 1) && r + 1 < ReadingInterval;
    }
  }

  /** Over the first 60 calls the timer just counts up. */
  lemma {:induction false} TimerAfterFirstInterval(n: nat)
    requires n <= ReadingInterval
    ensures TimerAfter(n) == n
  {
    if n > 0 {
      TimerAfterFirstInterval(n - 1);
      TickInRange(n - 1);
    }
  }

  /** From call 61 on, the timer cycles through 1..60. */
  lemma {:induction false} TimerAfterLater(n: nat)
    requires n > ReadingInterval
    ensures TimerAfter(n) == (n - 1) % ReadingInterval + 1
    decreases n
  {
    var t := TimerAfter(n - 1);
    if n == ReadingInterval + 1 {
      TimerAfterFirstInterval(n - 1);
      TickInRange(t);
    } else {
      TimerAfterLater(n - 1);
      StepBase60(n - 2);
      var r := (n - 2) % ReadingInterval;
      assert t == r + 1;
      TickInRange(t);
      if r == ReadingInterval - 1 {
        assert TimerAfter(n) == 1 && (n - 1) % ReadingInterval == 0;
      } else {
        assert TimerAfter(n) == r + 2 && (n - 1) % ReadingInterval == r + 1;
      }
    }
  }

  /** The timer counts 0, 1, ..., 60 over the first 60 calls and then cycles through 1..60. */
  lemma TimerAfterClosedForm(n: nat)
    ensures TimerAfter(n) == if n <= ReadingInterval then n else (n - 1) % ReadingInterval + 1
  {
    if n <= ReadingInterval {
      TimerAfterFirstInterval(n);
    } else {
      TimerAfterLater(n);
    }
  }

  /** At the start of every call the timer is in 0..60, so the `uint8_t` never wraps. */
  lemma TimerNeverWraps(n: nat)
    ensures TimerAfter(n) <= ReadingInterval
  {
    TimerAfterClosedForm(n);
  }

  /** Call k (counting from 1) takes a reading exactly when k is 61, 121, 181, ... */
  lemma FiresAtCall(k: nat)
    requires k >= 1
    ensures Fires(TimerAfter(k - 1)) <==> k > ReadingInterval && (k - 1) % ReadingInterval == 0
  {
    TimerAfterClosedForm(k - 1);
    if k > ReadingInterval + 1 {
      StepBase60(k - 2);
    }
  }

  /** No reading in the first 60 calls, then one every 60 calls. */
  lemma {:induction false} ReadingsAfterClosedForm(n: nat)
    ensures ReadingsAfter(n) == if n <= ReadingInterval then 0 else (n - 1) / ReadingInterval
  {
    if n > ReadingInterval + 1 {
      ReadingsAfterClosedForm(n - 1);
      TimerAfterClosedForm(n - 1);
      StepBase60(n - 2);
    } else if n > 0 {
      ReadingsAfterClosedForm(n - 1);
      TimerAfterClosedForm(n - 1);
    }
  }
}
