/** The wait of `send_block`: look at the thread list, sleep, look again, with sleeps
    that double from 64 microseconds up to a cap, until the list is empty or the clock
    says the timeout has passed. All times are in microseconds unless named otherwise. */
module TimedWait {
  const FIRST_SLEEP: nat := 64
  const LONGEST_SLEEP: nat := 20000
  const WORD: nat := 0x1_0000_0000_0000_0000

  /** The length of sleep number `k`, counting from 0. */
  function SleepLength(k: nat): nat {
    if k == 0 then FIRST_SLEEP
    else if 2 * SleepLength(k - 1) > LONGEST_SLEEP then LONGEST_SLEEP
    else 2 * SleepLength(k - 1)
  }

  /** The total of the first `n` sleeps. */
  function Slept(n: nat): nat {
    if n == 0 then 0 else Slept(n - 1) + SleepLength(n - 1)
  }

  /** The loop's test: both readings are cut to milliseconds and subtracted as 64-bit
      words. */
  predicate Expired(start: nat, now: nat, timeout: nat) {
    (now / 1000 - start / 1000) % WORD >= timeout
  }

  /** `clock(0)` is the reading before the loop and `clock(k)` the one after sleep
      number `k - 1`: a sleep lasts at least as long as asked, and the clock does not
      wrap. */
  ghost predicate Passing(clock: nat -> nat, n: nat) {
    clock(0) < WORD && forall k: nat :: k < n ==> Elapses(clock, k)
  }

  ghost predicate Elapses(clock: nat -> nat, k: nat) {
    clock(k) + SleepLength(k) <= clock(k + 1) < WORD
  }

  /** The clock of sleeps that last exactly as long as asked. */
  function Exact(start: nat): nat -> nat {
    (k: nat) => start + Slept(k)
  }

  // ------------------------------------------------------------------ the schedule

  lemma {:induction false} ScheduleAt(k: nat)
    requires k >= 9
    ensures SleepLength(k) == LONGEST_SLEEP && Slept(k) == 32704 + LONGEST_SLEEP * (k - 9)
  {
    if k == 9 {
      FirstSleeps();
    } else {
      ScheduleAt(k - 1);
    }
  }

  lemma FirstSleeps()
    ensures SleepLength(8) == 16384 && SleepLength(9) == LONGEST_SLEEP
    ensures Slept(9) == 32704
  {
    assert SleepLength(2) == 256 && Slept(2) == 192;
    assert SleepLength(4) == 1024 && Slept(4) == 960;
    assert SleepLength(6) == 4096 && Slept(6) == 4032;
    assert SleepLength(8) == 16384 && Slept(8) == 16320;
  }

  lemma {:induction false} SleepBounds(k: nat)
    ensures FIRST_SLEEP <= SleepLength(k) <= LONGEST_SLEEP
  {
    if k > 0 { SleepBounds(k - 1); }
  }

  lemma {:induction false} SleptGrows(a: nat, b: nat)
    requires a <= b
    ensures Slept(a) <= Slept(b)
    decreases b
  {
    if a < b { SleptGrows(a, b - 1); }
  }

  // -------------------------------------------------------------- how many sleeps

  /** No wait with a timeout of `timeout` milliseconds sleeps more often than this. */
  function MostSleeps(timeout: nat): nat {
    if 1000 * timeout <= 32704 then 9 else 9 + (1000 * timeout - 32704 + LONGEST_SLEEP - 1) / LONGEST_SLEEP
  }

  lemma {:induction false} ClockAhead(clock: nat -> nat, n: nat)
    requires Passing(clock, n)
    ensures clock(0) + Slept(n) <= clock(n)
  {
    if n > 0 {
      ClockAhead(clock, n - 1);
      assert Elapses(clock, n - 1);
    }
  }

  /** When the loop's test holds, for any two readings of the clock. It is the wall clock
      and may be set back. A reading in a millisecond before that of the start ends the
      wait at once, unless the timeout is so long that 2^64 milliseconds less the step
      back do not reach it; a step back inside the millisecond of the start does not. */
  lemma ExpiredIff(start: nat, now: nat, timeout: nat)
    requires start < WORD && now < WORD
    ensures var a, b := start / 1000, now / 1000;
      && (Expired(start, now, timeout) <==> if b < a then timeout <= WORD - (a - b) else b - a >= timeout)
      && (timeout <= WORD / 2 ==> (Expired(start, now, timeout) <==> b < a || b - a >= timeout))
  {
    var a, b := start / 1000, now / 1000;
    if b < a {
      assert (b - a) % WORD == b - a + WORD;
    } else {
      assert (b - a) % WORD == b - a;
    }
  }

  lemma SetBackExpires()
    ensures Expired(1000, 999, 5000) && !Expired(1001, 1000, 5000)
  {
    ExpiredIff(1000, 999, 5000);
  }

  lemma Unexpired(start: nat, now: nat, timeout: nat)
    requires start <= now < WORD
    ensures Expired(start, now, timeout) <==> now / 1000 - start / 1000 >= timeout
    ensures !Expired(start, now, timeout) ==> now - start < 1000 * timeout
    ensures Expired(start, now, timeout) ==> now - start > 1000 * (timeout - 1)
  {
    hide Expired;
    ExpiredIff(start, now, timeout);
  }

  /** By the last of them the timeout has passed, however long the sleeps really took. */
  lemma ExpiredByThen(clock: nat -> nat, timeout: nat, n: nat)
    requires n >= MostSleeps(timeout) && Passing(clock, n)
    ensures Expired(clock(0), clock(n), timeout)
  {
    ScheduleAt(n);
    ClockAhead(clock, n);
    assert Elapses(clock, n - 1);
    Unexpired(clock(0), clock(n), timeout);
  }

  lemma FiveSeconds()
    ensures MostSleeps(5000) == 258
  {
  }

  // -------------------------------------------------------------- the wait itself

  /** How a wait ends: after `n` sleeps, because the list was seen empty at that look
      or because the clock had run out after the last sleep, and not earlier. */
  ghost predicate EndsAt(empty: nat -> bool, clock: nat -> nat, timeout: nat, n: nat, timedOut: bool) {
    && (forall k: nat :: k < n ==> !empty(k))
    && (forall k: nat :: 0 < k < n ==> !Expired(clock(0), clock(k), timeout))
    && (timedOut ==> n > 0 && Expired(clock(0), clock(n), timeout))
    && (!timedOut ==> empty(n) && (n > 0 ==> !Expired(clock(0), clock(n), timeout)))
  }

  /** Look number `n` finds no thread, or the reading before it is past the timeout. */
  ghost predicate StopsAt(empty: nat -> bool, clock: nat -> nat, timeout: nat, n: nat) {
    empty(n) || (n > 0 && Expired(clock(0), clock(n), timeout))
  }

  /** A wait can end at `n` exactly if that is its first reason to stop. */
  lemma EndsAtFirstStop(empty: nat -> bool, clock: nat -> nat, timeout: nat, n: nat)
    ensures (exists timedOut :: EndsAt(empty, clock, timeout, n, timedOut))
       <==> StopsAt(empty, clock, timeout, n) && forall k: nat :: k < n ==> !StopsAt(empty, clock, timeout, k)
  {
    hide Expired;
    if StopsAt(empty, clock, timeout, n) && forall k: nat :: k < n ==> !StopsAt(empty, clock, timeout, k) {
      forall k: nat | k < n ensures !empty(k) && (k > 0 ==> !Expired(clock(0), clock(k), timeout)) {
        assert !StopsAt(empty, clock, timeout, k);
      }
      assert EndsAt(empty, clock, timeout, n, n > 0 && Expired(clock(0), clock(n), timeout));
    }
  }

  /** A clock that only goes forward stops every wait in time. */
  lemma ForwardClockStops(empty: nat -> bool, clock: nat -> nat, timeout: nat)
    requires Passing(clock, MostSleeps(timeout))
    ensures StopsAt(empty, clock, timeout, MostSleeps(timeout))
  {
    SomeSleeps(timeout);
    ExpiredByThen(clock, timeout, MostSleeps(timeout));
  }

  /** `empty(k)` says what look number `k` at the thread list finds, and `clock(k)` is
      any sequence of readings, forward or back, that gives the loop a reason to stop
      some time. The result `sleeps` holds the lengths asked for. */
  method Wait(empty: nat -> bool, clock: nat -> nat, timeout: nat) returns (timedOut: bool, sleeps: seq<nat>)
    requires exists n: nat :: StopsAt(empty, clock, timeout, n)
    ensures EndsAt(empty, clock, timeout, |sleeps|, timedOut)
    ensures Passing(clock, MostSleeps(timeout)) ==> |sleeps| <= MostSleeps(timeout)
    ensures forall k :: 0 <= k < |sleeps| ==> sleeps[k] == SleepLength(k)
  {
    hide Expired, MostSleeps, SleepLength, Passing;
    timedOut, sleeps := false, [];
    var haveThreads := true;
    var length := FIRST_SLEEP;
    var start := clock(0);
    SomeSleeps(timeout);
    ghost var stop: nat :| StopsAt(empty, clock, timeout, stop);
    ghost var most := MostSleeps(timeout);
    if Passing(clock, most) { ForwardClockStops(empty, clock, timeout); }
    while haveThreads
      invariant haveThreads && !timedOut && |sleeps| <= stop
      invariant Passing(clock, most) ==> |sleeps| <= most
      invariant length == SleepLength(|sleeps|)
      invariant forall k :: 0 <= k < |sleeps| ==> sleeps[k] == SleepLength(k)
      invariant forall k: nat :: k < |sleeps| ==> !empty(k)
      invariant forall k: nat :: 0 < k <= |sleeps| ==> !Expired(start, clock(k), timeout)
      decreases stop - |sleeps|
    {
      if empty(|sleeps|) {
        haveThreads := false;
        break;
      }
      assert |sleeps| < stop;
      sleeps := sleeps + [length];
      NextLength(|sleeps| - 1);
      length := length * 2;
      if length > LONGEST_SLEEP {
        length := LONGEST_SLEEP;
      }
      if Expired(start, clock(|sleeps|), timeout) {
        haveThreads := false;
        timedOut := true;
        break;
      }
    }
  }

  lemma SomeSleeps(timeout: nat)
    ensures MostSleeps(timeout) >= 9
    ensures SleepLength(0) == FIRST_SLEEP
  {
  }

  lemma NextLength(k: nat)
    ensures SleepLength(k + 1)
         == if SleepLength(k) * 2 > LONGEST_SLEEP then LONGEST_SLEEP else SleepLength(k) * 2
  {
  }

  // --------------------------------------------------------------- exact sleeps

  lemma {:induction false} ExactPasses(start: nat, n: nat)
    requires start + Slept(n) < WORD
    ensures Passing(Exact(start), n)
  {
    forall k: nat | k < n ensures Elapses(Exact(start), k) {
      SleptGrows(k + 1, n);
    }
    SleptGrows(0, n);
  }

  /** With sleeps that last exactly as asked, a wait that times out has slept for more
      than `timeout - 1` milliseconds and less than `timeout` milliseconds and one
      longest sleep, although both readings are cut to milliseconds. */
  lemma TimesOutInTime(empty: nat -> bool, start: nat, timeout: nat, n: nat)
    requires start + Slept(n) < WORD
    requires EndsAt(empty, Exact(start), timeout, n, true)
    ensures 1000 * (timeout - 1) < Slept(n) < 1000 * timeout + LONGEST_SLEEP
  {
    var clock := Exact(start);
    Unexpired(start, clock(n), timeout);
    SleepBounds(n - 1);
    if n == 1 {
      assert Slept(1) == FIRST_SLEEP;
    } else {
      assert !Expired(clock(0), clock(n - 1), timeout);
      Unexpired(start, clock(n - 1), timeout);
    }
  }

  lemma MostIsLeast(timeout: nat)
    requires timeout >= 33
    ensures MostSleeps(timeout) > 9
    ensures Slept(MostSleeps(timeout) - 1) < 1000 * timeout <= Slept(MostSleeps(timeout))
  {
    hide Slept, SleepLength;
    ScheduleAt(MostSleeps(timeout) - 1);
    ScheduleAt(MostSleeps(timeout));
  }

  /** The bound on the number of sleeps is met: from a start on a whole millisecond
      exact sleeps use up all of it. */
  lemma BoundIsMet(empty: nat -> bool, start: nat, timeout: nat, n: nat)
    requires start % 1000 == 0 && timeout >= 33 && start + Slept(n) < WORD
    requires EndsAt(empty, Exact(start), timeout, n, true)
    ensures n == MostSleeps(timeout)
  {
    hide Expired, MostSleeps, SleepLength;
    var most := MostSleeps(timeout);
    var clock := Exact(start);
    MostIsLeast(timeout);
    Unexpired(start, clock(n), timeout);
    if n < most {
      SleptGrows(n, most - 1);
    } else if n > most {
      SleptGrows(most, n);
      Unexpired(start, clock(most), timeout);
    }
  }

  /** The wait with exact sleeps, from start to end: it has a reason to stop, ends within
      the bound, and if it times out does so in time, using up the bound when it started
      on a whole millisecond. */
  lemma ExactWait(empty: nat -> bool, start: nat, timeout: nat)
    requires start + Slept(MostSleeps(timeout)) < WORD
    ensures exists n: nat :: StopsAt(empty, Exact(start), timeout, n)
    ensures forall n: nat, timedOut :: EndsAt(empty, Exact(start), timeout, n, timedOut) ==>
      && n <= MostSleeps(timeout)
      && (timedOut ==> 1000 * (timeout - 1) < Slept(n) < 1000 * timeout + LONGEST_SLEEP)
      && (timedOut && start % 1000 == 0 && timeout >= 33 ==> n == MostSleeps(timeout))
  {
    hide Expired, Slept, SleepLength, MostSleeps, StopsAt, EndsAt;
    var most := MostSleeps(timeout);
    ExactPasses(start, most);
    ForwardClockStops(empty, Exact(start), timeout);
    forall n: nat, timedOut | EndsAt(empty, Exact(start), timeout, n, timedOut)
      ensures n <= most
      ensures timedOut ==> 1000 * (timeout - 1) < Slept(n) < 1000 * timeout + LONGEST_SLEEP
      ensures timedOut && start % 1000 == 0 && timeout >= 33 ==> n == most
    {
      EndsAtFirstStop(empty, Exact(start), timeout, n);
      assert n <= most;
      SleptGrows(n, most);
      if timedOut {
        TimesOutInTime(empty, start, timeout, n);
        if start % 1000 == 0 && timeout >= 33 {
          BoundIsMet(empty, start, timeout, n);
        }
      }
    }
  }
}
