/** Runs of the shutdown protocol: one that ends as it should, and those that show what is
    not promised. */
module ShutdownRuns {
  import opened Compaction
  import opened ShutdownProtocol
  import opened ShutdownTheorems
  import opened ShutdownSteps

  function End(run: Run): State {
    if run.states == [] then INITIAL else run.states[|run.states| - 1]
  }

  /** The run `next` takes `run` further. */
  ghost predicate Longer(run: Run, next: Run) {
    IsRun(next) && run.states <= next.states && run.acts <= next.acts
  }

  /** One more step of a run that began as `from`. */
  lemma Take(from: Run, run: Run, a: Action, r: State) returns (next: Run)
    requires Longer(from, run) && Goes(End(run), a, r)
    ensures Longer(from, next) && End(next) == r
  {
    hide Goes;
    next := Run(run.states + [r], run.acts + [a]);
    forall i | 0 <= i < |next.acts| ensures Goes(next.states[i], next.acts[i], next.states[i + 1]) {
      if i < |run.acts| {
        assert Goes(run.states[i], run.acts[i], run.states[i + 1]);
      }
    }
  }

  // ------------------------------------------------------------------- the pieces

  /** Client `c` may call, and nobody is inside the lock. */
  predicate IdleFor(s: State, c: nat) {
    !s.exited && !s.master && (c !in s.pcs || s.pcs[c].Idle?)
  }

  predicate IsAt(s: State, t: nat, pc: PC) {
    !s.exited && t in s.pcs && s.pcs[t] == pc
  }

  /** The program counter of one thread, set a number of times, is what it was set to last. */
  lemma SetTwice(pcs: map<nat, PC>, t: nat, first: PC, last: PC)
    ensures pcs[t := first][t := last] == pcs[t := last]
  {
  }

  lemma CallsIn(from: Run, run: Run, c: nat, call: Call) returns (next: Run)
    requires Longer(from, run) && IdleFor(End(run), c)
    ensures var s := End(run);
      Longer(from, next) && End(next) == s.(master := true, pcs := s.pcs[c := Body(call)])
  {
    hide Goes, Longer, End;
    var s := End(run);
    InvokeStep(s, c, call);
    var s1 := s.(pcs := s.pcs[c := Acquiring(call)]);
    next := Take(from, run, Invoke(c, call), s1);
    AcquireStep(s1, c, call);
    SetTwice(s.pcs, c, Acquiring(call), Body(call));
    next := Take(from, next, Lock(c), s.(master := true, pcs := s.pcs[c := Body(call)]));
  }

  lemma Releases(from: Run, run: Run, c: nat) returns (next: Run)
    requires Longer(from, run) && IsAt(End(run), c, Releasing)
    ensures var s := End(run);
      Longer(from, next) && End(next) == s.(master := false, pcs := s.pcs[c := Idle])
  {
    hide Goes, Longer, End;
    var s := End(run);
    ReleaseStep(s, c, 0, false);
    next := Take(from, run, Next(c, 0, false), s.(master := false, pcs := s.pcs[c := Idle]));
  }

  /** A registration that finds no shutdown thread, as far as the lists. */
  lemma RegistersFirst(from: Run, run: Run, c: nat, pid: nat) returns (next: Run)
    requires Longer(from, run) && IdleFor(End(run), c) && !End(run).started && pid !in End(run).threads
    ensures var s := End(run);
      && Longer(from, next)
      && End(next) == s.(master := true, threads := s.threads + [pid], event := true, pcs := s.pcs[c := Creating],
                         hist := s.hist + [Joined(pid)])
  {
    hide Goes, Longer, End;
    var s := End(run);
    var call := RegisterThread(pid);
    next := CallsIn(from, run, c, call);
    RegisterNewStep(End(next), c, pid, 0, false);
    SetTwice(s.pcs, c, Body(call), LockingEvent);
    var s1 := s.(master := true, threads := s.threads + [pid], hist := s.hist + [Joined(pid)],
                 pcs := s.pcs[c := LockingEvent]);
    next := Take(from, next, Next(c, 0, false), s1);
    CloseStep(s1, c, 0, false);
    SetTwice(s.pcs, c, LockingEvent, Creating);
    next := Take(from, next, Next(c, 0, false), s1.(event := true, pcs := s.pcs[c := Creating]));
  }

  /** ... and with the creation of one. */
  lemma Registers(from: Run, run: Run, c: nat, pid: nat, child: nat) returns (next: Run)
    requires Longer(from, run) && IdleFor(End(run), c) && !End(run).started && pid !in End(run).threads
    requires child !in End(run).pcs && child != c
    ensures var s := End(run);
      && Longer(from, next)
      && End(next) == s.(threads := s.threads + [pid], event := true, started := true,
                         pcs := s.pcs[child := Awaiting][c := Idle], hist := s.hist + [Joined(pid), Born(child)])
  {
    hide Goes, Longer, End;
    var s := End(run);
    next := RegistersFirst(from, run, c, pid);
    var s1 := End(next);
    CreateStep(s1, c, child);
    assert s.pcs[c := Creating][child := Awaiting][c := Marking] == s.pcs[child := Awaiting][c := Marking];
    assert s.hist + [Joined(pid)] + [Born(child)] == s.hist + [Joined(pid), Born(child)];
    var s2 := s1.(pcs := s.pcs[child := Awaiting][c := Marking], hist := s.hist + [Joined(pid), Born(child)]);
    next := Take(from, next, Next(c, child, false), s2);
    MarkStep(s2, c, 0, false);
    SetTwice(s.pcs[child := Awaiting], c, Marking, Releasing);
    next := Take(from, next, Next(c, 0, false), s2.(started := true, pcs := s.pcs[child := Awaiting][c := Releasing]));
    next := Releases(from, next, c);
    SetTwice(s.pcs[child := Awaiting], c, Releasing, Idle);
  }

  lemma Requests(from: Run, run: Run, c: nat, exit: bool) returns (next: Run)
    requires Longer(from, run) && IdleFor(End(run), c)
    ensures var s := End(run);
      && Longer(from, next)
      && End(next) == s.(exitFlag := exit, event := false, pcs := s.pcs[c := Idle], hist := s.hist + [Requested(exit)])
  {
    hide Goes, Longer, End;
    var s := End(run);
    next := CallsIn(from, run, c, SendAsync(exit));
    RequestStep(End(next), c, exit, 0, false);
    SetTwice(s.pcs, c, Body(SendAsync(exit)), Signalling);
    var s1 := s.(master := true, exitFlag := exit, hist := s.hist + [Requested(exit)], pcs := s.pcs[c := Signalling]);
    next := Take(from, next, Next(c, 0, false), s1);
    OpenStep(s1, c, 0, false);
    SetTwice(s.pcs, c, Signalling, Releasing);
    next := Take(from, next, Next(c, 0, false), s1.(event := false, pcs := s.pcs[c := Releasing]));
    next := Releases(from, next, c);
    SetTwice(s.pcs, c, Releasing, Idle);
  }

  lemma Confirms(from: Run, run: Run, c: nat, pid: nat) returns (next: Run)
    requires Longer(from, run) && IdleFor(End(run), c)
    ensures var s := End(run);
      && Longer(from, next)
      && End(next) == s.(threads := Keep(s.threads, (y: nat) => y == pid), pcs := s.pcs[c := Idle],
                         hist := s.hist + [Left(pid)])
  {
    hide Goes, Longer, End, Keep;
    var s := End(run);
    next := CallsIn(from, run, c, ConfirmShutdown(pid));
    ConfirmStep(End(next), c, pid, 0, false);
    SetTwice(s.pcs, c, Body(ConfirmShutdown(pid)), Releasing);
    next := Take(from, next, Next(c, 0, false),
                 s.(master := true, threads := Keep(s.threads, (y: nat) => y == pid), hist := s.hist + [Left(pid)],
                    pcs := s.pcs[c := Releasing]));
    next := Releases(from, next, c);
    SetTwice(s.pcs, c, Releasing, Idle);
  }

  /** A shutdown thread wakes and looks at the flag. */
  lemma Wakes(from: Run, run: Run, t: nat) returns (next: Run)
    requires Longer(from, run) && IsAt(End(run), t, Awaiting) && !End(run).event
    ensures var s := End(run);
      && Longer(from, next)
      && End(next) == s.(hist := s.hist + [Woken(t)], pcs := s.pcs[t := if s.shutdown then FinalLock else Flagging])
  {
    hide Goes, Longer, End;
    var s := End(run);
    WakeStep(s, t, 0, false);
    var s1 := s.(hist := s.hist + [Woken(t)], pcs := s.pcs[t := Testing]);
    next := Take(from, run, Next(t, 0, false), s1);
    TestStep(s1, t, 0, false);
    var to := if s.shutdown then FinalLock else Flagging;
    SetTwice(s.pcs, t, Testing, to);
    next := Take(from, next, Next(t, 0, false), s1.(pcs := s.pcs[t := to]));
  }

  lemma Opens(from: Run, run: Run, t: nat) returns (next: Run)
    requires Longer(from, run) && IsAt(End(run), t, Flagging) && !End(run).master
    ensures var s := End(run);
      && Longer(from, next)
      && End(next) == s.(shutdown := true, master := true, hist := s.hist + [Flagged(t), Opened(t)],
                         pcs := s.pcs[t := Broadcasting(0)])
  {
    hide Goes, Longer, End;
    var s := End(run);
    FlagStep(s, t, 0, false);
    var s1 := s.(shutdown := true, hist := s.hist + [Flagged(t)], pcs := s.pcs[t := BroadcastLock]);
    next := Take(from, run, Next(t, 0, false), s1);
    StartStep(s1, t);
    SetTwice(s.pcs, t, BroadcastLock, Broadcasting(0));
    assert s.hist + [Flagged(t)] + [Opened(t)] == s.hist + [Flagged(t), Opened(t)];
    next := Take(from, next, Lock(t), s1.(master := true, hist := s.hist + [Flagged(t), Opened(t)],
                                    pcs := s.pcs[t := Broadcasting(0)]));
  }

  /** A broadcast with nothing to call. */
  lemma Broadcasts(from: Run, run: Run, t: nat) returns (next: Run)
    requires Longer(from, run) && IsAt(End(run), t, Flagging) && !End(run).master && End(run).callbacks == []
    ensures var s := End(run);
      && Longer(from, next)
      && End(next) == s.(shutdown := true, hist := s.hist + [Flagged(t), Opened(t)], pcs := s.pcs[t := WaitLock])
  {
    hide Goes, Longer, End;
    var s := End(run);
    next := Opens(from, run, t);
    var s1 := End(next);
    CalledStep(s1, t, 0, 0, false);
    SetTwice(s.pcs, t, Broadcasting(0), BroadcastUnlock);
    next := Take(from, next, Next(t, 0, false), s1.(pcs := s.pcs[t := BroadcastUnlock]));
    EndBroadcastStep(s1.(pcs := s.pcs[t := BroadcastUnlock]), t, 0, false);
    SetTwice(s.pcs, t, BroadcastUnlock, WaitLock);
    next := Take(from, next, Next(t, 0, false), s1.(master := false, pcs := s.pcs[t := WaitLock]));
  }

  /** One look at the thread list, with the unlock. */
  lemma Looks(from: Run, run: Run, t: nat) returns (next: Run)
    requires Longer(from, run) && IsAt(End(run), t, WaitLock) && !End(run).master
    ensures var s := End(run);
      && Longer(from, next)
      && End(next) == if s.threads == [] then s.(hist := s.hist + [Drained(t)], pcs := s.pcs[t := Freeing(false)])
                      else s.(pcs := s.pcs[t := Sleeping])
  {
    hide Goes, Longer, End;
    var s := End(run);
    LookStep(s, t);
    var s1 := s.(master := true, pcs := s.pcs[t := WaitTest]);
    next := Take(from, run, Lock(t), s1);
    var more := s.threads != [];
    var s2 := s1.(pcs := s.pcs[t := WaitUnlock(more)], hist := if more then s.hist else s.hist + [Drained(t)]);
    SetTwice(s.pcs, t, WaitTest, WaitUnlock(more));
    if more {
      FoundStep(s1, t, 0, false);
    } else {
      DrainedStep(s1, t, 0, false);
    }
    next := Take(from, next, Next(t, 0, false), s2);
    LookedStep(s2, t, more, 0, false);
    var to := if more then Sleeping else Freeing(false);
    SetTwice(s.pcs, t, WaitUnlock(more), to);
    next := Take(from, next, Next(t, 0, false), s2.(master := false, pcs := s.pcs[t := to]));
  }

  lemma Frees(from: Run, run: Run, t: nat, timedOut: bool) returns (next: Run)
    requires Longer(from, run) && IsAt(End(run), t, Freeing(timedOut))
    ensures var s := End(run);
      && Longer(from, next)
      && End(next) == s.(callbacks := [], threads := [], freed := true, hist := s.hist + [Sent(t, timedOut)],
                         pcs := s.pcs[t := FinalLock])
  {
    hide Goes, Longer, End;
    var s := End(run);
    FreeStep(s, t, timedOut, 0, false);
    next := Take(from, run, Next(t, 0, false), s.(callbacks := [], threads := [], freed := true,
                                            hist := s.hist + [Sent(t, timedOut)], pcs := s.pcs[t := FinalLock]));
  }

  /** A wait that is given up after one look. */
  lemma GivesUp(from: Run, run: Run, t: nat) returns (next: Run)
    requires Longer(from, run) && IsAt(End(run), t, WaitLock) && !End(run).master && End(run).threads != []
    ensures var s := End(run);
      && Longer(from, next)
      && End(next) == s.(callbacks := [], threads := [], freed := true, hist := s.hist + [Sent(t, true)],
                         pcs := s.pcs[t := FinalLock])
  {
    hide Goes, Longer, End;
    var s := End(run);
    next := Looks(from, run, t);
    SleptStep(End(next), t, 0, true);
    SetTwice(s.pcs, t, Sleeping, Freeing(true));
    next := Take(from, next, Next(t, 0, true), s.(pcs := s.pcs[t := Freeing(true)]));
    next := Frees(from, next, t, true);
    SetTwice(s.pcs, t, Freeing(true), FinalLock);
  }

  /** A wait that ends at its first look. */
  lemma SeesNobody(from: Run, run: Run, t: nat) returns (next: Run)
    requires Longer(from, run) && IsAt(End(run), t, WaitLock) && !End(run).master && End(run).threads == []
    ensures var s := End(run);
      && Longer(from, next)
      && End(next) == s.(callbacks := [], threads := [], freed := true,
                         hist := s.hist + [Drained(t), Sent(t, false)], pcs := s.pcs[t := FinalLock])
  {
    hide Goes, Longer, End;
    var s := End(run);
    next := Looks(from, run, t);
    next := Frees(from, next, t, false);
    SetTwice(s.pcs, t, Freeing(false), FinalLock);
    assert s.hist + [Drained(t)] + [Sent(t, false)] == s.hist + [Drained(t), Sent(t, false)];
  }

  lemma Stays(from: Run, run: Run, t: nat) returns (next: Run)
    requires Longer(from, run) && IsAt(End(run), t, FinalLock) && !End(run).master && !End(run).exitFlag
    ensures var s := End(run);
      Longer(from, next) && End(next) == s.(master := true, pcs := s.pcs[t := FinalEvent])
  {
    hide Goes, Longer, End;
    var s := End(run);
    FinalLockStep(s, t);
    var s1 := s.(master := true, pcs := s.pcs[t := FinalTest]);
    next := Take(from, run, Lock(t), s1);
    GoOnStep(s1, t, 0, false);
    SetTwice(s.pcs, t, FinalTest, FinalEvent);
    next := Take(from, next, Next(t, 0, false), s1.(pcs := s.pcs[t := FinalEvent]));
  }

  lemma Retires(from: Run, run: Run, t: nat) returns (next: Run)
    requires Longer(from, run) && IsAt(End(run), t, FinalLock) && !End(run).master && !End(run).exitFlag
    ensures var s := End(run);
      && Longer(from, next)
      && End(next) == s.(event := true, started := false, hist := s.hist + [Retired(t)], pcs := s.pcs[t := Gone])
  {
    hide Goes, Longer, End;
    var s := End(run);
    next := Stays(from, run, t);
    CloseAgainStep(End(next), t, 0, false);
    SetTwice(s.pcs, t, FinalEvent, FinalClear);
    var s1 := s.(master := true, event := true, pcs := s.pcs[t := FinalClear]);
    next := Take(from, next, Next(t, 0, false), s1);
    RetireStep(s1, t, 0, false);
    SetTwice(s.pcs, t, FinalClear, FinalUnlock);
    var s2 := s1.(started := false, hist := s.hist + [Retired(t)], pcs := s.pcs[t := FinalUnlock]);
    next := Take(from, next, Next(t, 0, false), s2);
    LeaveStep(s2, t, 0, false);
    SetTwice(s.pcs, t, FinalUnlock, Gone);
    next := Take(from, next, Next(t, 0, false), s2.(master := false, pcs := s.pcs[t := Gone]));
  }

  lemma EndsProcess(from: Run, run: Run, t: nat) returns (next: Run)
    requires Longer(from, run) && IsAt(End(run), t, FinalLock) && !End(run).master && End(run).exitFlag
    ensures var s := End(run);
      && Longer(from, next)
      && End(next) == s.(master := true, exited := true, hist := s.hist + [ProcessExit(t)],
                         pcs := s.pcs[t := FinalTest])
  {
    hide Goes, Longer, End;
    var s := End(run);
    FinalLockStep(s, t);
    var s1 := s.(master := true, pcs := s.pcs[t := FinalTest]);
    next := Take(from, run, Lock(t), s1);
    ExitStep(s1, t, 0, false);
    next := Take(from, next, Next(t, 0, false), s1.(exited := true, hist := s.hist + [ProcessExit(t)]));
  }

  // ---------------------------------------------------------------------- the runs

  const START: Run := Run([INITIAL], [])

  lemma StartsRun()
    ensures Longer(START, START) && End(START) == INITIAL
  {
  }

  /** Any run may be taken further, and keeps what it was at its end. */
  lemma Begins(run: Run)
    requires IsRun(run)
    ensures Longer(run, run)
  {
  }

  lemma Keeps(from: Run, run: Run)
    requires IsRun(from) && Longer(from, run)
    ensures |from.states| > 0 && |from.states| - 1 < |run.states| && run.states[|from.states| - 1] == End(from)
  {
  }

  /** A request made while no shutdown thread waits wakes nobody: the registration that
      creates one closes the event again, and the new thread cannot pass its wait. */
  lemma EarlyRequestIsForgotten() returns (run: Run)
    ensures IsRun(run)
    ensures var s := End(run);
      && s.hist == [Requested(true), Joined(7), Born(9)]
      && 9 in s.pcs && s.pcs[9].Awaiting?
      && forall child, failed :: !Enabled(s, Next(9, child, failed))
  {
    hide IsRun, Goes, End;
    StartsRun();
    run := Requests(START, START, 0, true);
    run := Registers(START, run, 1, 7, 9);
  }

  /** Thread 7 registers, and the shutdown thread created for it is sending. */
  lemma Sending() returns (run: Run)
    ensures IsRun(run)
    ensures var s := End(run);
      && s.shutdown && !s.master && !s.exited && s.started && s.threads == [7] && !s.exitFlag && !s.event
      && s.callbacks == [] && s.pcs == map[1 := Idle, 9 := WaitLock]
      && s.hist == [Joined(7), Born(9), Requested(false), Woken(9), Flagged(9), Opened(9)]
  {
    hide IsRun, Goes, End;
    StartsRun();
    run := Registers(START, START, 1, 7, 9);
    assert End(run).pcs == map[1 := Idle, 9 := Awaiting];
    run := Requests(START, run, 1, false);
    assert End(run).pcs == map[1 := Idle, 9 := Awaiting];
    run := Wakes(START, run, 9);
    assert End(run).pcs == map[1 := Idle, 9 := Flagging];
    run := Broadcasts(START, run, 9);
    assert End(run).pcs == map[1 := Idle, 9 := WaitLock];
  }

  /** A send that ends as it should: the registered thread confirms, the shutdown thread
      sees that nobody is left, and `send_block` returns false. */
  lemma ConfirmedInTime() returns (run: Run)
    ensures IsRun(run)
    ensures End(run).hist == [Joined(7), Born(9), Requested(false), Woken(9), Flagged(9), Opened(9),
                              Left(7), Drained(9), Sent(9, false)]
  {
    hide IsRun, Goes, End;
    run := Sending();
    Begins(run);
    NobodyLeft(End(run).threads, 7);
    var from := run;
    run := Confirms(from, run, 1, 7);
    run := SeesNobody(from, run, 9);
  }

  lemma NobodyLeft(list: seq<nat>, x: nat)
    requires list == [x]
    ensures Keep(list, (y: nat) => y == x) == []
  {
    assert list[..0] == [];
  }

  /** A request that the process end, made while the shutdown thread is already sending,
      wakes nobody and is obeyed. */
  lemma BusyRequestIsObeyed() returns (run: Run, k: nat)
    ensures IsRun(run) && k < |run.states| && forall t :: !Waits(run.states[k], t)
    ensures End(run).exited
    ensures End(run).hist == run.states[k].hist + [Requested(true), Sent(9, true), ProcessExit(9)]
  {
    hide IsRun, Goes, End;
    var from := Sending();
    Begins(from);
    run := Requests(from, from, 1, true);
    run := GivesUp(from, run, 9);
    run := EndsProcess(from, run, 9);
    Keeps(from, run);
    k := |from.states| - 1;
  }

  /** The first shutdown thread sends, gives up waiting for thread 7 and retires. */
  lemma FirstRound() returns (run: Run)
    ensures IsRun(run)
    ensures var s := End(run);
      && s.shutdown && !s.master && !s.exited && !s.started && s.threads == []
      && s.pcs == map[1 := Idle, 9 := Gone]
      && s.hist == [Joined(7), Born(9), Requested(false), Woken(9), Flagged(9), Opened(9), Sent(9, true), Retired(9)]
  {
    hide IsRun, Goes, End;
    var from := Sending();
    Begins(from);
    run := GivesUp(from, from, 9);
    run := Retires(from, run, 9);
    assert End(run).pcs == map[1 := Idle, 9 := Gone];
  }

  /** Thread 8 registers after that, and a second shutdown thread waits. */
  lemma SecondWaits() returns (run: Run)
    ensures IsRun(run)
    ensures var s := End(run);
      && Waits(s, 10) && s.shutdown && s.threads == [8] && IdleFor(s, 1)
      && forall timedOut :: Sent(10, timedOut) !in s.hist
  {
    hide IsRun, Goes, End;
    var from := FirstRound();
    Begins(from);
    run := Registers(from, from, 1, 8, 10);
  }

  /** A request that the process end, made while that thread waits, makes it end at once:
      nothing is sent, and thread 8 has not confirmed. */
  lemma SecondEndsAtOnce() returns (run: Run, k: nat)
    ensures IsRun(run) && k < |run.states|
    ensures Waits(run.states[k], 10) && run.states[k].shutdown && 8 in run.states[k].threads
    ensures var s := End(run);
      && s.exited && 8 in s.threads && !HasSent(s.hist, 10)
      && s.hist == run.states[k].hist + [Requested(true), Woken(10), ProcessExit(10)]
  {
    hide IsRun, Goes, End;
    var from := SecondWaits();
    Begins(from);
    run := Requests(from, from, 1, true);
    run := Wakes(from, run, 10);
    run := EndsProcess(from, run, 10);
    Keeps(from, run);
    k := |from.states| - 1;
  }
}
