/** What the contracts of `Machine` mean for a user of the library. */
module MachineTheorems {
  import opened GrowableStack
  import opened SignalStacks
  import opened Ledger
  import opened ThreadState
  import opened Machine
  import opened Structured

  // ------------------------------------------------------- dynamic extent

  /** Cutting the unwind stack at a restart's return point leaves exactly the restarts
      below that restart. */
  lemma {:induction false} RestartsBelow(u: seq<Entry>, n: nat) returns (i: nat)
    requires WellFormed(u) && n < |u| && u[n].pushed.PushedRestart?
    ensures WellFormed(u[..n])
    ensures i < |RestartsOf(u)| && RestartsOf(u)[i] == u[n].pushed.restart
    ensures RestartsOf(u[..n]) == RestartsOf(u)[..i]
    decreases |u|
  {
    if n == |u| - 1 {
      i := |RestartsOf(u)| - 1;
    } else {
      i := RestartsBelow(Init(u), n);
      assert Init(u)[..n] == u[..n];
    }
  }

  /** The handlers that do not outlive their scope. */
  ghost function ScopedHandlers(w: World): iset<HandlerEntry> {
    iset e | e in w.handlers && e !in w.persistent
  }

  lemma ScopedHandlersFollow(s: State)
    requires Inv(s)
    ensures ScopedHandlers(s.world) == iset e | e in Scoped(s.unwind)
  {
  }

  /** Two reachable states with the same unwind stack differ at most in the persistent
      handlers: same restarts, same scoped handlers, and with the same persistent
      handlers the same handler stack, in the same order with the same ids. */
  lemma UnwindStackDetermines(s: State, t: State)
    requires Inv(s) && Inv(t) && s.unwind == t.unwind
    ensures t.restarts == s.restarts
    ensures ScopedHandlers(t.world) == ScopedHandlers(s.world)
    ensures t.world.persistent == s.world.persistent ==> t.world.handlers == s.world.handlers
  {
    ScopedHandlersFollow(s);
    ScopedHandlersFollow(t);
    if t.world.persistent == s.world.persistent {
      SortedUnique(t.world.handlers, s.world.handlers, HandlerId);
    }
  }

  /** Dynamic extent: whatever code runs between the recording of a return point and
      the landing there, including actions that signal and jump elsewhere first, the
      landing finds the stacks as they were when the point was recorded. */
  lemma LandingRestores(answers: nat -> RestartType, sig: SigType, restart: RestartType, body: Prog,
                        point: Point, s: State)
    requires Inv(s) && point.unwindTo == |s.unwind|
    requires RestartScope(answers, sig, restart, body, point, s).outcome == Jump(point)
    ensures var t := RestartScope(answers, sig, restart, body, point, s).state;
      && t.unwind == s.unwind && t.restarts == s.restarts
      && ScopedHandlers(t.world) == ScopedHandlers(s.world)
      && (t.world.persistent == s.world.persistent ==> t.world.handlers == s.world.handlers)
  {
    hide RestartScope;
    UnwindStackDetermines(s, RestartScope(answers, sig, restart, body, point, s).state);
  }

  /** The same seen from any code inside the target's scope: a jump out of a run goes
      to the return point of a restart open before the run, and leaves exactly the
      unwind entries and the restarts below it. */
  lemma JumpRestores(answers: nat -> RestartType, p: Prog, s: State) returns (i: nat)
    requires Inv(s) && Run(answers, p, s).outcome.Jump?
    ensures var r := Run(answers, p, s);
      && i < |s.restarts| && s.restarts[i].point == r.outcome.point
      && r.state.restarts == s.restarts[..i]
      && r.outcome.point.unwindTo < |s.unwind|
      && r.state.unwind == s.unwind[..r.outcome.point.unwindTo]
      && ScopedHandlers(r.state.world) == iset e | e in Scoped(s.unwind[..r.outcome.point.unwindTo])
  {
    hide Run;
    var r := Run(answers, p, s);
    i := RestartsBelow(s.unwind, r.outcome.point.unwindTo);
    ScopedHandlersFollow(r.state);
  }

  // ------------------------------------------------------------- live targets

  lemma {:induction false} RestartAt(u: seq<Entry>, i: nat)
    requires WellFormed(u) && i < |RestartsOf(u)|
    ensures RestartsOf(u)[i].point.unwindTo < |u|
    ensures forall j :: 0 <= j < i ==> RestartsOf(u)[j].point.unwindTo < RestartsOf(u)[i].point.unwindTo
    decreases |u|
  {
    if i == |RestartsOf(u)| - 1 && Last(u).pushed.PushedRestart? {
      forall j | 0 <= j < i ensures RestartsOf(u)[j].point.unwindTo < |u| - 1 {
        RestartTarget(Init(u), RestartsOf(Init(u))[j]);
      }
    } else {
      RestartAt(Init(u), i);
    }
  }

  /** In every reachable state each restart's return point lies inside the unwind
      stack, at the entry that removes this very restart; the points strictly increase
      up the restart stack; and every removing entry belongs to a restart still there. */
  lemma TargetsAreLive(s: State, i: nat, n: nat)
    requires Inv(s) && i < |s.restarts| && n < |s.unwind|
    ensures s.restarts[i].point.unwindTo < |s.unwind|
    ensures s.unwind[s.restarts[i].point.unwindTo].op == CallRmRestart(s.restarts[i].id)
    ensures forall j :: 0 <= j < i ==> s.restarts[j].point.unwindTo < s.restarts[i].point.unwindTo
    ensures s.unwind[n].op.CallRmRestart? ==>
      exists j :: 0 <= j < |s.restarts| && s.restarts[j].point.unwindTo == n && s.restarts[j].id == s.unwind[n].op.id
  {
    RestartTarget(s.unwind, s.restarts[i]);
    RestartAt(s.unwind, i);
    if s.unwind[n].op.CallRmRestart? {
      EntryAt(s.unwind, n);
      var j := RestartsBelow(s.unwind, n);
    }
  }

  lemma {:induction false} EntryAt(u: seq<Entry>, n: nat)
    requires WellFormed(u) && n < |u|
    ensures EntryOk(u[n], n)
    decreases |u|
  {
    if n < |u| - 1 {
      EntryAt(Init(u), n);
    }
  }

  /** Ids, although recycled, strictly increase up both stacks after any run: a handler
      or restart is found by its id and nobody else is. The catchall is never removed. */
  lemma IdsIdentify(answers: nat -> RestartType, p: Prog, s: State, i: nat, j: nat)
    requires Inv(s)
    ensures var t := Run(answers, p, s).state;
      && (i < j < |t.world.handlers| ==> t.world.handlers[i].id < t.world.handlers[j].id)
      && (i < |t.restarts| ==> t.restarts[i].id == i)
      && t.world.handlers != [] && t.world.handlers[0] == CATCHALL
  {
    hide Run;
    var t := Run(answers, p, s).state;
    RestartIds(t.unwind);
    assert i < j < |t.world.handlers| ==> HandlerId(t.world.handlers[i]) < HandlerId(t.world.handlers[j]);
  }

  // ---------------------------------------------- every action exactly once

  lemma {:induction false} InstAt(u: seq<Entry>, i: nat)
    ensures i in Insts(u) <==> exists n :: 0 <= n < |u| && u[n].inst == i
    decreases |u|
  {
    if u != [] {
      InstAt(Init(u), i);
      if n :| 0 <= n < |u| && u[n].inst == i {
        assert n < |u| - 1 ==> Init(u)[n].inst == i;
      }
      if i in Insts(Init(u)) {
        var n :| 0 <= n < |Init(u)| && Init(u)[n].inst == i;
        assert u[n].inst == i;
      }
    }
  }

  /** Conservation over any run, however it ends: the history only grows, every action
      instance ever registered is either still on the unwind stack or was run or
      dropped exactly once, and no other instance occurs. */
  lemma ActionsSettleOnce(answers: nat -> RestartType, p: Prog, s: State, i: nat)
    requires Inv(s)
    ensures var t := Run(answers, p, s).state;
      var onStack := exists n :: 0 <= n < |t.unwind| && t.unwind[n].inst == i;
      && s.log <= t.log
      && RegisteredTimes(t.log, i) == (if i < t.nextInst then 1 else 0)
      && Settled(t.log, i) == (if i < t.nextInst && !onStack then 1 else 0)
  {
    hide Run;
    var t := Run(answers, p, s).state;
    ExactlyOnce(t.log, i);
    InstAt(t.unwind, i);
  }

  /** ... and always the instance registered last among those still waiting. */
  lemma ActionsSettleInReverse(answers: nat -> RestartType, p: Prog, s: State, c: nat, older: nat, newer: nat)
    requires Inv(s)
    requires var log := Run(answers, p, s).state.log;
      && c < |log| && !log[c].Registered? && log[c].inst == older
      && older < newer && RegisteredTimes(log[..c], newer) == 1
    ensures Settled(Run(answers, p, s).state.log[..c], newer) == 1
  {
    hide Run;
    ReverseOrder(Run(answers, p, s).state.log, c, older, newer);
  }

  /** A thread whose code ends has no action left. */
  lemma NothingLeftBehind(answers: nat -> RestartType, choices: nat -> bool, p: Prog, retries: nat, i: nat)
    requires Run(answers, p, InitialState(choices, retries)).outcome.Normal?
    ensures var t := Run(answers, p, InitialState(choices, retries)).state;
      && t.unwind == [] && t.restarts == []
      && (i < t.nextInst ==> Settled(t.log, i) == 1)
      && (forall e :: e in t.world.handlers <==> e in t.world.persistent)
  {
    hide Run;
    ActionsSettleOnce(answers, p, InitialState(choices, retries), i);
  }

  // -------------------------------------------------- handlers in programs

  lemma KeptThenDropped(w: World, u: seq<Entry>, slot: nat, sig: SigType, h: Handler)
    requires HandlersOk(w, u)
    ensures var r := DropPersistent(KeepPersistent(w, slot, sig, h), slot);
      && r.handlers == w.handlers && slot !in r.vars
      && r == w.(handlers := r.handlers, vars := r.vars, persistent := r.persistent)
  {
    hide HandlersOk, KeepPersistent, DropPersistent, WellFormed;
    var kept := KeepPersistent(w, slot, sig, h);
    KeptOnTop(w, slot, sig, h);
    if h.NullHandler? {
      DroppedNothing(kept, slot);
    } else {
      KeepPersistentOk(w, u, slot, sig, h);
      var i := DroppedExactly(kept, u, slot);
      TopCutOut(w.handlers, kept.vars[slot], i);
    }
  }

  /** Cutting one entry out leaves the pushed one there, or is cutting that one. */
  lemma TopCutOut(hs: seq<HandlerEntry>, e: HandlerEntry, i: nat)
    requires i <= |hs|
    ensures var cut := (hs + [e])[..i] + (hs + [e])[i + 1..]; e in cut || cut == hs
  {
    if i < |hs| {
      assert ((hs + [e])[..i] + (hs + [e])[i + 1..])[|hs| - 1] == e;
    }
  }

  lemma ThenNormally(answers: nat -> RestartType, a: Prog, b: Prog, s: State)
    requires Inv(s) && Run(answers, a, s).outcome.Normal?
    ensures Run(answers, Then(a, b), s) == Run(answers, b, Run(answers, a, s).state)
  {
    hide Inv;
  }

  lemma KeepRuns(answers: nat -> RestartType, slot: nat, sig: SigType, h: Handler, s: State)
    requires Inv(s)
    ensures Run(answers, PersistentHandler(slot, sig, h), s)
         == Result(Normal, s.(world := KeepPersistent(s.world, slot, sig, h)))
    ensures Run(answers, RmHandler(slot), s) == Result(Normal, s.(world := DropPersistent(s.world, slot)))
  {
    hide Inv, KeepPersistent, DropPersistent;
  }

  /** A persistent handler that is removed again leaves the handler stack as it was; its
      variable is spent. */
  lemma KeptThenRemoved(answers: nat -> RestartType, slot: nat, sig: SigType, h: Handler, s: State)
    requires Inv(s)
    ensures var r := Run(answers, Then(PersistentHandler(slot, sig, h), RmHandler(slot)), s);
      && r.outcome.Normal?
      && r.state == s.(world := r.state.world) && r.state.world.trace == s.world.trace
      && r.state.world.handlers == s.world.handlers && slot !in r.state.world.vars
  {
    hide Run, HandlersOk, KeepPersistent, DropPersistent, WellFormed;
    KeptThenDropped(s.world, s.unwind, slot, sig, h);
    KeepRuns(answers, slot, sig, h, s);
    ThenNormally(answers, PersistentHandler(slot, sig, h), RmHandler(slot), s);
    KeepRuns(answers, slot, sig, h, s.(world := KeepPersistent(s.world, slot, sig, h)));
  }

  /** Inside a handler's scope a signal of its type asks it first, and leaving the scope
      takes it away again. */
  lemma ScopedHandlerAskedFirst(answers: nat -> RestartType, sig: SigType, name: string, cleanup: bool,
                                env: seq<Offer>, w: World)
    ensures var m := Eval(answers, AutopopHandler(sig, UserHandler(name), Send(sig, cleanup)), env, w);
      |m.world.trace| > |w.trace| && m.world.trace[..|w.trace|] == w.trace
      && m.world.trace[|w.trace|] == Asked(UserHandler(name), sig)
  {
    hide Matching;
    var h := UserHandler(name);
    var inside := PushHandler(w, sig, h);
    PushedOnTop(w, sig, h);
    var d := Consult(answers, inside.asked, inside.handlers, sig);
    assert Last(inside.handlers).handler == h && d.consulted != [] && d.consulted[0].handler == h;
    ConsultExact(answers, inside.asked, inside.handlers, sig);
    assert forall i :: 0 <= i < |d.consulted| - 1 ==> d.consulted[i] == Init(d.consulted)[i];
    VisitsExact(d.consulted, sig, cleanup);
    VisitedExactly(inside, d, sig, cleanup);
    assert Eval(answers, Send(sig, cleanup), env, inside).world == Visit(inside, d, sig, cleanup);
  }

  /** Other code leaves what it does to see, and nothing else. */
  lemma EffectsAreSeen(answers: nat -> RestartType, tag: string, s: State)
    requires Inv(s)
    ensures Run(answers, Effect(tag), s) == Result(Normal, s.(world := s.world.(trace := s.world.trace + [Did(tag)])))
  {
  }

  // ------------------------------------------- the clean-up of a signal's data

  function Cleanings(trace: seq<Observation>): nat {
    if trace == [] then 0 else Cleanings(Init(trace)) + if Last(trace).Cleaned? then 1 else 0
  }

  /** Only `sig_init` installs the catchall. */
  ghost predicate OneCatchall(hs: seq<HandlerEntry>) {
    hs != [] && hs[0] == CATCHALL && forall i :: 0 < i < |hs| ==> !hs[i].handler.Catchall?
  }

  /** Calling user handlers cleans after each of them; the catchall does not return. */
  lemma {:induction false} CleanedAfterEach(hs: seq<HandlerEntry>, sig: SigType)
    requires forall i :: 0 <= i < |hs| - 1 ==> !hs[i].handler.Catchall?
    ensures Cleanings(Visits(hs, sig, true)) == if hs != [] && Last(hs).handler.Catchall? then |hs| - 1 else |hs|
  {
    if hs != [] {
      CleanedAfterEach(Init(hs), sig);
      var asked := Visits(Init(hs), sig, true) + [Asked(Last(hs).handler, sig)];
      assert Init(asked) == Visits(Init(hs), sig, true);
      if !Last(hs).handler.Catchall? {
        assert Visits(hs, sig, true) == asked + [Cleaned];
        assert Init(asked + [Cleaned]) == asked;
      } else {
        assert Visits(hs, sig, true) == asked;
      }
    }
  }

  /** The data is cleaned as often as handlers returned. */
  lemma CleanedPerReturn(answers: nat -> RestartType, asked: nat, hs: seq<HandlerEntry>, sig: SigType)
    ensures var d := Consult(answers, asked, hs, sig);
      Cleanings(Visits(d.consulted, sig, true)) == Returned(d)
  {
    ConsultExact(answers, asked, hs, sig);
    var d := Consult(answers, asked, hs, sig);
    assert forall i :: 0 <= i < |d.consulted| - 1 ==> d.consulted[i] == Init(d.consulted)[i];
    CleanedAfterEach(d.consulted, sig);
  }

  /** The catchall, and nothing else at the end, matches every signal. */
  lemma {:induction false} MatchingEndsInCatchall(hs: seq<HandlerEntry>, sig: SigType)
    requires OneCatchall(hs)
    ensures var m := Matching(hs, sig);
      && m != [] && Last(m) == CATCHALL
      && forall i :: 0 <= i < |m| - 1 ==> !m[i].handler.Catchall?
    decreases |hs|
  {
    if |hs| > 1 {
      MatchingEndsInCatchall(Init(hs), sig);
    } else {
      assert Matching(Init(hs), sig) == [];
    }
  }

  /** The data of a signal is cleaned exactly once if and only if some user handler
      handles it and either the topmost one answers or it is the only one. */
  lemma CleanedOnceIff(answers: nat -> RestartType, asked: nat, hs: seq<HandlerEntry>, sig: SigType)
    requires OneCatchall(hs)
    ensures var m := Matching(hs, sig);
      Cleanings(Visits(Consult(answers, asked, hs, sig).consulted, sig, true)) == 1
      <==> |m| > 1 && (answers(asked) != RestartNull || m[1].handler.Catchall?)
  {
    hide Visits, Cleanings, Consult, Matching;
    CleanedPerReturn(answers, asked, hs, sig);
    MatchingEndsInCatchall(hs, sig);
    ConsultExact(answers, asked, hs, sig);
    NeverFallsThrough(answers, asked, hs, sig);
    var d, m := Consult(answers, asked, hs, sig), Matching(hs, sig);
    assert Last(d.consulted) == m[|d.consulted| - 1];
    if |d.consulted| > 1 {
      assert !Init(d.consulted)[0].handler.Catchall? && answers(asked + 0) == RestartNull;
    }
  }

  /** Two handlers, the upper of which declines: the lower is called with data already
      cleaned, and it is cleaned again. */
  lemma CleanedTwice()
    ensures var answers := (n: nat) => if n == 0 then RestartNull else Restart("RETRY");
      var sig := Signal("FAIL");
      var upper, lower := HandlerEntry(sig, UserHandler("upper"), 3), HandlerEntry(sig, UserHandler("lower"), 2);
      Visits(Consult(answers, 0, [CATCHALL, lower, upper], sig).consulted, sig, true)
      == [Asked(upper.handler, sig), Cleaned, Asked(lower.handler, sig), Cleaned]
  {
    var answers := (n: nat) => if n == 0 then RestartNull else Restart("RETRY");
    var sig := Signal("FAIL");
    var upper, lower := HandlerEntry(sig, UserHandler("upper"), 3), HandlerEntry(sig, UserHandler("lower"), 2);
    assert Init([CATCHALL, lower, upper]) == [CATCHALL, lower];
    assert Consult(answers, 1, [CATCHALL, lower], sig) == Dispatch([lower], Answered(Restart("RETRY")));
    assert Init([upper, lower]) == [upper] && Init([upper]) == [];
    assert Visits([upper], sig, true) == [Asked(upper.handler, sig), Cleaned];
  }

  // -------------------------------------------------------- retry discipline

  /** An autopop restart that was jumped to: its action runs with the restart absent;
      when the action ends normally the restart is pushed again with the same id and
      the same return point, onto the same restart and unwind stacks as at first. */
  lemma RetryReestablishes(answers: nat -> RestartType, sig: SigType, restart: RestartType, act: Prog, body: Prog,
                           point: Point, s: State)
    requires Inv(s) && point.unwindTo == |s.unwind|
    requires var r := RestartScope(answers, sig, restart, body, point, s);
      r.outcome == Jump(point) && r.state.world.retries > 0
    ensures var landed := RestartScope(answers, sig, restart, body, point, s).state;
      var a := Run(answers, act, Retry(landed));
      && landed.restarts == s.restarts
      && (forall e :: e in landed.restarts ==> e.point != point)
      && (a.outcome.Normal? ==>
            var first := OpenRestart(s, sig, restart, point);
            var again := OpenRestart(a.state, sig, restart, point);
            && again.restarts == first.restarts
            && Init(again.unwind) == Init(first.unwind)
            && Last(again.unwind).op == Last(first.unwind).op)
      && (a.outcome.Jump? ==> a.outcome.point.unwindTo < point.unwindTo)
  {
    hide RestartScope, Run;
    var landed := RestartScope(answers, sig, restart, body, point, s).state;
    LandingRestores(answers, sig, restart, body, point, s);
    forall e | e in landed.restarts ensures e.point != point {
      RestartTarget(landed.unwind, e);
    }
    var a := Run(answers, act, Retry(landed));
    if a.outcome.Normal? {
      UnwindStackDetermines(s, a.state);
    }
  }

  /** A one-shot restart is gone while and after its action runs. */
  lemma OneShotIsGone(answers: nat -> RestartType, sig: SigType, restart: RestartType, body: Prog, act: Prog,
                      point: Point, s: State)
    requires Inv(s) && point.unwindTo == |s.unwind|
    requires RestartScope(answers, sig, restart, body, point, s).outcome == Jump(point)
    ensures var landed := RestartScope(answers, sig, restart, body, point, s).state;
      var a := Run(answers, act, landed);
      && RunOnce(answers, sig, restart, body, act, point, s) == a
      && (forall e :: e in landed.restarts ==> e.point != point)
      && (a.outcome.Normal? ==> a.state.restarts == s.restarts)
      && a.outcome != Jump(point)
  {
    hide RestartScope, Run;
    var landed := RestartScope(answers, sig, restart, body, point, s).state;
    LandingRestores(answers, sig, restart, body, point, s);
    forall e | e in landed.restarts ensures e.point != point {
      RestartTarget(landed.unwind, e);
    }
  }

  /** The state in which a restart's action starts after a landing: that of the landing
      for a one-shot restart, one return less to go for an autopop restart. */
  ghost predicate StartsAt(start: State, landed: State) {
    start == landed || (landed.world.retries > 0 && start == Retry(landed))
  }

  /** Code that runs at a landing and jumps on: `states[i + 1]` is where the jump of
      `acts[i]` from `states[i]` lands, and for the action of an autopop restart the
      state in which it starts there. */
  ghost predicate JumpChain(answers: nat -> RestartType, acts: seq<Prog>, states: seq<State>) {
    && |states| == |acts| + 1
    && Inv(states[0])
    && forall i :: 0 <= i < |acts| ==>
         && Inv(states[i])
         && Run(answers, acts[i], states[i]).outcome.Jump?
         && StartsAt(states[i + 1], Run(answers, acts[i], states[i]).state)
  }

  /** A chain of restart actions that each signal lands further down each time, so it
      is no longer than the restart stack it started on. */
  lemma {:induction false} ChainDescends(answers: nat -> RestartType, acts: seq<Prog>, states: seq<State>)
    requires JumpChain(answers, acts, states)
    ensures |Last(states).unwind| + |acts| <= |states[0].unwind|
    ensures |Last(states).restarts| + |acts| <= |states[0].restarts|
    ensures Last(states).restarts <= states[0].restarts && Last(states).unwind <= states[0].unwind
    decreases |acts|
  {
    hide Run, Inv;
    if acts != [] {
      var n := |acts| - 1;
      assert JumpChain(answers, acts[..n], states[..n + 1]) by {
        forall i | 0 <= i < n
          ensures Run(answers, acts[..n][i], states[..n + 1][i]).outcome.Jump?
        {
          assert Run(answers, acts[i], states[i]).outcome.Jump?;
        }
      }
      ChainDescends(answers, acts[..n], states[..n + 1]);
      var i := JumpRestores(answers, acts[n], states[n]);
    }
  }

  // --------------------------------------------------------------- termination

  predicate RetryFree(p: Prog) {
    match p
    case Then(a, b) => RetryFree(a) && RetryFree(b)
    case Branch(a, b) => RetryFree(a) && RetryFree(b)
    case UnwindAction(a, body) => RetryFree(a) && RetryFree(body)
    case ExplicitUnwindAction(a, body) => RetryFree(a) && RetryFree(body)
    case AutopopHandler(_, _, body) => RetryFree(body)
    case ProvideRestart(_, _, body, act) => RetryFree(body) && RetryFree(act)
    case AutopopRestart(_, _, _, _) => false
    case _ => true
  }

  /** The code waiting on an unwind stack has no autopop restart in it. Restarts of any
      kind may be open. */
  predicate Quiet(u: seq<Entry>) {
    forall i :: 0 <= i < |u| ==> QuietOp(u[i].op)
  }

  predicate QuietOp(op: Op) {
    op.Call? ==> RetryFree(op.body)
  }

  /** The run was not cut off, and did not use up any of the bound. */
  predicate Steady(r: Result, s: State) {
    !r.outcome.OutOfRetries? && r.state.world.retries == s.world.retries
  }

  lemma {:induction false} FinishTerminates(answers: nat -> RestartType, op: Op, inst: nat, s: State)
    requires Inv(s) && s.unwind != [] && Last(s.unwind).op == op && Last(s.unwind).inst == inst
    requires Quiet(s.unwind)
    ensures Steady(Finish(answers, op, inst, s), s)
    decreases s.world.retries, OpSize(op) + Weight(Init(s.unwind)), 0
  {
    hide Run, Inv;
    if op.Call? {
      PopInv(s, Ran(inst));
      RetryFreeTerminates(answers, op.body, Pop(s, Ran(inst)));
    }
  }

  /** Re-entrant unwinding stops. From any reachable state, to any return point, with
      actions that open scopes, signal and start further unwinding as they like: it
      lands or ends the thread, without any return to an autopop restart. */
  lemma {:induction false} UnwindTerminates(answers: nat -> RestartType, p: Point, s: State)
    requires Inv(s) && p.unwindTo <= |s.unwind| && Quiet(s.unwind)
    ensures var r := Unwind(answers, p, s);
      Steady(r, s) && (r.outcome.Jump? || r.outcome.Died?)
    decreases s.world.retries, Weight(s.unwind), 1
  {
    hide Finish, Inv;
    if |s.unwind| > p.unwindTo {
      var e := Last(s.unwind);
      FinishTerminates(answers, e.op, e.inst, s);
      var r := Finish(answers, e.op, e.inst, s);
      if r.outcome.Normal? {
        UnwindTerminates(answers, p, r.state);
      }
    }
  }

  /** So does every signal. */
  lemma {:induction false} SignalTerminates(answers: nat -> RestartType, sig: SigType, cleanup: bool, s: State)
    requires Inv(s) && Quiet(s.unwind)
    ensures var r := SendSignal(answers, sig, cleanup, s);
      Steady(r, s) && (r.outcome.Jump? || r.outcome.Died?)
    decreases s.world.retries, Weight(s.unwind), 2
  {
    hide Unwind, Consult;
    var d := Consult(answers, s.world.asked, s.world.handlers, sig);
    var s1 := s.(world := Visit(s.world, d, sig, cleanup));
    if d.verdict.Answered? && Select(s1.restarts, sig, d.verdict.restart).Selected? {
      SelectTopmost(s1.restarts, sig, d.verdict.restart);
      var e := Select(s1.restarts, sig, d.verdict.restart).entry;
      RestartTarget(s1.unwind, e);
      UnwindTerminates(answers, e.point, s1);
    }
  }

  lemma {:induction false} ScopeTerminates(answers: nat -> RestartType, sig: SigType, restart: RestartType, body: Prog,
                                           point: Point, s: State)
    requires Inv(s) && point.unwindTo == |s.unwind| && RetryFree(body) && Quiet(s.unwind)
    ensures Steady(RestartScope(answers, sig, restart, body, point, s), s)
    decreases s.world.retries, Size(body) + 3 + Weight(s.unwind), 3
  {
    hide Run, Finish, Inv;
    OpenRestartInv(s, sig, restart, point.scope);
    var start := OpenRestart(s, sig, restart, point);
    EnteredTerminates(answers, body, start, s.unwind);
  }

  /** The code of a scope and then its action, from just after the scope's push. */
  lemma {:induction false} EnteredTerminates(answers: nat -> RestartType, body: Prog, start: State, u: seq<Entry>)
    requires Inv(start) && start.unwind != [] && Init(start.unwind) == u
    requires RetryFree(body) && Quiet(u) && QuietOp(Last(start.unwind).op)
    ensures var r, e := Run(answers, body, start), Last(start.unwind);
      && Steady(r, start)
      && (r.outcome.Normal? ==> Steady(Finish(answers, e.op, e.inst, r.state), start))
    decreases start.world.retries, Size(body) + Weight(start.unwind), 3
  {
    hide Run, Finish, Inv;
    assert start.unwind == u + [Last(start.unwind)];
    RetryFreeTerminates(answers, body, start);
    var r := Run(answers, body, start);
    if r.outcome.Normal? {
      FinishTerminates(answers, Last(start.unwind).op, Last(start.unwind).inst, r.state);
    }
  }

  lemma {:induction false} ActionTerminates(answers: nat -> RestartType, a: Prog, body: Prog, s: State)
    requires Inv(s) && RetryFree(a) && RetryFree(body) && Quiet(s.unwind)
    ensures Steady(Machine.RunAction(answers, a, body, s), s) && Steady(RunExplicit(answers, a, body, s), s)
    decreases s.world.retries, Size(a) + Size(body) + 4 + Weight(s.unwind), 1
  {
    hide Run, Finish, Inv;
    RegisterInv(s, a);
    WeightPush(s.unwind, Last(Register(s, Call(a), NoPush).unwind));
    EnteredTerminates(answers, body, Register(s, Call(a), NoPush), s.unwind);
  }

  lemma {:induction false} HandlerTerminates(answers: nat -> RestartType, sig: SigType, h: Handler, body: Prog,
                                             s: State)
    requires Inv(s) && RetryFree(body) && Quiet(s.unwind)
    ensures Steady(RunHandler(answers, sig, h, body, s), s)
    decreases s.world.retries, Size(body) + 4 + Weight(s.unwind), 1
  {
    hide Run, Finish, Inv;
    OpenHandlerInv(s, sig, h);
    WeightPush(s.unwind, Last(OpenHandler(s, sig, h).unwind));
    EnteredTerminates(answers, body, OpenHandler(s, sig, h), s.unwind);
  }

  lemma {:induction false} OnceTerminates(answers: nat -> RestartType, sig: SigType, restart: RestartType, body: Prog,
                                          act: Prog, point: Point, s: State)
    requires Inv(s) && point.unwindTo == |s.unwind| && RetryFree(body) && RetryFree(act) && Quiet(s.unwind)
    ensures Steady(RunOnce(answers, sig, restart, body, act, point, s), s)
    decreases s.world.retries, Size(body) + Size(act) + 4 + Weight(s.unwind), 1
  {
    hide Run, RestartScope, Inv;
    ScopeTerminates(answers, sig, restart, body, point, s);
    var r := RestartScope(answers, sig, restart, body, point, s);
    if r.outcome == Jump(point) {
      RetryFreeTerminates(answers, act, r.state);
    }
  }

  /** Code without autopop restarts ends from any reachable state, inside restarts of
      any kind. */
  lemma {:induction false} RetryFreeTerminates(answers: nat -> RestartType, p: Prog, s: State)
    requires Inv(s) && RetryFree(p) && Quiet(s.unwind)
    ensures Steady(Run(answers, p, s), s)
    decreases s.world.retries, Size(p) + Weight(s.unwind), 2
  {
    hide Inv, Machine.RunAction, RunExplicit, RunHandler, RunOnce, SendSignal, Finish;
    match p
    case Then(a, b) =>
      RetryFreeTerminates(answers, a, s);
      if Run(answers, a, s).outcome.Normal? {
        RetryFreeTerminates(answers, b, Run(answers, a, s).state);
      }
    case Branch(a, b) =>
      RetryFreeTerminates(answers, if Chosen(s.world) then a else b, Decide(s));
    case UnwindAction(a, body) =>
      ActionTerminates(answers, a, body, s);
    case ExplicitUnwindAction(a, body) =>
      ActionTerminates(answers, a, body, s);
    case AutopopHandler(sig, h, body) =>
      HandlerTerminates(answers, sig, h, body, s);
    case ProvideRestart(sig, restart, body, act) =>
      OnceTerminates(answers, sig, restart, body, act, Point(s.nextScope, |s.unwind|), NewScope(s));
    case Send(sig, cleanup) =>
      SignalTerminates(answers, sig, cleanup, s);
    case _ =>
  }

  /** Code that signals as long as some test of user state fails, inside a restart that
      does something and starts it again. */
  function TryAgain(sig: SigType, restart: RestartType, tag: string): Prog {
    AutopopRestart(sig, restart, Effect(tag), Branch(Send(sig, false), Skip))
  }

  lemma FailedTry(answers: nat -> RestartType, sig: SigType, restart: RestartType, env: seq<Offer>, w: World)
    requires Consult(answers, w.asked, w.handlers, sig).verdict == Answered(restart)
    requires Chosen(w)
    ensures var m := Eval(answers, Branch(Send(sig, false), Skip), env + [Offer(sig, restart)], w);
      && m.ending == Leaving(|env|)
      && m.world.handlers == w.handlers && m.world.retries == w.retries
      && m.world.choices == w.choices && m.world.decided == w.decided + 1
  {
    hide Consult, Visits;
    var inner := env + [Offer(sig, restart)];
    assert Last(inner) == Offer(sig, restart);
    assert Eval(answers, Send(sig, false), inner, Choose(w)).ending == Leaving(|env|);
  }

  lemma {:induction false} EvalTryAgain(answers: nat -> RestartType, sig: SigType, restart: RestartType, tag: string,
                                        env: seq<Offer>, w: World, k: nat)
    requires forall n: nat :: Consult(answers, n, w.handlers, sig).verdict == Answered(restart)
    requires forall i :: w.decided <= i < w.decided + k ==> w.choices(i)
    requires !w.choices(w.decided + k)
    ensures var m := Eval(answers, TryAgain(sig, restart, tag), env, w);
      && m.ending == (if k <= w.retries then Done else CutOff)
      && m.world.handlers == w.handlers
      && m.world.retries == if k <= w.retries then w.retries - k else 0
    decreases k
  {
    hide Consult, Visits;
    var inner := env + [Offer(sig, restart)];
    if k == 0 {
      assert Eval(answers, Skip, inner, Choose(w)) == Meaning(Done, Choose(w));
      assert Eval(answers, Branch(Send(sig, false), Skip), inner, w) == Meaning(Done, Choose(w));
    } else {
      assert Chosen(w);
      FailedTry(answers, sig, restart, env, w);
      var m := Eval(answers, Branch(Send(sig, false), Skip), inner, w);
      if w.retries > 0 {
        var landed := m.world.(retries := m.world.retries - 1);
        var next := Observe(landed, tag);
        assert Eval(answers, Effect(tag), env, landed) == Meaning(Done, next);
        EvalTryAgain(answers, sig, restart, tag, env, next, k - 1);
      }
    }
  }

  /** Retry until it succeeds: with a handler that always asks for the restart, code
      that fails `k` times and then succeeds ends normally after exactly `k` returns to
      the restart. */
  lemma RetriesUntilItSucceeds(answers: nat -> RestartType, choices: nat -> bool, sig: SigType, restart: RestartType,
                               tag: string, name: string, k: nat, retries: nat)
    requires restart != RestartNull && forall n: nat :: answers(n) == restart
    requires (forall i: nat :: i < k ==> choices(i)) && !choices(k)
    ensures var r := Run(answers, AutopopHandler(sig, UserHandler(name), TryAgain(sig, restart, tag)),
                         InitialState(choices, retries));
      && r.outcome == (if k <= retries then Normal else OutOfRetries)
      && (k <= retries ==> r.state.world.retries == retries - k && r.state.world.handlers == [CATCHALL])
  {
    hide Run;
    var p := AutopopHandler(sig, UserHandler(name), TryAgain(sig, restart, tag));
    RunIsStructured(answers, choices, p, retries);
    var w := PushHandler(InitialWorld(choices, retries), sig, UserHandler(name));
    assert Last(w.handlers) == HandlerEntry(sig, UserHandler(name), 2);
    EvalTryAgain(answers, sig, restart, tag, [], w, k);
    assert Init(w.handlers) == [CATCHALL];
  }

  function OneMore(w: World): World {
    w.(retries := w.retries + 1)
  }

  /** A meaning that was not cut off is the same under a larger bound, and one that
      was has used up its bound. */
  ghost predicate Clocked(answers: nat -> RestartType, p: Prog, env: seq<Offer>, w: World) {
    var m := Eval(answers, p, env, w);
    && (m.ending.CutOff? ==> m.world.retries == 0)
    && (!m.ending.CutOff? ==> Eval(answers, p, env, OneMore(w)) == Meaning(m.ending, OneMore(m.world)))
  }

  lemma {:induction false} EvalClock(answers: nat -> RestartType, p: Prog, env: seq<Offer>, w: World)
    ensures Clocked(answers, p, env, w)
    decreases w.retries, p, 1
  {
    hide Clocked;
    match p
    case Then(a, b) =>
      EvalClock(answers, a, env, w);
      EvalClock(answers, b, env, Eval(answers, a, env, w).world);
      ThenClock(answers, p, env, w);
    case Branch(a, b) =>
      EvalClock(answers, if Chosen(w) then a else b, env, Choose(w));
      BranchClock(answers, p, env, w);
    case UnwindAction(a, body) =>
      EvalClock(answers, body, env, w);
      EvalClock(answers, a, env, Eval(answers, body, env, w).world);
      ActionClock(answers, p, env, w);
    case ExplicitUnwindAction(a, body) =>
      EvalClock(answers, body, env, w);
      EvalClock(answers, a, env, Eval(answers, body, env, w).world);
      ExplicitClock(answers, p, env, w);
    case AutopopHandler(sig, h, body) =>
      EvalClock(answers, body, env, PushHandler(w, sig, h));
      HandlerClock(answers, p, env, w);
    case ProvideRestart(sig, restart, body, act) =>
      EvalClock(answers, body, env + [Offer(sig, restart)], w);
      EvalClock(answers, act, env, Eval(answers, body, env + [Offer(sig, restart)], w).world);
      OnceClock(answers, p, env, w);
    case AutopopRestart(_, _, _, _) =>
      RetryClock(answers, p, env, w);
    case _ =>
      StepClock(answers, p, env, w);
  }

  lemma ThenClock(answers: nat -> RestartType, p: Prog, env: seq<Offer>, w: World)
    requires p.Then? && Clocked(answers, p.first, env, w)
    requires Clocked(answers, p.second, env, Eval(answers, p.first, env, w).world)
    ensures Clocked(answers, p, env, w)
  {
  }

  lemma BranchClock(answers: nat -> RestartType, p: Prog, env: seq<Offer>, w: World)
    requires p.Branch? && Clocked(answers, if Chosen(w) then p.yes else p.no, env, Choose(w))
    ensures Clocked(answers, p, env, w)
  {
    assert Choose(OneMore(w)) == OneMore(Choose(w));
  }

  lemma ActionClock(answers: nat -> RestartType, p: Prog, env: seq<Offer>, w: World)
    requires p.UnwindAction? && Clocked(answers, p.body, env, w)
    requires Clocked(answers, p.action, env, Eval(answers, p.body, env, w).world)
    ensures Clocked(answers, p, env, w)
  {
  }

  lemma ExplicitClock(answers: nat -> RestartType, p: Prog, env: seq<Offer>, w: World)
    requires p.ExplicitUnwindAction? && Clocked(answers, p.body, env, w)
    requires Clocked(answers, p.action, env, Eval(answers, p.body, env, w).world)
    ensures Clocked(answers, p, env, w)
  {
  }

  lemma HandlerClock(answers: nat -> RestartType, p: Prog, env: seq<Offer>, w: World)
    requires p.AutopopHandler? && Clocked(answers, p.body, env, PushHandler(w, p.hsig, p.handler))
    ensures Clocked(answers, p, env, w)
  {
    assert PushHandler(OneMore(w), p.hsig, p.handler) == OneMore(PushHandler(w, p.hsig, p.handler));
  }

  lemma OnceClock(answers: nat -> RestartType, p: Prog, env: seq<Offer>, w: World)
    requires p.ProvideRestart? && Clocked(answers, p.body, env + [Offer(p.rsig, p.restart)], w)
    requires Clocked(answers, p.onRestart, env, Eval(answers, p.body, env + [Offer(p.rsig, p.restart)], w).world)
    ensures Clocked(answers, p, env, w)
  {
  }

  lemma StepClock(answers: nat -> RestartType, p: Prog, env: seq<Offer>, w: World)
    requires p.Skip? || p.Effect? || p.PersistentHandler? || p.RmHandler? || p.Send?
    ensures Clocked(answers, p, env, w)
  {
  }

  lemma {:induction false} RetryClock(answers: nat -> RestartType, p: Prog, env: seq<Offer>, w: World)
    requires p.AutopopRestart?
    ensures Clocked(answers, p, env, w)
    decreases w.retries, p, 0
  {
    var inner := env + [Offer(p.rsig, p.restart)];
    EvalClock(answers, p.body, inner, w);
    var m := Eval(answers, p.body, inner, w);
    if m.ending == Leaving(|env|) && m.world.retries > 0 {
      var w1 := m.world.(retries := m.world.retries - 1);
      assert OneMore(w1) == OneMore(m.world).(retries := OneMore(m.world).retries - 1);
      EvalClock(answers, p.onRestart, env, w1);
      if Eval(answers, p.onRestart, env, w1).ending.Done? {
        RetryClock(answers, p, env, Eval(answers, p.onRestart, env, w1).world);
      }
    }
  }

  /** The bound on restarts is only a clock: a run that was not cut off is the same
      run under a larger bound, and one that was has used its bound up. So the only
      way not to end is to restart autopop scopes more often than any bound. */
  lemma RetryBoundIsAClock(answers: nat -> RestartType, choices: nat -> bool, p: Prog, retries: nat)
    ensures var r := Run(answers, p, InitialState(choices, retries));
      var r' := Run(answers, p, InitialState(choices, retries + 1));
      && (r.outcome.OutOfRetries? ==> r.state.world.retries == 0)
      && (!r.outcome.OutOfRetries? ==> r'.outcome == r.outcome && r'.state.world == OneMore(r.state.world))
  {
    hide Run, Eval;
    RunIsStructured(answers, choices, p, retries);
    RunIsStructured(answers, choices, p, retries + 1);
    EvalClock(answers, p, [], InitialWorld(choices, retries));
    assert OneMore(InitialWorld(choices, retries)) == InitialWorld(choices, retries + 1);
  }
}
