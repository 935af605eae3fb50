/** The thread-local state of the library in the form the C code keeps it: three
    growable arrays updated in place by the loops of `signals.c` and `unwind.c`. Each
    method is proved against `ThreadState` and `Machine`. */
module EvsigThread {
  import opened GrowableStack
  import opened SignalStacks
  import opened Ledger
  import opened ThreadState
  import opened Machine

  // ------------------------------------------- the loop of `_sig_send`

  /** The world after one handler has been called. */
  function AfterCall(w: World, e: HandlerEntry, sig: SigType, cleanup: bool): World {
    w.(asked := if e.handler.Catchall? then w.asked else w.asked + 1,
       trace := w.trace + [Asked(e.handler, sig)] + if cleanup && !e.handler.Catchall? then [Cleaned] else [])
  }

  /** Halfway down the handler stack: `done` have been called, `rest` are still below. */
  ghost predicate Walked(answers: nat -> RestartType, sig: SigType, cleanup: bool, start: World, all: Dispatch,
                         w: World, done: seq<HandlerEntry>, rest: seq<HandlerEntry>) {
    && w == start.(asked := start.asked + |done|, trace := start.trace + Visits(done, sig, cleanup))
    && all.verdict == Consult(answers, w.asked, rest, sig).verdict
    && all.consulted == done + Consult(answers, w.asked, rest, sig).consulted
  }

  lemma WalkStart(answers: nat -> RestartType, sig: SigType, cleanup: bool, start: World)
    ensures Walked(answers, sig, cleanup, start, Consult(answers, start.asked, start.handlers, sig),
                   start, [], start.handlers)
  {
  }

  lemma WalkStep(answers: nat -> RestartType, sig: SigType, cleanup: bool, start: World, all: Dispatch,
                 w: World, done: seq<HandlerEntry>, rest: seq<HandlerEntry>)
    requires Walked(answers, sig, cleanup, start, all, w, done, rest)
    ensures rest == [] ==> all.verdict.FellThrough? && w == Visit(start, all, sig, cleanup)
    ensures rest != [] && !Handles(Last(rest), sig) ==> Walked(answers, sig, cleanup, start, all, w, done, Init(rest))
    ensures rest != [] && Handles(Last(rest), sig) ==>
      var e := Last(rest);
      var w' := AfterCall(w, e, sig, cleanup);
      && (e.handler.Catchall? ==> all.verdict.Unhandled? && w' == Visit(start, all, sig, cleanup))
      && (!e.handler.Catchall? && answers(w.asked) != RestartNull ==>
            all.verdict == Answered(answers(w.asked)) && w' == Visit(start, all, sig, cleanup))
      && (!e.handler.Catchall? && answers(w.asked) == RestartNull ==>
            Walked(answers, sig, cleanup, start, all, w', done + [e], Init(rest)))
  {
    if rest == [] {
      assert all.consulted == done;
      return;
    }
    var e := Last(rest);
    assert Init(done + [e]) == done && Last(done + [e]) == e;
    assert AfterCall(w, e, sig, cleanup).trace == start.trace + Visits(done + [e], sig, cleanup);
  }

  lemma AttemptUnfolds(answers: nat -> RestartType, sig: SigType, restart: RestartType, act: Prog, body: Prog,
                       point: Point, s: State)
    requires Inv(s) && point.unwindTo == |s.unwind|
    ensures var r := RestartScope(answers, sig, restart, body, point, s);
      Attempt(answers, sig, restart, act, body, point, s)
      == if r.outcome == Jump(point) then Again(answers, sig, restart, act, body, point, r.state) else r
  {
    hide Run, RestartScope, Again, Inv;
  }

  lemma OnceUnfolds(answers: nat -> RestartType, sig: SigType, restart: RestartType, body: Prog, act: Prog,
                    point: Point, s: State)
    requires Inv(s) && point.unwindTo == |s.unwind|
    ensures var r := RestartScope(answers, sig, restart, body, point, s);
      RunOnce(answers, sig, restart, body, act, point, s)
      == if r.outcome == Jump(point) then Run(answers, act, r.state) else r
  {
    hide Run, RestartScope, Inv;
  }

  lemma AgainUnfolds(answers: nat -> RestartType, sig: SigType, restart: RestartType, act: Prog, body: Prog,
                     point: Point, s: State)
    requires Inv(s) && point.unwindTo == |s.unwind|
    ensures Again(answers, sig, restart, act, body, point, s)
      == if s.world.retries == 0 then Result(OutOfRetries, s)
         else
           var a := Run(answers, act, Retry(s));
           if a.outcome.Normal? then Attempt(answers, sig, restart, act, body, point, a.state) else a
  {
    hide Run, Attempt, Inv;
  }

  lemma HandlerUnfolds(answers: nat -> RestartType, sig: SigType, h: Handler, body: Prog, s: State)
    requires Inv(s)
    ensures var start := OpenHandler(s, sig, h);
      && Inv(start) && start.unwind == s.unwind + [Last(start.unwind)] && start.world.retries == s.world.retries
      && Weight(start.unwind) == Weight(s.unwind) + 2
      && Last(start.unwind).op == CallRmHandler(PushedId(s.world, h))
      && var r := Run(answers, body, start);
         var e := Last(start.unwind);
         RunHandler(answers, sig, h, body, s)
         == if r.outcome.Normal? then Finish(answers, e.op, e.inst, r.state) else r
  {
    hide Run, Finish, Inv;
    OpenHandlerInv(s, sig, h);
    HandlerOpened(s, sig, h);
    WeightPush(s.unwind, Last(OpenHandler(s, sig, h).unwind));
  }

  /** What `_sig_send` does once the walk over the handlers has ended. */
  lemma SendUnfolds(answers: nat -> RestartType, sig: SigType, cleanup: bool, s: State)
    requires Inv(s)
    ensures var d := Consult(answers, s.world.asked, s.world.handlers, sig);
      var s1 := s.(world := Visit(s.world, d, sig, cleanup));
      var r := SendSignal(answers, sig, cleanup, s);
      && Inv(s1) && !d.verdict.FellThrough?
      && (d.verdict.Unhandled? ==> r == Result(Died(UnhandledSignal), s1))
      && (d.verdict.Answered? ==>
            match Select(s1.restarts, sig, d.verdict.restart)
            case NoRestart => r == Result(Died(RestartNotFound), s1)
            case Selected(e) =>
              e.point.unwindTo <= |s1.unwind| && r == Unwind(answers, e.point, s1))
  {
    hide Unwind;
    var d := Consult(answers, s.world.asked, s.world.handlers, sig);
    NeverFallsThrough(answers, s.world.asked, s.world.handlers, sig);
    if d.verdict.Answered? {
      SelectTopmost(s.restarts, sig, d.verdict.restart);
      if Select(s.restarts, sig, d.verdict.restart).Selected? {
        RestartTarget(s.unwind, Select(s.restarts, sig, d.verdict.restart).entry);
      }
    }
  }

  /** Before `sig_init` pushes the catchall. */
  function Blank(choices: nat -> bool, retries: nat): State {
    State(World([], map[], {CATCHALL}, [], 0, choices, 0, retries), [], [], [], 0, 0)
  }

  lemma BlankPlusCatchall(choices: nat -> bool, retries: nat)
    ensures var s := Blank(choices, retries);
      s.(world := PushHandler(s.world, SignalAll, Catchall)) == InitialState(choices, retries)
  {
    hide Inv;
  }

  class Thread {
    const answers: nat -> RestartType
    const choices: nat -> bool
    const handlers: Stack<HandlerEntry>
    const restarts: Stack<RestartEntry>
    const unwind: Stack<Entry>
    var vars: map<nat, HandlerEntry>
    var asked: nat
    var decided: nat
    var retries: nat
    var nextInst: nat
    var nextScope: nat
    ghost var persistent: set<HandlerEntry>
    ghost var trace: seq<Observation>
    ghost var log: seq<Event>

    ghost var Repr: set<object>

    ghost function Footprint(): set<object>
      reads this, handlers, restarts, unwind
    {
      {this, handlers, restarts, unwind, handlers.data, restarts.data, unwind.data}
    }

    ghost predicate Valid()
      reads this, Repr
      ensures Valid() ==> this in Repr
    {
      && {this, handlers, restarts, unwind} <= Repr && Repr == Footprint()
      && handlers.Valid() && restarts.Valid() && unwind.Valid()
      && handlers as object != restarts && handlers as object != unwind && restarts as object != unwind
      && handlers.data as object != restarts.data && handlers.data as object != unwind.data
      && restarts.data as object != unwind.data
    }

    /** The abstract state. */
    ghost function Abs(): State
      reads this, Repr
      requires Valid()
    {
      State(World(handlers.Contents(), vars, persistent, trace, asked, choices, decided, retries),
            restarts.Contents(), unwind.Contents(), log, nextInst, nextScope)
    }

    constructor SigInit(answers: nat -> RestartType, choices: nat -> bool, retries: nat)
      ensures Valid() && fresh(Repr)
      ensures Abs() == InitialState(choices, retries) && this.answers == answers
    {
      hide Inv, InitialState, IsCapacity, ThreadState.PushHandler, WellFormed, HandlersOk;
      this.answers, this.choices := answers, choices;
      var hs := new Stack<HandlerEntry>();
      var rs := new Stack<RestartEntry>();
      assert rs.data as object != hs.data && rs as object != hs;
      var us := new Stack<Entry>();
      assert us.data as object != hs.data && us.data as object != rs.data;
      assert us as object != hs && us as object != rs;
      handlers, restarts, unwind := hs, rs, us;
      vars, asked, decided, this.retries, nextInst, nextScope := map[], 0, 0, retries, 0, 0;
      persistent, trace, log := {CATCHALL}, [], [];
      new;
      Repr := Footprint();
      assert Valid();
      assert fresh(Repr);
      assert Abs() == Blank(choices, retries);
      hide Valid, Abs, Footprint;
      BlankPlusCatchall(choices, retries);
      var _ := PushHandler(SignalAll, Catchall);
    }

    // ------------------------------------------------------------ signals.c

    method PushHandler(sig: SigType, h: Handler) returns (id: nat)
      requires Valid()
      modifies Repr
      ensures Valid() && fresh(Repr - old(Repr))
      ensures Abs() == old(Abs()).(world := ThreadState.PushHandler(old(Abs()).world, sig, h))
      ensures id == PushedId(old(Abs()).world, h)
    {
      if h.NullHandler? { return 0; }
      id := 1;
      if handlers.fill > 0 { id := handlers.data[handlers.fill - 1].id + 1; }
      handlers.Push(HandlerEntry(sig, h, id));
      Repr := Footprint();
    }

    method RmHandler(id: nat)
      requires Valid()
      modifies Repr
      ensures Valid() && Repr == old(Repr)
      ensures Abs() == old(Abs()).(world := PullHandler(old(Abs()).world, id))
    {
      if id == 0 { return; }
      handlers.RemoveById(HandlerId, id);
    }

    method PushRestart(sig: SigType, restart: RestartType, p: Point) returns (e: RestartEntry)
      requires Valid()
      modifies Repr
      ensures Valid() && fresh(Repr - old(Repr))
      ensures e == RestartEntry(sig, restart, p, NextRestartId(old(Abs()).restarts))
      ensures Abs() == old(Abs()).(restarts := old(Abs()).restarts + [e])
    {
      e := RestartEntry(sig, restart, p, 0);
      if restarts.fill > 0 { e := e.(id := restarts.data[restarts.fill - 1].id + 1); }
      restarts.Push(e);
      Repr := Footprint();
    }

    method RmRestart(id: nat)
      requires Valid()
      modifies Repr
      ensures Valid() && Repr == old(Repr)
      ensures Abs() == old(Abs()).(restarts := RemoveRestart(old(Abs()).restarts, id))
    {
      restarts.RemoveById(RestartId, id);
    }

    method RestartAvailable(sig: SigType, restart: RestartType) returns (found: bool)
      requires Valid()
      ensures var rs := restarts.Contents();
        found <==> exists i :: 0 <= i < |rs| && rs[i].sig == sig && rs[i].restart == restart
      ensures found == Available(restarts.Contents(), sig, restart)
    {
      var i := restarts.fill - 1;
      while i >= 0
        invariant -1 <= i < restarts.fill
        invariant forall j :: i < j < restarts.fill ==>
                    !(restarts.Contents()[j].sig == sig && restarts.Contents()[j].restart == restart)
      {
        if restarts.data[i].sig == sig && restarts.data[i].restart == restart {
          assert restarts.Contents()[i].sig == sig;
          return true;
        }
        i := i - 1;
      }
      return false;
    }

    // ------------------------------------------------------------- unwind.c

    /** `_unwind_action`. */
    method AddAction(op: Op, pushed: Pushed) returns (inst: nat)
      requires Valid()
      modifies Repr
      ensures Valid() && fresh(Repr - old(Repr))
      ensures Abs() == Register(old(Abs()), op, pushed) && inst == old(Abs()).nextInst
    {
      inst := nextInst;
      unwind.Push(Entry(op, nextInst, pushed));
      Repr := Footprint();
      log := log + [Registered(nextInst)];
      nextInst := nextInst + 1;
    }

    /** `unwind_rm_handler`. */
    method DropAction(inst: nat)
      requires Valid() && Abs().unwind != []
      modifies Repr
      ensures Valid() && Repr == old(Repr)
      ensures Abs() == Pop(old(Abs()), Dropped(inst))
    {
      unwind.Pop();
      log := log + [Dropped(inst)];
    }

    /** `unwind_run_handler`, and one round of the loop of `_unwind`: the fill is
        adjusted before the action is called. */
    method RunAction(op: Op, inst: nat) returns (o: Outcome)
      requires Valid() && Inv(Abs()) && Abs().unwind != []
      requires Last(Abs().unwind).op == op && Last(Abs().unwind).inst == inst
      modifies Repr
      ensures Valid() && fresh(Repr - old(Repr))
      ensures Result(o, Abs()) == Finish(answers, op, inst, old(Abs()))
      decreases Abs().world.retries, OpSize(op) + Weight(Init(Abs().unwind)), 0
    {
      hide Run;
      ghost var was := Abs();
      unwind.Pop();
      log := log + [Ran(inst)];
      assert Abs() == Pop(was, Ran(inst));
      match op
      case CallRmHandler(id) =>
        RmHandler(id);
        o := Normal;
      case CallRmRestart(id) =>
        RmRestart(id);
        o := Normal;
      case Call(body) =>
        PopInv(was, Ran(inst));
        o := Exec(body);
    }

    /** `_unwind`. The index runs on its own: that it stays in step with the fill is
        part of what is proved. */
    method UnwindTo(p: Point) returns (o: Outcome)
      requires Valid() && Inv(Abs()) && p.unwindTo <= |Abs().unwind|
      modifies Repr
      ensures Valid() && fresh(Repr - old(Repr))
      ensures Result(o, Abs()) == Unwind(answers, p, old(Abs()))
      decreases Abs().world.retries, Weight(Abs().unwind), 1
    {
      hide Inv, Finish;
      if unwind.fill > 0 {
        var i := unwind.fill - 1;
        while i >= p.unwindTo
          invariant Valid() && fresh(Repr - old(Repr)) && Inv(Abs())
          invariant p.unwindTo <= unwind.fill && i == unwind.fill - 1
          invariant Unwind(answers, p, Abs()) == Unwind(answers, p, old(Abs()))
          invariant Abs().world.retries <= old(Abs()).world.retries && Weight(Abs().unwind) <= Weight(old(Abs()).unwind)
          decreases i
        {
          var e := unwind.data[i];
          assert e == Last(unwind.Contents());
          o := RunAction(e.op, e.inst);
          if !o.Normal? { return; }
          i := i - 1;
        }
      }
      o := Jump(p);
    }

    // ------------------------------------------------ signals.c: dispatch

    /** `_run_restart`, and the exit of `_sig_send` when it finds no restart. */
    method RunRestart(sig: SigType, restart: RestartType) returns (o: Outcome)
      requires Valid() && Inv(Abs())
      modifies Repr
      ensures Valid() && fresh(Repr - old(Repr))
      ensures match Select(old(Abs()).restarts, sig, restart)
        case NoRestart => o == Died(RestartNotFound) && Abs() == old(Abs())
        case Selected(e) =>
          e.point.unwindTo <= |old(Abs()).unwind| && Result(o, Abs()) == Unwind(answers, e.point, old(Abs()))
      decreases Abs().world.retries, Weight(Abs().unwind), 2
    {
      hide Unwind;
      var i := restarts.fill - 1;
      ghost var rs := restarts.Contents();
      assert rs[..i + 1] == rs;
      while i >= 0
        invariant -1 <= i < restarts.fill
        invariant Select(rs, sig, restart) == Select(rs[..i + 1], sig, restart)
      {
        var e := restarts.data[i];
        assert Init(rs[..i + 1]) == rs[..i] && Last(rs[..i + 1]) == e;
        if e.restart == restart && (e.sig == sig || e.sig == SignalAll) {
          assert e in rs;
          RestartTarget(unwind.Contents(), e);
          o := UnwindTo(e.point);
          return;
        }
        i := i - 1;
      }
      o := Died(RestartNotFound);
    }

    /** Calling one user handler, and then the clean-up function of the signal's data. */
    method CallHandler(e: HandlerEntry, sig: SigType, cleanup: bool) returns (restart: RestartType)
      requires Valid() && !e.handler.Catchall?
      modifies this`asked, this`trace
      ensures Valid() && Repr == old(Repr)
      ensures restart == answers(old(Abs()).world.asked)
      ensures Abs() == old(Abs()).(world := AfterCall(old(Abs()).world, e, sig, cleanup))
    {
      restart := answers(asked);
      asked := asked + 1;
      trace := trace + [Asked(e.handler, sig)];
      if cleanup { trace := trace + [Cleaned]; }
    }

    /** Calling the catchall: what it prints ends the thread. */
    method CallCatchall(e: HandlerEntry, sig: SigType, cleanup: bool)
      requires Valid() && e.handler.Catchall?
      modifies this`trace
      ensures Valid() && Repr == old(Repr)
      ensures Abs() == old(Abs()).(world := AfterCall(old(Abs()).world, e, sig, cleanup))
    {
      trace := trace + [Asked(e.handler, sig)];
    }

    /** The loop of `_sig_send`, down to the handler that decides. */
    method WalkHandlers(sig: SigType, cleanup: bool) returns (verdict: Verdict)
      requires Valid()
      modifies this`asked, this`trace
      ensures Valid() && Repr == old(Repr)
      ensures var d := Consult(answers, old(Abs()).world.asked, old(Abs()).world.handlers, sig);
        verdict == d.verdict && Abs() == old(Abs()).(world := Visit(old(Abs()).world, d, sig, cleanup))
    {
      hide Consult, Visits, Visit, Walked;
      ghost var was := Abs();
      ghost var hs := was.world.handlers;
      ghost var all := Consult(answers, was.world.asked, hs, sig);
      ghost var done: seq<HandlerEntry> := [];
      var i := handlers.fill - 1;
      assert hs[..i + 1] == hs;
      WalkStart(answers, sig, cleanup, was.world);
      while i >= 0
        invariant -1 <= i < handlers.fill
        invariant Valid() && Abs() == was.(world := Abs().world)
        invariant Walked(answers, sig, cleanup, was.world, all, Abs().world, done, hs[..i + 1])
      {
        var e := handlers.data[i];
        assert e == hs[i];
        assert Init(hs[..i + 1]) == hs[..i] && Last(hs[..i + 1]) == e;
        WalkStep(answers, sig, cleanup, was.world, all, Abs().world, done, hs[..i + 1]);
        if e.sig == sig || e.sig == SignalAll {
          if e.handler.Catchall? {
            CallCatchall(e, sig, cleanup);
            return Unhandled;
          }
          var restart := CallHandler(e, sig, cleanup);
          done := done + [e];
          if restart != RestartNull {
            return Answered(restart);
          }
        }
        i := i - 1;
      }
      assert hs[..i + 1] == [];
      WalkStep(answers, sig, cleanup, was.world, all, Abs().world, done, []);
      return FellThrough;
    }

    /** `_sig_send`. */
    method SigSend(sig: SigType, cleanup: bool) returns (o: Outcome)
      requires Valid() && Inv(Abs())
      modifies Repr
      ensures Valid() && fresh(Repr - old(Repr))
      ensures Result(o, Abs()) == SendSignal(answers, sig, cleanup, old(Abs()))
      decreases Abs().world.retries, Weight(Abs().unwind), 3
    {
      hide Unwind, Inv, SendSignal, Valid, Abs, Consult;
      SendUnfolds(answers, sig, cleanup, Abs());
      var verdict := WalkHandlers(sig, cleanup);
      match verdict
      case Answered(restart) =>
        o := RunRestart(sig, restart);
      case Unhandled =>
        o := Died(UnhandledSignal);
      case FellThrough =>
        o := Normal;
    }

    // -------------------------------------------------------- the C scopes

    /** A restart and the action that removes it. */
    method EnterRestart(sig: SigType, restart: RestartType, point: Point) returns (id: nat, inst: nat)
      requires Valid()
      modifies Repr
      ensures Valid() && fresh(Repr - old(Repr))
      ensures Abs() == OpenRestart(old(Abs()), sig, restart, point)
      ensures Last(Abs().unwind).op == CallRmRestart(id) && Last(Abs().unwind).inst == inst
    {
      hide Valid, Abs;
      var r := PushRestart(sig, restart, point);
      id := r.id;
      inst := AddAction(CallRmRestart(id), PushedRestart(r));
    }

    /** A handler and the action that removes it. */
    method EnterHandler(sig: SigType, h: Handler) returns (id: nat, inst: nat)
      requires Valid()
      modifies Repr
      ensures Valid() && fresh(Repr - old(Repr))
      ensures Abs() == OpenHandler(old(Abs()), sig, h)
      ensures Last(Abs().unwind).op == CallRmHandler(id) && Last(Abs().unwind).inst == inst
    {
      hide Valid, Abs;
      id := PushHandler(sig, h);
      inst := AddAction(CallRmHandler(id), if h.NullHandler? then NoPush else PushedHandler(HandlerEntry(sig, h, id)));
    }

    /** `_SIG_PROVIDE_RESTART` and `_SIG_PROVIDE_AUTOPOP_RESTART` after the return
        point: push, register, run the code, leave the block. */
    method RestartBlock(sig: SigType, restart: RestartType, body: Prog, point: Point) returns (o: Outcome)
      requires Valid() && Inv(Abs()) && point.unwindTo == |Abs().unwind|
      modifies Repr
      ensures Valid() && fresh(Repr - old(Repr))
      ensures Result(o, Abs()) == RestartScope(answers, sig, restart, body, point, old(Abs()))
      decreases Abs().world.retries, Size(body) + 3 + Weight(Abs().unwind), 3
    {
      hide Run, Inv, Finish, Valid, Abs;
      ghost var was := Abs();
      OpenRestartInv(was, sig, restart, point.scope);
      var id, inst := EnterRestart(sig, restart, point);
      WeightPush(was.unwind, Last(Abs().unwind));
      o := Exec(body);
      if o.Normal? {
        o := RunAction(CallRmRestart(id), inst);
      }
    }

    /** Counts one more return to an autopop restart. */
    method UseRetry() returns (may: bool)
      requires Valid() && Inv(Abs())
      modifies Repr
      ensures Valid() && Repr == old(Repr) && Inv(Abs())
      ensures may == (old(Abs()).world.retries > 0)
      ensures Abs() == if may then Retry(old(Abs())) else old(Abs())
    {
      may := retries > 0;
      if may {
        ghost var next := Retry(Abs());
        retries := retries - 1;
      }
    }

    method AutopopBlock(sig: SigType, restart: RestartType, act: Prog, body: Prog, point: Point) returns (o: Outcome)
      requires Valid() && Inv(Abs()) && point.unwindTo == |Abs().unwind|
      modifies Repr
      ensures Valid() && fresh(Repr - old(Repr))
      ensures Result(o, Abs()) == Attempt(answers, sig, restart, act, body, point, old(Abs()))
      decreases Abs().world.retries, Size(act) + Size(body) + 4 + Weight(Abs().unwind), 1
    {
      hide RestartScope, Attempt, Again, Inv, Valid, Abs;
      AttemptUnfolds(answers, sig, restart, act, body, point, Abs());
      o := RestartBlock(sig, restart, body, point);
      if o == Jump(point) {
        o := RestartLanded(sig, restart, act, body, point);
      }
    }

    /** `p.returned` is set: the restart action, then the push again. */
    method RestartLanded(sig: SigType, restart: RestartType, act: Prog, body: Prog, point: Point) returns (o: Outcome)
      requires Valid() && Inv(Abs()) && point.unwindTo == |Abs().unwind|
      modifies Repr
      ensures Valid() && fresh(Repr - old(Repr))
      ensures Result(o, Abs()) == Again(answers, sig, restart, act, body, point, old(Abs()))
      decreases Abs().world.retries, Size(act) + Size(body) + 4 + Weight(Abs().unwind), 0
    {
      hide Run, Attempt, Again, Inv, Valid, Abs;
      AgainUnfolds(answers, sig, restart, act, body, point, Abs());
      var may := UseRetry();
      if !may { o := OutOfRetries; return; }
      o := Exec(act);
      if o.Normal? {
        o := AutopopBlock(sig, restart, act, body, point);
      }
    }

    /** `_SIG_PROVIDE_RESTART` from its return point on. */
    method OnceBlock(sig: SigType, restart: RestartType, body: Prog, act: Prog, point: Point) returns (o: Outcome)
      requires Valid() && Inv(Abs()) && point.unwindTo == |Abs().unwind|
      modifies Repr
      ensures Valid() && fresh(Repr - old(Repr))
      ensures Result(o, Abs()) == RunOnce(answers, sig, restart, body, act, point, old(Abs()))
      decreases Abs().world.retries, Size(body) + Size(act) + 4 + Weight(Abs().unwind), 1
    {
      hide Run, RunOnce, RestartScope, Inv, Valid, Abs;
      OnceUnfolds(answers, sig, restart, body, act, point, Abs());
      o := RestartBlock(sig, restart, body, point);
      if o == Jump(point) {
        o := Exec(act);
      }
    }

    /** `UNWIND_ACTION` and the rest of its block. */
    method ActionBlock(a: Prog, body: Prog) returns (o: Outcome)
      requires Valid() && Inv(Abs())
      modifies Repr
      ensures Valid() && fresh(Repr - old(Repr))
      ensures Result(o, Abs()) == Machine.RunAction(answers, a, body, old(Abs()))
      decreases Abs().world.retries, Size(a) + Size(body) + 4 + Weight(Abs().unwind), 1
    {
      hide Run, Inv, Finish, Valid, Abs;
      ghost var was := Abs();
      RegisterInv(was, a);
      var inst := AddAction(Call(a), NoPush);
      WeightPush(was.unwind, Last(Abs().unwind));
      o := Exec(body);
      if o.Normal? {
        o := RunAction(Call(a), inst);
      }
    }

    /** `EXPLICIT_UNWIND_ACTION` and the rest of its block. */
    method ExplicitBlock(a: Prog, body: Prog) returns (o: Outcome)
      requires Valid() && Inv(Abs())
      modifies Repr
      ensures Valid() && fresh(Repr - old(Repr))
      ensures Result(o, Abs()) == RunExplicit(answers, a, body, old(Abs()))
      decreases Abs().world.retries, Size(a) + Size(body) + 4 + Weight(Abs().unwind), 1
    {
      hide Run, Inv, Finish, Valid, Abs;
      ghost var was := Abs();
      RegisterInv(was, a);
      var inst := AddAction(Call(a), NoPush);
      WeightPush(was.unwind, Last(Abs().unwind));
      o := Exec(body);
      if o.Normal? {
        DropAction(inst);
      }
    }

    /** `_SIG_AUTOPOP_HANDLER` and the rest of its block. */
    method HandlerBlock(sig: SigType, h: Handler, body: Prog) returns (o: Outcome)
      requires Valid() && Inv(Abs())
      modifies Repr
      ensures Valid() && fresh(Repr - old(Repr))
      ensures Result(o, Abs()) == RunHandler(answers, sig, h, body, old(Abs()))
      decreases Abs().world.retries, Size(body) + 4 + Weight(Abs().unwind), 1
    {
      hide Run, RunHandler, OpenHandler, Inv, Finish, Valid, Abs;
      ghost var was := Abs();
      HandlerUnfolds(answers, sig, h, body, was);
      var id, inst := EnterHandler(sig, h);
      o := Exec(body);
      if o.Normal? {
        o := RunAction(CallRmHandler(id), inst);
      }
    }

    // ---------------------------------------------------------- user code

    /** The return point a restart macro declares. */
    method NewPoint() returns (point: Point)
      requires Valid() && Inv(Abs())
      modifies this`nextScope
      ensures Valid() && Repr == old(Repr) && Inv(Abs())
      ensures point == Point(old(Abs()).nextScope, |old(Abs()).unwind|)
      ensures Abs() == NewScope(old(Abs()))
    {
      ghost var next := NewScope(Abs());
      point := Point(nextScope, unwind.fill);
      nextScope := nextScope + 1;
    }

    method Note(tag: string)
      requires Valid()
      modifies this`trace
      ensures Valid() && Repr == old(Repr)
      ensures Abs() == old(Abs()).(world := Observe(old(Abs()).world, tag))
    {
      trace := trace + [Did(tag)];
    }

    /** A test of user state. */
    method TakeBranch() returns (way: bool)
      requires Valid() && Inv(Abs())
      modifies this`decided
      ensures Valid() && Repr == old(Repr) && Inv(Abs())
      ensures way == Chosen(old(Abs()).world) && Abs() == Decide(old(Abs()))
      ensures Abs().unwind == old(Abs()).unwind && Abs().world.retries == old(Abs()).world.retries
    {
      ghost var next := Decide(Abs());
      way := choices(decided);
      decided := decided + 1;
    }

    method BranchBlock(yes: Prog, no: Prog) returns (o: Outcome)
      requires Valid() && Inv(Abs())
      modifies Repr
      ensures Valid() && fresh(Repr - old(Repr))
      ensures Result(o, Abs()) == Run(answers, if Chosen(old(Abs()).world) then yes else no, Decide(old(Abs())))
      decreases Abs().world.retries, Size(yes) + Size(no) + 1 + Weight(Abs().unwind), 1
    {
      hide Run, Inv, Valid, Abs, Chosen, Decide;
      var way := TakeBranch();
      if way {
        o := Exec(yes);
      } else {
        o := Exec(no);
      }
    }

    /** `SIG_PERSISTENT_HANDLER`, its id kept in a variable. */
    method Keep(slot: nat, sig: SigType, h: Handler)
      requires Valid()
      modifies Repr
      ensures Valid() && fresh(Repr - old(Repr))
      ensures Abs() == old(Abs()).(world := KeepPersistent(old(Abs()).world, slot, sig, h))
    {
      var id := PushHandler(sig, h);
      if h.NullHandler? {
        vars := vars - {slot};
      } else {
        vars := vars[slot := HandlerEntry(sig, h, id)];
        persistent := persistent + {HandlerEntry(sig, h, id)};
      }
    }

    /** `SIG_RM_HANDLER` of the id in a variable, by its owner. */
    method Discard(slot: nat)
      requires Valid()
      modifies Repr
      ensures Valid() && Repr == old(Repr)
      ensures Abs() == old(Abs()).(world := DropPersistent(old(Abs()).world, slot))
    {
      if slot in vars {
        var e := vars[slot];
        RmHandler(e.id);
        vars := vars - {slot};
        persistent := persistent - {e};
      }
    }

    /** User code running on the thread. */
    method Exec(p: Prog) returns (o: Outcome)
      requires Valid() && Inv(Abs())
      modifies Repr
      ensures Valid() && fresh(Repr - old(Repr))
      ensures Result(o, Abs()) == Run(answers, p, old(Abs()))
      decreases Abs().world.retries, Size(p) + Weight(Abs().unwind), 2
    {
      hide Inv, Attempt, RunOnce, Machine.RunAction, RunExplicit, RunHandler, SendSignal, Valid, Abs, KeepPersistent,
        DropPersistent, Observe, Chosen, Decide;
      o := Normal;
      match p
      case Skip =>
      case Effect(tag) =>
        Note(tag);
      case Then(first, second) =>
        o := Exec(first);
        if o.Normal? {
          o := Exec(second);
        }
      case Branch(yes, no) =>
        o := BranchBlock(yes, no);
      case UnwindAction(a, body) =>
        o := ActionBlock(a, body);
      case ExplicitUnwindAction(a, body) =>
        o := ExplicitBlock(a, body);
      case AutopopHandler(sig, h, body) =>
        o := HandlerBlock(sig, h, body);
      case ProvideRestart(sig, restart, body, act) =>
        var point := NewPoint();
        o := OnceBlock(sig, restart, body, act, point);
      case AutopopRestart(sig, restart, act, body) =>
        var point := NewPoint();
        o := AutopopBlock(sig, restart, act, body, point);
      case PersistentHandler(slot, sig, h) =>
        Keep(slot, sig, h);
      case RmHandler(slot) =>
        Discard(slot);
      case Send(sig, cleanup) =>
        o := SigSend(sig, cleanup);
    }
  }
}
