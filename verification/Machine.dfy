/** One thread running: scopes, signals, and unwinding with longjmp. The contracts
    say what every run leaves of the three stacks. */
module Machine {
  import opened GrowableStack
  import opened SignalStacks
  import opened Ledger
  import opened ThreadState

  datatype Reason = UnhandledSignal | RestartNotFound

  datatype Outcome =
    | Normal
    | Jump(point: Point)
    | Died(reason: Reason)
    | OutOfRetries

  datatype Result = Result(outcome: Outcome, state: State)

  // --------------------------------------------------------- size of what is left

  function OpSize(op: Op): nat {
    match op
    case CallRmHandler(_) => 1
    case CallRmRestart(_) => 1
    case Call(body) => Size(body) + 1
  }

  function Size(p: Prog): nat {
    match p
    case Skip => 1
    case Effect(_) => 1
    case Then(a, b) => Size(a) + Size(b) + 1
    case Branch(a, b) => Size(a) + Size(b) + 1
    case UnwindAction(a, body) => Size(a) + Size(body) + 4
    case ExplicitUnwindAction(a, body) => Size(a) + Size(body) + 4
    case AutopopHandler(_, _, body) => Size(body) + 4
    case ProvideRestart(_, _, body, act) => Size(body) + Size(act) + 4
    case AutopopRestart(_, _, act, body) => Size(body) + Size(act) + 5
    case PersistentHandler(_, _, _) => 1
    case RmHandler(_) => 1
    case Send(_, _) => 1
  }

  /** The code still waiting on an unwind stack. */
  function Weight(u: seq<Entry>): nat {
    if u == [] then 0 else Weight(Init(u)) + OpSize(Last(u).op) + 1
  }

  lemma WeightPush(u: seq<Entry>, e: Entry)
    ensures Weight(u + [e]) == Weight(u) + OpSize(e.op) + 1
  {
    assert Init(u + [e]) == u;
  }

  // ------------------------------------------------------------------- running

  /** Where a longjmp to `q` ends, seen from unwind stack `u`: the jump target is the
      return point of a scope open in `u`, and what is left of `u` is the part below
      the recorded fill. */
  ghost predicate Landed(q: Point, u: seq<Entry>, t: State) {
    && q.unwindTo < |u|
    && t.unwind == u[..q.unwindTo]
    && u[q.unwindTo].pushed.PushedRestart?
    && u[q.unwindTo].pushed.restart.point == q
  }

  /** A run from `s` keeps the stacks in step and the history; if it ends normally
      the unwind stack is as before, if it jumps it is cut at the target. */
  ghost predicate Kept(r: Result, s: State) {
    && Inv(r.state)
    && s.log <= r.state.log
    && r.state.world.retries <= s.world.retries
    && (r.outcome.Normal? ==> r.state.unwind == s.unwind)
    && (r.outcome.Jump? ==> Landed(r.outcome.point, s.unwind, r.state))
  }

  /** One round of unwinding, and the end of a scope that runs its action: the top
      entry goes first, then its action is called. */
  function Finish(answers: nat -> RestartType, op: Op, inst: nat, s: State): (r: Result)
    requires Inv(s) && s.unwind != [] && Last(s.unwind).op == op && Last(s.unwind).inst == inst
    ensures Kept(r, Pop(s, Ran(inst)))
    decreases s.world.retries, OpSize(op) + Weight(Init(s.unwind)), 0
  {
    var popped := Pop(s, Ran(inst));
    match op
    case CallRmHandler(id) =>
      PopHandlerInv(s);
      Result(Normal, popped.(world := PullHandler(popped.world, id)))
    case CallRmRestart(id) =>
      PopRestartInv(s);
      Result(Normal, popped.(restarts := RemoveRestart(popped.restarts, id)))
    case Call(body) =>
      PopInv(s, Ran(inst));
      Run(answers, body, popped)
  }

  /** `_unwind`. An action that jumps abandons the loop. */
  function Unwind(answers: nat -> RestartType, p: Point, s: State): (r: Result)
    requires Inv(s) && p.unwindTo <= |s.unwind|
    ensures Inv(r.state) && s.log <= r.state.log && !r.outcome.Normal?
    ensures r.state.world.retries <= s.world.retries
    ensures r.outcome.Jump? ==>
      || (r.outcome.point == p && r.state.unwind == s.unwind[..p.unwindTo])
      || Landed(r.outcome.point, s.unwind, r.state)
    decreases s.world.retries, Weight(s.unwind), 1
  {
    if |s.unwind| <= p.unwindTo then Result(Jump(p), s)
    else
      var e := Last(s.unwind);
      var r := Finish(answers, e.op, e.inst, s);
      if r.outcome.Normal? then Unwind(answers, p, r.state) else r
  }

  function SendSignal(answers: nat -> RestartType, sig: SigType, cleanup: bool, s: State): (r: Result)
    requires Inv(s)
    ensures Kept(r, s) && !r.outcome.Normal?
    decreases s.world.retries, Weight(s.unwind), 2
  {
    var d := Consult(answers, s.world.asked, s.world.handlers, sig);
    var s1 := s.(world := Visit(s.world, d, sig, cleanup));
    NeverFallsThrough(answers, s.world.asked, s.world.handlers, sig);
    match d.verdict
    case FellThrough => Result(Normal, s1)
    case Unhandled => Result(Died(UnhandledSignal), s1)
    case Answered(restart) =>
      SelectTopmost(s1.restarts, sig, restart);
      match Select(s1.restarts, sig, restart)
      case NoRestart => Result(Died(RestartNotFound), s1)
      case Selected(e) =>
        RestartTarget(s1.unwind, e);
        Unwind(answers, e.point, s1)
  }

  function Retry(s: State): (t: State)
    requires s.world.retries > 0
    ensures Inv(s) ==> Inv(t)
  {
    s.(world := s.world.(retries := s.world.retries - 1))
  }

  function NewScope(s: State): (t: State)
    ensures Inv(s) ==> Inv(t)
  {
    s.(nextScope := s.nextScope + 1)
  }

  function Decide(s: State): (t: State)
    ensures Inv(s) ==> Inv(t)
  {
    s.(world := Choose(s.world))
  }

  /** The part common to both restart macros: push the restart, register the action
      that removes it, run the code. A jump to the scope's own point is handed to the
      caller, with the stacks as they were before the push. */
  function RestartScope(answers: nat -> RestartType, sig: SigType, restart: RestartType, body: Prog, point: Point,
                        s: State): (r: Result)
    requires Inv(s) && point.unwindTo == |s.unwind|
    ensures Inv(r.state) && s.log <= r.state.log && r.state.world.retries <= s.world.retries
    ensures r.outcome.Normal? || r.outcome == Jump(point) ==> r.state.unwind == s.unwind
    ensures r.outcome.Jump? && r.outcome.point != point ==> Landed(r.outcome.point, s.unwind, r.state)
    decreases s.world.retries, Size(body) + 3 + Weight(s.unwind), 3
  {
    OpenRestartInv(s, sig, restart, point.scope);
    var start := OpenRestart(s, sig, restart, point);
    var e := Last(start.unwind);
    WeightPush(s.unwind, e);
    var r := Run(answers, body, start);
    if r.outcome.Normal? then Finish(answers, e.op, e.inst, r.state) else r
  }

  /** An autopop restart from its return point on: on a jump to the point run the
      restart action and start over with the rest of the block. */
  function Attempt(answers: nat -> RestartType, sig: SigType, restart: RestartType, act: Prog, body: Prog,
                   point: Point, s: State): (r: Result)
    requires Inv(s) && point.unwindTo == |s.unwind|
    ensures Kept(r, s)
    decreases s.world.retries, Size(act) + Size(body) + 4 + Weight(s.unwind), 1
  {
    var r := RestartScope(answers, sig, restart, body, point, s);
    if r.outcome == Jump(point) then Again(answers, sig, restart, act, body, point, r.state) else r
  }

  /** Landed at an autopop restart: its action, then another attempt. */
  function Again(answers: nat -> RestartType, sig: SigType, restart: RestartType, act: Prog, body: Prog,
                 point: Point, s: State): (r: Result)
    requires Inv(s) && point.unwindTo == |s.unwind|
    ensures Kept(r, s)
    decreases s.world.retries, Size(act) + Size(body) + 4 + Weight(s.unwind), 0
  {
    if s.world.retries == 0 then Result(OutOfRetries, s)
    else
      var a := Run(answers, act, Retry(s));
      if a.outcome.Normal? then Attempt(answers, sig, restart, act, body, point, a.state) else a
  }

  /** Runs `p`. Autopop scopes are restarted `retries` times at most; nothing else is
      bounded: between two restarts the pending code only shrinks. */
  function Run(answers: nat -> RestartType, p: Prog, s: State): (r: Result)
    requires Inv(s)
    ensures Kept(r, s)
    decreases s.world.retries, Size(p) + Weight(s.unwind), 2
  {
    match p
    case Skip => Result(Normal, s)
    case Effect(tag) => Result(Normal, s.(world := Observe(s.world, tag)))
    case Then(a, b) =>
      var r := Run(answers, a, s);
      if r.outcome.Normal? then Run(answers, b, r.state) else r
    case Branch(a, b) => Run(answers, if Chosen(s.world) then a else b, Decide(s))
    case UnwindAction(a, body) => RunAction(answers, a, body, s)
    case ExplicitUnwindAction(a, body) => RunExplicit(answers, a, body, s)
    case AutopopHandler(sig, h, body) => RunHandler(answers, sig, h, body, s)
    case ProvideRestart(sig, restart, body, act) =>
      RunOnce(answers, sig, restart, body, act, Point(s.nextScope, |s.unwind|), NewScope(s))
    case AutopopRestart(sig, restart, act, body) =>
      Attempt(answers, sig, restart, act, body, Point(s.nextScope, |s.unwind|), NewScope(s))
    case PersistentHandler(slot, sig, h) =>
      KeepPersistentOk(s.world, s.unwind, slot, sig, h);
      Result(Normal, s.(world := KeepPersistent(s.world, slot, sig, h)))
    case RmHandler(slot) =>
      DropPersistentOk(s.world, s.unwind, slot);
      Result(Normal, s.(world := DropPersistent(s.world, slot)))
    case Send(sig, cleanup) => SendSignal(answers, sig, cleanup, s)
  }

  function RunAction(answers: nat -> RestartType, a: Prog, body: Prog, s: State): (r: Result)
    requires Inv(s)
    ensures Kept(r, s)
    decreases s.world.retries, Size(a) + Size(body) + 4 + Weight(s.unwind), 1
  {
    RegisterInv(s, a);
    var start := Register(s, Call(a), NoPush);
    var e := Last(start.unwind);
    WeightPush(s.unwind, e);
    var r := Run(answers, body, start);
    if r.outcome.Normal? then Finish(answers, e.op, e.inst, r.state) else r
  }

  /** The action of this scope runs only when an unwind passes it. */
  function RunExplicit(answers: nat -> RestartType, a: Prog, body: Prog, s: State): (r: Result)
    requires Inv(s)
    ensures Kept(r, s)
    decreases s.world.retries, Size(a) + Size(body) + 4 + Weight(s.unwind), 1
  {
    RegisterInv(s, a);
    var start := Register(s, Call(a), NoPush);
    var e := Last(start.unwind);
    WeightPush(s.unwind, e);
    var r := Run(answers, body, start);
    if r.outcome.Normal? then
      PopInv(r.state, Dropped(e.inst));
      Result(Normal, Pop(r.state, Dropped(e.inst)))
    else r
  }

  function RunHandler(answers: nat -> RestartType, sig: SigType, h: Handler, body: Prog, s: State): (r: Result)
    requires Inv(s)
    ensures Kept(r, s)
    decreases s.world.retries, Size(body) + 4 + Weight(s.unwind), 1
  {
    OpenHandlerInv(s, sig, h);
    var start := OpenHandler(s, sig, h);
    var e := Last(start.unwind);
    WeightPush(s.unwind, e);
    var r := Run(answers, body, start);
    if r.outcome.Normal? then Finish(answers, e.op, e.inst, r.state) else r
  }

  /** A restart that is gone once it has been jumped to. */
  function RunOnce(answers: nat -> RestartType, sig: SigType, restart: RestartType, body: Prog, act: Prog,
                   point: Point, s: State): (r: Result)
    requires Inv(s) && point.unwindTo == |s.unwind|
    ensures Kept(r, s)
    decreases s.world.retries, Size(body) + Size(act) + 4 + Weight(s.unwind), 1
  {
    var r := RestartScope(answers, sig, restart, body, point, s);
    if r.outcome == Jump(point) then Run(answers, act, r.state) else r
  }
}
