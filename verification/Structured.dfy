/** A reference meaning for the same programs without any of the machinery: no
    unwind stack, no restart stack, no return points. A jump only names the level of
    the enclosing restart it goes to, and every scope it leaves runs its action on
    the way out, like the `finally` of a structured language. `RunIsStructured`
    shows that the three stacks implement exactly this. */
module Structured {
  import opened GrowableStack
  import opened SignalStacks
  import opened Ledger
  import opened ThreadState
  import opened Machine

  datatype Offer = Offer(sig: SigType, restart: RestartType)

  datatype Ending =
    | Done
    | Leaving(level: nat)
    | Ended(reason: Reason)
    | CutOff

  datatype Meaning = Meaning(ending: Ending, world: World)

  /** The innermost enclosing restart that is offered for the signal, or -1. */
  function FindOffer(env: seq<Offer>, sig: SigType, restart: RestartType): (i: int)
    ensures -1 <= i < |env|
  {
    if env == [] then -1
    else if Last(env).restart == restart && (Last(env).sig == sig || Last(env).sig == SignalAll) then |env| - 1
    else FindOffer(Init(env), sig, restart)
  }

  /** A scope left with `m` whose action, run on the way out, ended with `f`. */
  function Finally(m: Meaning, f: Meaning): Meaning {
    if f.ending.Done? then Meaning(m.ending, f.world) else f
  }

  /** The meaning of `p` inside the restarts `env`, outermost first. */
  function Eval(answers: nat -> RestartType, p: Prog, env: seq<Offer>, w: World): (m: Meaning)
    ensures m.world.retries <= w.retries
    decreases w.retries, p
  {
    match p
    case Skip => Meaning(Done, w)
    case Effect(tag) => Meaning(Done, Observe(w, tag))
    case Then(a, b) =>
      var m := Eval(answers, a, env, w);
      if m.ending.Done? then Eval(answers, b, env, m.world) else m
    case Branch(a, b) => Eval(answers, if Chosen(w) then a else b, env, Choose(w))
    case UnwindAction(a, body) =>
      var m := Eval(answers, body, env, w);
      if m.ending.Done? || m.ending.Leaving? then Finally(m, Eval(answers, a, env, m.world)) else m
    case ExplicitUnwindAction(a, body) =>
      var m := Eval(answers, body, env, w);
      if m.ending.Leaving? then Finally(m, Eval(answers, a, env, m.world)) else m
    case AutopopHandler(sig, h, body) =>
      var m := Eval(answers, body, env, PushHandler(w, sig, h));
      if m.ending.Done? || m.ending.Leaving? then
        Meaning(m.ending, PullHandler(m.world, PushedId(w, h)))
      else m
    case ProvideRestart(sig, restart, body, act) =>
      var m := Eval(answers, body, env + [Offer(sig, restart)], w);
      if m.ending == Leaving(|env|) then Eval(answers, act, env, m.world) else m
    case AutopopRestart(sig, restart, act, body) =>
      var m := Eval(answers, body, env + [Offer(sig, restart)], w);
      if m.ending != Leaving(|env|) then m
      else if m.world.retries == 0 then Meaning(CutOff, m.world)
      else
        var a := Eval(answers, act, env, m.world.(retries := m.world.retries - 1));
        if a.ending.Done? then Eval(answers, p, env, a.world) else a
    case PersistentHandler(slot, sig, h) => Meaning(Done, KeepPersistent(w, slot, sig, h))
    case RmHandler(slot) => Meaning(Done, DropPersistent(w, slot))
    case Send(sig, cleanup) =>
      var d := Consult(answers, w.asked, w.handlers, sig);
      var w1 := Visit(w, d, sig, cleanup);
      match d.verdict
      case FellThrough => Meaning(Done, w1)
      case Unhandled => Meaning(Ended(UnhandledSignal), w1)
      case Answered(restart) =>
        var i := FindOffer(env, sig, restart);
        if i < 0 then Meaning(Ended(RestartNotFound), w1) else Meaning(Leaving(i), w1)
  }

  // ---------------------------------------------------- the stacks implement it

  function OffersOf(rs: seq<RestartEntry>): seq<Offer> {
    seq(|rs|, i requires 0 <= i < |rs| => Offer(rs[i].sig, rs[i].restart))
  }

  lemma OffersPush(rs: seq<RestartEntry>, e: RestartEntry)
    ensures OffersOf(rs + [e]) == OffersOf(rs) + [Offer(e.sig, e.restart)]
  {
  }

  lemma {:induction false} SelectIsFindOffer(rs: seq<RestartEntry>, sig: SigType, restart: RestartType)
    ensures var i := FindOffer(OffersOf(rs), sig, restart);
      Select(rs, sig, restart) == if i < 0 then NoRestart else Selected(rs[i])
    decreases |rs|
  {
    if rs != [] {
      assert rs == Init(rs) + [Last(rs)];
      OffersPush(Init(rs), Last(rs));
      assert Init(OffersOf(rs)) == OffersOf(Init(rs));
      SelectIsFindOffer(Init(rs), sig, restart);
    }
  }

  /** The restarts an unwind stack keeps open. */
  function EnvOf(u: seq<Entry>): seq<Offer> {
    OffersOf(RestartsOf(u))
  }

  /** `r` is what is left to do for a jump to the restart at `level`: unwinding to its
      return point, from a state `t` with unwind stack `u` and world `w`. */
  ghost predicate Unwinding(answers: nat -> RestartType, r: Result, u: seq<Entry>, level: nat, w: World, t: State) {
    && Inv(t) && t.unwind == u && t.world == w
    && level < |RestartsOf(u)|
    && RestartsOf(u)[level].point.unwindTo < |u|
    && r == Unwind(answers, RestartsOf(u)[level].point, t)
  }

  /** Result `r` of a run from unwind stack `u` is what meaning `m` says. */
  ghost predicate Implements(answers: nat -> RestartType, r: Result, u: seq<Entry>, m: Meaning, t: State) {
    match m.ending
    case Done => r.outcome.Normal? && r.state.world == m.world
    case Ended(reason) => r.outcome == Died(reason) && r.state.world == m.world
    case CutOff => r.outcome == OutOfRetries && r.state.world == m.world
    case Leaving(level) => Unwinding(answers, r, u, level, m.world, t)
  }

  /** One round of `_unwind`. */
  lemma UnwindStep(answers: nat -> RestartType, r: Result, u: seq<Entry>, e: Entry, level: nat, w: World, t: State)
    requires Unwinding(answers, r, u + [e], level, w, t)
    ensures Last(t.unwind) == e && Init(t.unwind) == u
    ensures var f := Finish(answers, e.op, e.inst, t);
      f.outcome.Normal? ==>
        && Inv(f.state) && f.state.unwind == u
        && var p := RestartsOf(u + [e])[level].point;
           p.unwindTo <= |u| && r == Unwind(answers, p, f.state)
    ensures var f := Finish(answers, e.op, e.inst, t);
      !f.outcome.Normal? ==> r == f
  {
    assert t.unwind == u + [e];
    assert Init(t.unwind) == u;
  }

  /** A restart below the top entry is the restart at the same level without it. */
  lemma SameTarget(u: seq<Entry>, e: Entry, level: nat)
    requires WellFormed(u) && level < |RestartsOf(u)|
    ensures level < |RestartsOf(u + [e])| && RestartsOf(u + [e])[level] == RestartsOf(u)[level]
    ensures RestartsOf(u)[level].point.unwindTo < |u|
  {
    assert Init(u + [e]) == u;
    RestartTarget(u, RestartsOf(u)[level]);
  }

  /** What `Inv` says of the unwind stack alone. */
  lemma OpenRestarts(s: State)
    requires Inv(s)
    ensures WellFormed(s.unwind) && OffersOf(s.restarts) == EnvOf(s.unwind)
  {
  }

  /** A jump out of a scope whose action `f` ended as `mf`: either the jump goes on or
      the action's own end replaces it. */
  lemma JumpThrough(answers: nat -> RestartType, r: Result, u: seq<Entry>, e: Entry, m: Meaning, t: State,
                    mf: Meaning, tf: State) returns (t': State)
    requires m.ending.Leaving? && Unwinding(answers, r, u + [e], m.ending.level, m.world, t)
    requires WellFormed(u) && m.ending.level < |RestartsOf(u)|
    requires Inv(t) && t.unwind == u + [e]
    requires Last(t.unwind).op == e.op && Last(t.unwind).inst == e.inst
    requires Implements(answers, Finish(answers, e.op, e.inst, t), u, mf, tf)
    ensures Implements(answers, r, u, Finally(m, mf), t')
  {
    hide Run, Unwind, Finish, Inv;
    UnwindStep(answers, r, u, e, m.ending.level, m.world, t);
    SameTarget(u, e, m.ending.level);
    t' := if mf.ending.Done? then Finish(answers, e.op, e.inst, t).state else tf;
  }

  lemma {:induction false} RunImplements(answers: nat -> RestartType, p: Prog, s: State) returns (t: State)
    requires Inv(s)
    ensures Implements(answers, Run(answers, p, s), s.unwind, Eval(answers, p, EnvOf(s.unwind), s.world), t)
    decreases s.world.retries, p, 2
  {
    hide Inv;
    t := s;
    var env := EnvOf(s.unwind);
    match p
    case Skip =>
    case Effect(_) =>
    case Then(a, b) =>
      t := RunImplements(answers, a, s);
      var r := Run(answers, a, s);
      if r.outcome.Normal? {
        t := RunImplements(answers, b, r.state);
      }
    case Branch(a, b) =>
      t := RunImplements(answers, if Chosen(s.world) then a else b, Decide(s));
    case UnwindAction(a, body) =>
      t := ActionImplements(answers, a, body, s);
    case ExplicitUnwindAction(a, body) =>
      t := ExplicitImplements(answers, a, body, s);
    case AutopopHandler(sig, h, body) =>
      t := HandlerImplements(answers, sig, h, body, s);
    case ProvideRestart(sig, restart, body, act) =>
      t := OnceImplements(answers, sig, restart, body, act, s);
    case AutopopRestart(sig, restart, act, body) =>
      t := AttemptImplements(answers, p, Point(s.nextScope, |s.unwind|), NewScope(s));
    case PersistentHandler(slot, sig, h) =>
    case RmHandler(slot) =>
    case Send(sig, cleanup) =>
      t := SendImplements(answers, sig, cleanup, s);
  }

  lemma SendImplements(answers: nat -> RestartType, sig: SigType, cleanup: bool, s: State) returns (t: State)
    requires Inv(s)
    ensures Implements(answers, SendSignal(answers, sig, cleanup, s), s.unwind,
                       Eval(answers, Send(sig, cleanup), EnvOf(s.unwind), s.world), t)
  {
    hide Run, Unwind, Finish, Visits, Consult, Matching;
    var d := Consult(answers, s.world.asked, s.world.handlers, sig);
    t := s.(world := Visit(s.world, d, sig, cleanup));
    if d.verdict.Answered? {
      SelectIsFindOffer(s.restarts, sig, d.verdict.restart);
      var i := FindOffer(OffersOf(s.restarts), sig, d.verdict.restart);
      if i >= 0 {
        RestartTarget(s.unwind, s.restarts[i]);
      }
    }
  }

  lemma {:induction false} ActionImplements(answers: nat -> RestartType, a: Prog, body: Prog, s: State)
    returns (t: State)
    requires Inv(s)
    ensures var m := Eval(answers, body, EnvOf(s.unwind), s.world);
      var mf := Eval(answers, a, EnvOf(s.unwind), m.world);
      Implements(answers, RunAction(answers, a, body, s), s.unwind,
                 if m.ending.Done? || m.ending.Leaving? then Finally(m, mf) else m, t)
    decreases s.world.retries, UnwindAction(a, body), 1
  {
    hide Run, Eval, Unwind, Inv;
    OpenRestarts(s);
    RegisterInv(s, a);
    var start := Register(s, Call(a), NoPush);
    var e := Last(start.unwind);
    SameEnv(s.unwind, e);
    t := RunImplements(answers, body, start);
    var r := Run(answers, body, start);
    var m := Eval(answers, body, EnvOf(s.unwind), s.world);
    if m.ending.Done? {
      PopInv(r.state, Ran(e.inst));
      t := RunImplements(answers, a, Pop(r.state, Ran(e.inst)));
    } else if m.ending.Leaving? {
      PopInv(t, Ran(e.inst));
      var tf := RunImplements(answers, a, Pop(t, Ran(e.inst)));
      t := JumpThrough(answers, r, s.unwind, e, m, t, Eval(answers, a, EnvOf(s.unwind), m.world), tf);
    }
  }

  lemma {:induction false} ExplicitImplements(answers: nat -> RestartType, a: Prog, body: Prog, s: State)
    returns (t: State)
    requires Inv(s)
    ensures var m := Eval(answers, body, EnvOf(s.unwind), s.world);
      var mf := Eval(answers, a, EnvOf(s.unwind), m.world);
      Implements(answers, RunExplicit(answers, a, body, s), s.unwind,
                 if m.ending.Leaving? then Finally(m, mf) else m, t)
    decreases s.world.retries, ExplicitUnwindAction(a, body), 1
  {
    hide Run, Eval, Unwind, Inv;
    OpenRestarts(s);
    RegisterInv(s, a);
    var start := Register(s, Call(a), NoPush);
    var e := Last(start.unwind);
    SameEnv(s.unwind, e);
    t := RunImplements(answers, body, start);
    var m := Eval(answers, body, EnvOf(s.unwind), s.world);
    if m.ending.Leaving? {
      PopInv(t, Ran(e.inst));
      var tf := RunImplements(answers, a, Pop(t, Ran(e.inst)));
      t := JumpThrough(answers, Run(answers, body, start), s.unwind, e, m, t,
                       Eval(answers, a, EnvOf(s.unwind), m.world), tf);
    }
  }

  /** An entry that opens no restart changes neither the targets nor their order. */
  lemma SameEnv(u: seq<Entry>, e: Entry)
    requires !e.pushed.PushedRestart?
    ensures RestartsOf(u + [e]) == RestartsOf(u)
  {
    assert Init(u + [e]) == u;
  }

  lemma SameEnvOf(u: seq<Entry>, e: Entry)
    requires !e.pushed.PushedRestart?
    ensures RestartsOf(u + [e]) == RestartsOf(u) && EnvOf(u + [e]) == EnvOf(u)
  {
    SameEnv(u, e);
  }

  lemma RestartOpened(s: State, sig: SigType, restart: RestartType, point: Point)
    ensures var t := OpenRestart(s, sig, restart, point);
      && t.unwind == s.unwind + [Last(t.unwind)] && t.unwind != [] && Init(t.unwind) == s.unwind
      && Last(t.unwind).pushed.PushedRestart? && Last(t.unwind).op == CallRmRestart(Last(t.unwind).pushed.restart.id)
      && Last(t.unwind).pushed.restart.point == point
      && t.world == s.world
      && RestartsOf(t.unwind) == RestartsOf(s.unwind) + [Last(t.unwind).pushed.restart]
      && EnvOf(t.unwind) == EnvOf(s.unwind) + [Offer(sig, restart)]
      && |EnvOf(s.unwind)| == |RestartsOf(s.unwind)|
  {
    var e := Last(OpenRestart(s, sig, restart, point).unwind);
    PushEntry(s.unwind, e);
    OffersPush(RestartsOf(s.unwind), e.pushed.restart);
  }

  lemma FinishRemoval(answers: nat -> RestartType, op: Op, inst: nat, s: State)
    requires Inv(s) && s.unwind != [] && Last(s.unwind).op == op && Last(s.unwind).inst == inst
    requires !op.Call?
    ensures Finish(answers, op, inst, s).outcome.Normal?
    ensures op.CallRmHandler? ==> Finish(answers, op, inst, s).state.world == PullHandler(s.world, op.id)
    ensures op.CallRmRestart? ==> Finish(answers, op, inst, s).state.world == s.world
  {
    hide Inv, Run;
  }

  /** A jump out of a scope whose action removes what the scope pushed. */
  lemma JumpThroughRemoval(answers: nat -> RestartType, r: Result, u: seq<Entry>, e: Entry, m: Meaning, t: State)
    returns (t': State)
    requires m.ending.Leaving? && Unwinding(answers, r, u + [e], m.ending.level, m.world, t)
    requires WellFormed(u) && (m.ending.level < |RestartsOf(u)| || !e.pushed.PushedRestart?) && !e.op.Call?
    ensures !r.outcome.Normal?
    ensures Implements(answers, r, u,
                       Meaning(m.ending, if e.op.CallRmHandler? then PullHandler(m.world, e.op.id) else m.world), t')
  {
    hide Run, Unwind, Finish, Inv, WellFormed, PullHandler, Eval;
    if !e.pushed.PushedRestart? { SameEnv(u, e); }
    TopEntry(u, e);
    FinishRemoval(answers, e.op, e.inst, t);
    var mf := Meaning(Done, if e.op.CallRmHandler? then PullHandler(m.world, e.op.id) else m.world);
    t' := JumpThrough(answers, r, u, e, m, t, mf, t);
  }

  lemma TopEntry(u: seq<Entry>, e: Entry)
    ensures Last(u + [e]) == e && Init(u + [e]) == u
  {
  }

  /** The jump that a restart's own scope catches: its entry is popped and nothing
      more. */
  lemma JumpCaught(answers: nat -> RestartType, r: Result, u: seq<Entry>, e: Entry, w: World, t: State)
    requires e.pushed.PushedRestart? && EntryOk(e, |u|)
    requires Unwinding(answers, r, u + [e], |RestartsOf(u)|, w, t)
    ensures r.outcome == Jump(e.pushed.restart.point) && r.state.world == w
  {
    hide Run, Finish, Inv;
    UnwindStep(answers, r, u, e, |RestartsOf(u)|, w, t);
    FinishRemoval(answers, e.op, e.inst, t);
    assert Init(u + [e]) == u;
  }

  lemma {:induction false} HandlerImplements(answers: nat -> RestartType, sig: SigType, h: Handler, body: Prog,
                                             s: State)
    returns (t: State)
    requires Inv(s)
    ensures var m := Eval(answers, body, EnvOf(s.unwind), PushHandler(s.world, sig, h));
      Implements(answers, RunHandler(answers, sig, h, body, s), s.unwind,
                 if m.ending.Done? || m.ending.Leaving?
                 then Meaning(m.ending, PullHandler(m.world, PushedId(s.world, h))) else m, t)
    decreases s.world.retries, AutopopHandler(sig, h, body), 1
  {
    hide Run, Eval, Unwind, Finish, Inv, OpenHandler, PushHandler, PullHandler, PushedId, WellFormed, EnvOf, Unwinding,
      RestartsOf;
    OpenRestarts(s);
    OpenHandlerInv(s, sig, h);
    HandlerOpened(s, sig, h);
    var start := OpenHandler(s, sig, h);
    var e := Last(start.unwind);
    SameEnvOf(s.unwind, e);
    t := RunImplements(answers, body, start);
    var m := Eval(answers, body, EnvOf(s.unwind), start.world);
    if m.ending.Done? {
      FinishRemoval(answers, e.op, e.inst, Run(answers, body, start).state);
    } else if m.ending.Leaving? {
      t := JumpThroughRemoval(answers, Run(answers, body, start), s.unwind, e, m, t);
    }
  }

  /** The common part of the restart macros, against the body's meaning inside one
      more offer. */
  lemma {:induction false} ScopeImplements(answers: nat -> RestartType, sig: SigType, restart: RestartType, body: Prog,
                                           point: Point, s: State) returns (t: State)
    requires Inv(s) && point.unwindTo == |s.unwind|
    ensures var m := Eval(answers, body, EnvOf(s.unwind) + [Offer(sig, restart)], s.world);
      var r := RestartScope(answers, sig, restart, body, point, s);
      && (m.ending == Leaving(|EnvOf(s.unwind)|) ==> r.outcome == Jump(point) && r.state.world == m.world)
      && (m.ending != Leaving(|EnvOf(s.unwind)|) ==> r.outcome != Jump(point) && Implements(answers, r, s.unwind, m, t))
    decreases s.world.retries, body, 3
  {
    hide Run, Eval, Unwind, Finish, Inv, OpenRestart, EnvOf, RestartsOf, WellFormed;
    OpenRestarts(s);
    OpenRestartInv(s, sig, restart, point.scope);
    RestartOpened(s, sig, restart, point);
    var start := OpenRestart(s, sig, restart, point);
    var e := Last(start.unwind);
    t := RunImplements(answers, body, start);
    var m := Eval(answers, body, EnvOf(start.unwind), s.world);
    if m.ending.Leaving? {
      var r := Run(answers, body, start);
      if m.ending.level < |RestartsOf(s.unwind)| {
        t := JumpThroughRemoval(answers, r, s.unwind, e, m, t);
      } else {
        JumpCaught(answers, r, s.unwind, e, m.world, t);
      }
    } else if m.ending.Done? {
      FinishRemoval(answers, e.op, e.inst, Run(answers, body, start).state);
    }
  }

  lemma {:induction false} OnceImplements(answers: nat -> RestartType, sig: SigType, restart: RestartType, body: Prog,
                                          act: Prog, s: State) returns (t: State)
    requires Inv(s)
    ensures Implements(answers, Run(answers, ProvideRestart(sig, restart, body, act), s), s.unwind,
                       Eval(answers, ProvideRestart(sig, restart, body, act), EnvOf(s.unwind), s.world), t)
    decreases s.world.retries, ProvideRestart(sig, restart, body, act), 1
  {
    hide Inv, Unwind, RestartScope, Unwinding, RestartsOf, EnvOf, WellFormed;
    var s1 := NewScope(s);
    var point := Point(s.nextScope, |s.unwind|);
    t := ScopeImplements(answers, sig, restart, body, point, s1);
    var r := RestartScope(answers, sig, restart, body, point, s1);
    if r.outcome == Jump(point) {
      t := RunImplements(answers, act, r.state);
    }
  }

  lemma {:induction false} AttemptImplements(answers: nat -> RestartType, p: Prog, point: Point, s: State)
    returns (t: State)
    requires Inv(s) && point.unwindTo == |s.unwind| && p.AutopopRestart?
    ensures Implements(answers, Attempt(answers, p.rsig, p.restart, p.onRestart, p.body, point, s), s.unwind,
                       Eval(answers, p, EnvOf(s.unwind), s.world), t)
    decreases s.world.retries, p, 1
  {
    hide Inv, Run, Unwind, RestartScope;
    t := ScopeImplements(answers, p.rsig, p.restart, p.body, point, s);
    var r := RestartScope(answers, p.rsig, p.restart, p.body, point, s);
    if r.outcome == Jump(point) && r.state.world.retries > 0 {
      t := RunImplements(answers, p.onRestart, Retry(r.state));
      var a := Run(answers, p.onRestart, Retry(r.state));
      if a.outcome.Normal? {
        t := AttemptImplements(answers, p, point, a.state);
      }
    }
  }

  /** The whole thread: whatever the program, the handlers' answers, the ways its
      branches go and the number of restarts allowed, the machine ends as the reference meaning ends, with the same
      observations, the same answers used and the same handlers installed. In
      particular it never jumps past the outermost scope. */
  lemma RunIsStructured(answers: nat -> RestartType, choices: nat -> bool, p: Prog, retries: nat)
    ensures var m := Eval(answers, p, [], InitialWorld(choices, retries));
      var r := Run(answers, p, InitialState(choices, retries));
      && r.state.world == m.world
      && !m.ending.Leaving? && !r.outcome.Jump?
      && r.outcome == match m.ending
                      case Done => Normal
                      case Ended(reason) => Died(reason)
                      case _ => OutOfRetries
  {
    var t := RunImplements(answers, p, InitialState(choices, retries));
    assert EnvOf([]) == [];
  }
}
