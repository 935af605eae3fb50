/** What each scope means to the code around it, in every place it may stand: inside any
    restarts, from any world, with any code in it. `RunIsStructured` carries these laws over
    to the machine. */
module ScopeLaws {
  import opened GrowableStack
  import opened SignalStacks
  import opened ThreadState
  import opened Machine
  import opened Structured

  // ------------------------------------------------------------------ plain code

  /** What follows code that does not come to its end is not run ... */
  lemma RestNotReached(answers: nat -> RestartType, a: Prog, b: Prog, env: seq<Offer>, w: World)
    requires !Eval(answers, a, env, w).ending.Done?
    ensures Eval(answers, Then(a, b), env, w) == Eval(answers, a, env, w)
  {
  }

  /** ... and otherwise it starts where that ended, within the same restarts. */
  lemma RestReached(answers: nat -> RestartType, a: Prog, b: Prog, env: seq<Offer>, w: World)
    requires Eval(answers, a, env, w).ending.Done?
    ensures Eval(answers, Then(a, b), env, w) == Eval(answers, b, env, Eval(answers, a, env, w).world)
  {
  }

  lemma EffectSeen(answers: nat -> RestartType, tag: string, env: seq<Offer>, w: World)
    ensures Eval(answers, Effect(tag), env, w) == Meaning(Done, w.(trace := w.trace + [Did(tag)]))
  {
  }

  /** A branch goes the way the next choice says and uses that choice up. */
  lemma BranchTaken(answers: nat -> RestartType, yes: string, no: string, env: seq<Offer>, w: World)
    ensures var m := Eval(answers, Branch(Effect(yes), Effect(no)), env, w);
      && m.ending.Done?
      && m.world == w.(decided := w.decided + 1,
                       trace := w.trace + [Did(if w.choices(w.decided) then yes else no)])
  {
    EffectSeen(answers, if w.choices(w.decided) then yes else no, env, w.(decided := w.decided + 1));
  }

  // -------------------------------------------------------------- unwind actions

  /** After code that comes to its end an unwind action is simply the code that follows. */
  lemma ActionFollows(answers: nat -> RestartType, a: Prog, body: Prog, env: seq<Offer>, w: World)
    requires Eval(answers, body, env, w).ending.Done?
    ensures Eval(answers, UnwindAction(a, body), env, w) == Eval(answers, Then(body, a), env, w)
  {
  }

  /** A jump out of the scope runs the action on its way and then goes on, unless the action
      does not come to its end: then that is what becomes of the jump. */
  lemma ActionOnTheWay(answers: nat -> RestartType, a: Prog, body: Prog, env: seq<Offer>, w: World)
    requires Eval(answers, body, env, w).ending.Leaving?
    ensures var m := Eval(answers, body, env, w);
      var f := Eval(answers, a, env, m.world);
      var r := Eval(answers, UnwindAction(a, body), env, w);
      && r.world == f.world
      && r.ending == if f.ending.Done? then m.ending else f.ending
  {
  }

  /** An explicit action is no more than a comment on code that does not jump; on a jump it
      is an action like any other. */
  lemma ExplicitOnlyOnJumps(answers: nat -> RestartType, a: Prog, body: Prog, env: seq<Offer>, w: World)
    ensures var m := Eval(answers, body, env, w);
      Eval(answers, ExplicitUnwindAction(a, body), env, w)
      == if m.ending.Leaving? then Eval(answers, UnwindAction(a, body), env, w) else m
  {
  }

  /** Nothing runs when the thread has ended inside the scope. */
  lemma NoActionAfterTheEnd(answers: nat -> RestartType, a: Prog, body: Prog, env: seq<Offer>, w: World)
    requires var m := Eval(answers, body, env, w); m.ending.Ended? || m.ending.CutOff?
    ensures Eval(answers, UnwindAction(a, body), env, w) == Eval(answers, body, env, w)
  {
  }

  /** Of two actions the inner one runs first, on a normal end and on a jump alike. */
  lemma InnerActionFirst(answers: nat -> RestartType, outer: string, inner: string, body: Prog, env: seq<Offer>,
                         w: World)
    requires var m := Eval(answers, body, env, w); m.ending.Done? || m.ending.Leaving?
    ensures var m := Eval(answers, body, env, w);
      Eval(answers, UnwindAction(Effect(outer), UnwindAction(Effect(inner), body)), env, w)
      == Meaning(m.ending, m.world.(trace := m.world.trace + [Did(inner), Did(outer)]))
  {
    var m := Eval(answers, body, env, w);
    var scope := UnwindAction(Effect(inner), body);
    var once := m.world.(trace := m.world.trace + [Did(inner)]);
    EffectSeen(answers, inner, env, m.world);
    EffectSeen(answers, outer, env, once);
    assert Eval(answers, scope, env, w) == Meaning(m.ending, once);
    assert once.trace + [Did(outer)] == m.world.trace + [Did(inner), Did(outer)];
  }

  // -------------------------------------------------------------------- restarts

  /** Code that does not jump to the restart around it is not touched by it. */
  lemma RestartNotTaken(answers: nat -> RestartType, sig: SigType, restart: RestartType, act: Prog, body: Prog,
                        env: seq<Offer>, w: World)
    requires Eval(answers, body, env + [Offer(sig, restart)], w).ending != Leaving(|env|)
    ensures var m := Eval(answers, body, env + [Offer(sig, restart)], w);
      && Eval(answers, ProvideRestart(sig, restart, body, act), env, w) == m
      && Eval(answers, AutopopRestart(sig, restart, act, body), env, w) == m
  {
  }

  /** A jump to it goes to the restart's action, outside the restart. After the action of a
      one-shot restart the code goes on; an autopop restart has its whole block run again,
      while returns are left. */
  lemma RestartTaken(answers: nat -> RestartType, sig: SigType, restart: RestartType, act: Prog, body: Prog,
                     env: seq<Offer>, w: World)
    requires Eval(answers, body, env + [Offer(sig, restart)], w).ending == Leaving(|env|)
    ensures var left := Eval(answers, body, env + [Offer(sig, restart)], w).world;
      var again := AutopopRestart(sig, restart, act, body);
      && Eval(answers, ProvideRestart(sig, restart, body, act), env, w) == Eval(answers, act, env, left)
      && (left.retries > 0 ==>
            Eval(answers, again, env, w)
            == Eval(answers, Then(act, again), env, left.(retries := left.retries - 1)))
      && (left.retries == 0 ==> Eval(answers, again, env, w) == Meaning(CutOff, left))
  {
  }

  /** `i` is the innermost of the restarts `env` offered for this signal. */
  ghost predicate Innermost(env: seq<Offer>, sig: SigType, restart: RestartType, i: nat) {
    && i < |env| && env[i].restart == restart && (env[i].sig == sig || env[i].sig == SignalAll)
    && forall j :: i < j < |env| ==> !(env[j].restart == restart && (env[j].sig == sig || env[j].sig == SignalAll))
  }

  lemma {:induction false} FoundInnermost(env: seq<Offer>, sig: SigType, restart: RestartType)
    ensures var i := FindOffer(env, sig, restart);
      if i >= 0 then Innermost(env, sig, restart, i)
      else forall j :: 0 <= j < |env| ==>
        !(env[j].restart == restart && (env[j].sig == sig || env[j].sig == SignalAll))
  {
    if env != [] {
      FoundInnermost(Init(env), sig, restart);
      assert forall j :: 0 <= j < |env| - 1 ==> Init(env)[j] == env[j];
    }
  }

  /** What a signal comes to: with no answer the thread ends; with an answer it leaves for
      the innermost restart of that type offered for this signal or for all, and ends only
      when there is none. */
  lemma SignalLeaves(answers: nat -> RestartType, sig: SigType, cleanup: bool, env: seq<Offer>, w: World, i: nat)
    ensures var verdict := Consult(answers, w.asked, w.handlers, sig).verdict;
      var ending := Eval(answers, Send(sig, cleanup), env, w).ending;
      && (verdict.Unhandled? <==> ending == Ended(UnhandledSignal))
      && (verdict.FellThrough? <==> ending == Done)
      && (verdict.Answered? ==> (ending == Leaving(i) <==> Innermost(env, sig, verdict.restart, i)))
      && (verdict.Answered? ==>
            (ending == Ended(RestartNotFound) <==> forall j :: !Innermost(env, sig, verdict.restart, j)))
      && (verdict.Answered? ==> ending.Leaving? || ending == Ended(RestartNotFound))
  {
    hide Consult, FindOffer;
    var verdict := Consult(answers, w.asked, w.handlers, sig).verdict;
    if verdict.Answered? {
      FoundInnermost(env, sig, verdict.restart);
    }
  }

  // ------------------------------------------------------- everything in one place

  /** A signal whose topmost handler, for all signals or this one, answers with the restart
      around it: the handler is asked, the action in between runs, then the restart's action,
      and the code after the scope goes on. */
  lemma SignalRestarts(answers: nat -> RestartType, sig: SigType, name: string, restart: RestartType, between: string,
                       onRestart: string, env: seq<Offer>, w: World)
    requires restart != RestartNull && answers(w.asked) == restart
    ensures var body := UnwindAction(Effect(between), Send(sig, false));
      var p := AutopopHandler(sig, UserHandler(name), ProvideRestart(sig, restart, body, Effect(onRestart)));
      var m := Eval(answers, p, env, w);
      && m.ending.Done?
      && m.world.trace == w.trace + [Asked(UserHandler(name), sig), Did(between), Did(onRestart)]
      && m.world.asked == w.asked + 1
  {
    var inside, inner := PushHandler(w, sig, UserHandler(name)), env + [Offer(sig, restart)];
    AnsweredAtOnce(answers, sig, name, restart, inner, inside);
    var sent := Eval(answers, Send(sig, false), inner, inside);
    var body := UnwindAction(Effect(between), Send(sig, false));
    EffectSeen(answers, between, inner, sent.world);
    var unwound := sent.world.(trace := sent.world.trace + [Did(between)]);
    assert Eval(answers, body, inner, inside) == Meaning(Leaving(|env|), unwound);
    EffectSeen(answers, onRestart, env, unwound);
    RestartTaken(answers, sig, restart, Effect(onRestart), body, env, inside);
    assert unwound.trace + [Did(onRestart)]
        == w.trace + [Asked(UserHandler(name), sig), Did(between), Did(onRestart)];
  }

  lemma {:induction false} AnsweredAtOnce(answers: nat -> RestartType, sig: SigType, name: string,
                                          restart: RestartType, env: seq<Offer>, w: World)
    requires w.handlers != [] && Last(w.handlers).sig == sig && Last(w.handlers).handler == UserHandler(name)
    requires restart != RestartNull && answers(w.asked) == restart
    requires env != [] && Last(env) == Offer(sig, restart)
    ensures Eval(answers, Send(sig, false), env, w)
         == Meaning(Leaving(|env| - 1),
                    w.(asked := w.asked + 1, trace := w.trace + [Asked(UserHandler(name), sig)]))
  {
    var d := Consult(answers, w.asked, w.handlers, sig);
    assert d == Dispatch([Last(w.handlers)], Answered(restart));
    assert Visits([Last(w.handlers)], sig, false) == [Asked(UserHandler(name), sig)];
  }
}
