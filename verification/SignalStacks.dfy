/** The entries of the handler and restart stacks, and what one signal does to
    them: which handlers it consults and which restart it selects. */
module SignalStacks {
  import opened GrowableStack

  datatype SigType = SignalAll | Signal(name: string)

  datatype RestartType = RestartNull | Restart(name: string)

  /** A handler function pointer. `Catchall` is the one installed by `sig_init`;
      it ends the thread and never returns. */
  datatype Handler = NullHandler | Catchall | UserHandler(name: string)

  datatype HandlerEntry = HandlerEntry(sig: SigType, handler: Handler, id: nat)

  /** A return point: the C scope that owns the jump buffer, and the fill of the
      unwind stack when it was recorded. */
  datatype Point = Point(scope: nat, unwindTo: nat)

  datatype RestartEntry = RestartEntry(sig: SigType, restart: RestartType, point: Point, id: nat)

  const CATCHALL: HandlerEntry := HandlerEntry(SignalAll, Catchall, 1)

  const HandlerId: HandlerEntry -> nat := (e: HandlerEntry) => e.id

  const RestartId: RestartEntry -> nat := (e: RestartEntry) => e.id

  function NextHandlerId(hs: seq<HandlerEntry>): nat {
    if hs == [] then 1 else Last(hs).id + 1
  }

  function NextRestartId(rs: seq<RestartEntry>): nat {
    if rs == [] then 0 else Last(rs).id + 1
  }

  /** Id 0 is what pushing a null handler returns: removing it does nothing. */
  function RemoveHandler(hs: seq<HandlerEntry>, id: nat): seq<HandlerEntry> {
    if id == 0 then hs else Without(hs, HandlerId, id)
  }

  function RemoveRestart(rs: seq<RestartEntry>, id: nat): seq<RestartEntry> {
    Without(rs, RestartId, id)
  }

  predicate Handles(e: HandlerEntry, sig: SigType) {
    e.sig == sig || e.sig == SignalAll
  }

  predicate Offers(e: RestartEntry, sig: SigType, restart: RestartType) {
    e.restart == restart && (e.sig == sig || e.sig == SignalAll)
  }

  // ---------------------------------------------------------------- dispatch

  datatype Verdict =
    | Answered(restart: RestartType)
    | Unhandled
    | FellThrough

  /** The handlers called, in order, and how the walk ended. */
  datatype Dispatch = Dispatch(consulted: seq<HandlerEntry>, verdict: Verdict)

  /** The downward walk of `_sig_send`. A user handler's n-th call in the thread's
      life answers `answers(n)`: any behaviour that leaves the stacks alone. */
  function Consult(answers: nat -> RestartType, asked: nat, hs: seq<HandlerEntry>, sig: SigType): Dispatch
    decreases |hs|
  {
    if hs == [] then Dispatch([], FellThrough)
    else
      var e := Last(hs);
      if !Handles(e, sig) then Consult(answers, asked, Init(hs), sig)
      else if e.handler.Catchall? then Dispatch([e], Unhandled)
      else if answers(asked) != RestartNull then Dispatch([e], Answered(answers(asked)))
      else
        var rest := Consult(answers, asked + 1, Init(hs), sig);
        Dispatch([e] + rest.consulted, rest.verdict)
  }

  /** The handlers a signal concerns, topmost first. */
  function Matching(hs: seq<HandlerEntry>, sig: SigType): seq<HandlerEntry>
    decreases |hs|
  {
    if hs == [] then []
    else if Handles(Last(hs), sig) then [Last(hs)] + Matching(Init(hs), sig)
    else Matching(Init(hs), sig)
  }

  /** The number of consulted handlers that returned to `_sig_send`. */
  function Returned(d: Dispatch): nat {
    if d.verdict.Unhandled? && |d.consulted| > 0 then |d.consulted| - 1 else |d.consulted|
  }

  /** All these handlers, called in this order, answered null. */
  ghost predicate Declined(answers: nat -> RestartType, asked: nat, hs: seq<HandlerEntry>) {
    forall i :: 0 <= i < |hs| ==> !hs[i].handler.Catchall? && answers(asked + i) == RestartNull
  }

  lemma DeclinedFirst(answers: nat -> RestartType, asked: nat, e: HandlerEntry, hs: seq<HandlerEntry>)
    requires !e.handler.Catchall? && answers(asked) == RestartNull
    requires Declined(answers, asked + 1, hs)
    ensures Declined(answers, asked, [e] + hs)
  {
    forall i | 0 <= i < |[e] + hs|
      ensures !([e] + hs)[i].handler.Catchall? && answers(asked + i) == RestartNull
    {
      if i == 0 {
        assert asked + i == asked;
      } else {
        assert ([e] + hs)[i] == hs[i - 1];
        assert asked + i == asked + 1 + (i - 1);
      }
    }
  }

  /** Dispatch against its specification: the consulted handlers are a prefix of
      the matching ones; all but the last answered null; the walk stops early only
      on a non-null answer or on the catchall, and otherwise has asked them all. */
  lemma {:induction false} ConsultExact(answers: nat -> RestartType, asked: nat, hs: seq<HandlerEntry>, sig: SigType)
    ensures var d := Consult(answers, asked, hs, sig);
      && d.consulted <= Matching(hs, sig)
      && match d.verdict
         case Answered(a) =>
           && d.consulted != [] && !Last(d.consulted).handler.Catchall?
           && Declined(answers, asked, Init(d.consulted))
           && a == answers(asked + |d.consulted| - 1) && a != RestartNull
         case Unhandled =>
           && d.consulted != [] && Last(d.consulted).handler.Catchall?
           && Declined(answers, asked, Init(d.consulted))
         case FellThrough =>
           d.consulted == Matching(hs, sig) && Declined(answers, asked, d.consulted)
    decreases |hs|
  {
    if hs != [] {
      var e := Last(hs);
      if !Handles(e, sig) {
        ConsultExact(answers, asked, Init(hs), sig);
      } else if !e.handler.Catchall? && answers(asked) == RestartNull {
        ConsultExact(answers, asked + 1, Init(hs), sig);
        var rest := Consult(answers, asked + 1, Init(hs), sig);
        if rest.verdict.FellThrough? {
          DeclinedFirst(answers, asked, e, rest.consulted);
        } else {
          DeclinedFirst(answers, asked, e, Init(rest.consulted));
          assert Init([e] + rest.consulted) == [e] + Init(rest.consulted);
        }
      }
    }
  }

  /** `ps` are the positions of `called` going down the stack, all of handlers registered
      for this signal or for all signals ... */
  ghost predicate PositionsOf(hs: seq<HandlerEntry>, sig: SigType, ps: seq<nat>, called: seq<HandlerEntry>) {
    && |ps| == |called|
    && (forall k :: 0 <= k < |ps| ==>
          ps[k] < |hs| && called[k] == hs[ps[k]] && (hs[ps[k]].sig == sig || hs[ps[k]].sig == SignalAll))
    && (forall j, k :: 0 <= j < k < |ps| ==> ps[j] > ps[k])
  }

  /** ... and none such is passed over; unless somebody decided none is left below either. */
  ghost predicate NoGap(hs: seq<HandlerEntry>, sig: SigType, ps: seq<nat>, decided: bool) {
    forall i :: 0 <= i < |hs| && (hs[i].sig == sig || hs[i].sig == SignalAll) ==>
      i in ps || (decided && ps != [] && i < Last(ps))
  }

  lemma PassesOver(hs: seq<HandlerEntry>, sig: SigType, ps: seq<nat>, called: seq<HandlerEntry>, decided: bool)
    requires hs != [] && PositionsOf(Init(hs), sig, ps, called) && NoGap(Init(hs), sig, ps, decided)
    requires Last(hs).sig != sig && Last(hs).sig != SignalAll
    ensures PositionsOf(hs, sig, ps, called) && NoGap(hs, sig, ps, decided)
  {
    assert forall i :: 0 <= i < |hs| - 1 ==> hs[i] == Init(hs)[i];
  }

  lemma CallsTop(hs: seq<HandlerEntry>, sig: SigType, ps: seq<nat>, called: seq<HandlerEntry>)
    requires hs != [] && PositionsOf(Init(hs), sig, ps, called)
    requires Last(hs).sig == sig || Last(hs).sig == SignalAll
    ensures PositionsOf(hs, sig, [|hs| - 1] + ps, [Last(hs)] + called)
  {
    var qs, all := [|hs| - 1] + ps, [Last(hs)] + called;
    forall k | 0 <= k < |qs|
      ensures qs[k] < |hs| && all[k] == hs[qs[k]] && (hs[qs[k]].sig == sig || hs[qs[k]].sig == SignalAll)
    {
      if k > 0 {
        assert qs[k] == ps[k - 1] && all[k] == called[k - 1] && Init(hs)[ps[k - 1]] == hs[ps[k - 1]];
      }
    }
  }

  lemma NoGapAtTop(hs: seq<HandlerEntry>, sig: SigType, ps: seq<nat>, decided: bool)
    requires hs != [] && NoGap(Init(hs), sig, ps, decided) && (decided ==> ps != [])
    ensures NoGap(hs, sig, [|hs| - 1] + ps, decided)
  {
    var qs := [|hs| - 1] + ps;
    forall i | 0 <= i < |hs| && (hs[i].sig == sig || hs[i].sig == SignalAll)
      ensures i in qs || (decided && i < Last(qs))
    {
      if i < |hs| - 1 {
        assert Init(hs)[i] == hs[i];
        assert i in ps ==> i in qs;
      } else {
        assert qs[0] == i;
      }
    }
  }

  lemma {:induction false} CalledInOrder(answers: nat -> RestartType, asked: nat, hs: seq<HandlerEntry>,
                                         sig: SigType) returns (ps: seq<nat>)
    ensures var d := Consult(answers, asked, hs, sig);
      && PositionsOf(hs, sig, ps, d.consulted) && NoGap(hs, sig, ps, !d.verdict.FellThrough?)
      && (!d.verdict.FellThrough? ==> ps != [])
    decreases |hs|
  {
    ps := [];
    if hs != [] {
      if Last(hs).sig != sig && Last(hs).sig != SignalAll {
        ps := CalledInOrder(answers, asked, Init(hs), sig);
        var d := Consult(answers, asked, Init(hs), sig);
        hide PositionsOf, NoGap;
        PassesOver(hs, sig, ps, d.consulted, !d.verdict.FellThrough?);
      } else if Last(hs).handler.Catchall? || answers(asked) != RestartNull {
        ps := [|hs| - 1];
      } else {
        var rest := CalledInOrder(answers, asked + 1, Init(hs), sig);
        var d := Consult(answers, asked + 1, Init(hs), sig);
        hide PositionsOf, NoGap;
        CallsTop(hs, sig, rest, d.consulted);
        NoGapAtTop(hs, sig, rest, !d.verdict.FellThrough?);
        ps := [|hs| - 1] + rest;
      }
    }
  }

  /** Which handlers a signal calls, by position: those registered for this signal or for
      all signals, from the top down, without a gap, to the one that decided or to the
      end. */
  lemma ConsultedPositions(answers: nat -> RestartType, asked: nat, hs: seq<HandlerEntry>, sig: SigType)
    returns (ps: seq<nat>)
    ensures var d := Consult(answers, asked, hs, sig);
      && |ps| == |d.consulted|
      && (forall k :: 0 <= k < |ps| ==>
            ps[k] < |hs| && d.consulted[k] == hs[ps[k]] && (hs[ps[k]].sig == sig || hs[ps[k]].sig == SignalAll))
      && (forall j, k :: 0 <= j < k < |ps| ==> ps[j] > ps[k])
      && (forall i :: 0 <= i < |hs| && (hs[i].sig == sig || hs[i].sig == SignalAll) ==>
            i in ps || (!d.verdict.FellThrough? && ps != [] && i < Last(ps)))
  {
    hide Consult;
    ps := CalledInOrder(answers, asked, hs, sig);
  }

  /** With the catchall at the bottom a signal is never ignored. */
  lemma {:induction false} NeverFallsThrough(answers: nat -> RestartType, asked: nat, hs: seq<HandlerEntry>,
                                             sig: SigType)
    requires hs != [] && hs[0] == CATCHALL
    ensures !Consult(answers, asked, hs, sig).verdict.FellThrough?
    decreases |hs|
  {
    if |hs| > 1 {
      NeverFallsThrough(answers, asked, Init(hs), sig);
      NeverFallsThrough(answers, asked + 1, Init(hs), sig);
    }
  }

  // --------------------------------------------------------- restart selection

  datatype Selection = NoRestart | Selected(entry: RestartEntry)

  /** The first offer met walking down the restart stack. */
  function Select(rs: seq<RestartEntry>, sig: SigType, restart: RestartType): Selection
    decreases |rs|
  {
    if rs == [] then NoRestart
    else if Offers(Last(rs), sig, restart) then Selected(Last(rs))
    else Select(Init(rs), sig, restart)
  }

  lemma {:induction false} SelectTopmost(rs: seq<RestartEntry>, sig: SigType, restart: RestartType)
    ensures match Select(rs, sig, restart)
      case NoRestart =>
        forall i :: 0 <= i < |rs| ==> !(rs[i].restart == restart && (rs[i].sig == sig || rs[i].sig == SignalAll))
      case Selected(e) =>
        exists i :: 0 <= i < |rs| && rs[i] == e && e.restart == restart && (e.sig == sig || e.sig == SignalAll)
          && forall j :: i < j < |rs| ==> !(rs[j].restart == restart && (rs[j].sig == sig || rs[j].sig == SignalAll))
    decreases |rs|
  {
    if rs == [] {
    } else if Offers(Last(rs), sig, restart) {
      assert rs[|rs| - 1] == Last(rs);
    } else {
      SelectTopmost(Init(rs), sig, restart);
      if Select(rs, sig, restart).Selected? {
        var e := Select(rs, sig, restart).entry;
        var i :| 0 <= i < |Init(rs)| && Init(rs)[i] == e && Offers(e, sig, restart)
          && forall j :: i < j < |Init(rs)| ==> !Offers(Init(rs)[j], sig, restart);
        assert rs[i] == e;
        assert forall j :: i < j < |rs| ==> !Offers(rs[j], sig, restart);
      } else {
        assert forall i :: 0 <= i < |rs| ==> (i < |rs| - 1 ==> Init(rs)[i] == rs[i]);
      }
    }
  }

  /** `_sig_restart_available`: unlike the selection, it does not look at restarts
      provided for all signals. */
  predicate Available(rs: seq<RestartEntry>, sig: SigType, restart: RestartType) {
    exists i :: 0 <= i < |rs| && rs[i].sig == sig && rs[i].restart == restart
  }

  /** The availability test reads the whole stack: a restart of another signal or another
      type changes nothing, wherever it is, and one of this signal and type is enough. */
  lemma AvailableAnywhere(below: seq<RestartEntry>, e: RestartEntry, above: seq<RestartEntry>, sig: SigType,
                          restart: RestartType)
    ensures !Available([], sig, restart)
    ensures Available(below + [e] + above, sig, restart)
            <==> (e.sig == sig && e.restart == restart) || Available(below + above, sig, restart)
  {
    var all, rest := below + [e] + above, below + above;
    assert all[|below|] == e;
    if i :| 0 <= i < |rest| && rest[i].sig == sig && rest[i].restart == restart {
      assert all[if i < |below| then i else i + 1] == rest[i];
    }
    if i :| 0 <= i < |all| && i != |below| && all[i].sig == sig && all[i].restart == restart {
      assert rest[if i < |below| then i else i - 1] == all[i];
    }
  }

  /** Exactly when the selection finds a target, in terms of the availability test:
      the test must be asked for the signal and for `SignalAll`. */
  lemma SelectedIffAvailable(rs: seq<RestartEntry>, sig: SigType, restart: RestartType)
    ensures Select(rs, sig, restart).Selected?
            <==> Available(rs, sig, restart) || Available(rs, SignalAll, restart)
  {
    SelectTopmost(rs, sig, restart);
    if Available(rs, sig, restart) {
      var i :| 0 <= i < |rs| && rs[i].sig == sig && rs[i].restart == restart;
      assert Offers(rs[i], sig, restart);
    }
    if Available(rs, SignalAll, restart) {
      var i :| 0 <= i < |rs| && rs[i].sig == SignalAll && rs[i].restart == restart;
      assert Offers(rs[i], sig, restart);
    }
  }

  /** A target exists although the availability test denies it. */
  lemma AvailabilityIsNarrower()
    ensures var rs := [RestartEntry(SignalAll, Restart("RETRY"), Point(0, 0), 0)];
      Select(rs, Signal("FAIL"), Restart("RETRY")).Selected?
      && !Available(rs, Signal("FAIL"), Restart("RETRY"))
  {
    var e := RestartEntry(SignalAll, Restart("RETRY"), Point(0, 0), 0);
    assert Offers(Last([e]), Signal("FAIL"), Restart("RETRY"));
  }
}
