/** What every run of the shutdown protocol guarantees. */
module ShutdownTheorems {
  import opened Compaction
  import opened ShutdownProtocol
  import opened ShutdownInvariant

  /** A run: the actions taken and the states passed through. */
  datatype Run = Run(states: seq<State>, acts: seq<Action>)

  ghost predicate IsRun(r: Run) {
    && |r.states| == |r.acts| + 1
    && r.states[0] == INITIAL
    && forall i :: 0 <= i < |r.acts| ==> Goes(r.states[i], r.acts[i], r.states[i + 1])
  }

  ghost predicate Goes(s: State, a: Action, s': State) {
    Enabled(s, a) && s' == Apply(s, a)
  }

  lemma {:induction false} ReachableInv(run: Run, n: nat)
    requires IsRun(run) && n < |run.states|
    ensures Inv(run.states[n])
  {
    hide Inv, Apply, Enabled;
    if n == 0 {
      InitialInv();
    } else {
      ReachableInv(run, n - 1);
      assert Goes(run.states[n - 1], run.acts[n - 1], run.states[n]);
      StepKept(run.states[n - 1], run.acts[n - 1]);
    }
  }

  lemma ReachableLegal(run: Run, n: nat)
    requires IsRun(run) && n < |run.states|
    ensures Legal(run.states[n].hist)
  {
    hide IsRun, MutexOk, ServerOk, ListsOk, BirthsOk, SendingOk, Legal, RequestsOk;
    ReachableInv(run, n);
  }

  // ------------------------------------------------------------------ exclusion

  /** The lock word is 1 exactly when some thread is between its compare-and-swap and
      its store of 0, and then exactly one is. */
  lemma MutualExclusion(run: Run, n: nat, t: nat, u: nat)
    requires IsRun(run) && n < |run.states|
    ensures var s := run.states[n];
      && (s.master <==> exists h :: h in s.pcs && Holds(s.pcs[h]))
      && (t in s.pcs && u in s.pcs && Holds(s.pcs[t]) && Holds(s.pcs[u]) ==> t == u)
  {
    ReachableInv(run, n);
    var s := run.states[n];
    assert t in s.pcs && u in s.pcs ==> PcOf(s.pcs, t) == s.pcs[t] && PcOf(s.pcs, u) == s.pcs[u];
    if s.master {
      var h :| Holds(PcOf(s.pcs, h));
      assert h in s.pcs && Holds(s.pcs[h]);
    }
    if h :| h in s.pcs && Holds(s.pcs[h]) {
      assert Holds(PcOf(s.pcs, h));
    }
  }

  /** A shutdown thread, until it has let go of the lock for the last time. */
  predicate Lives(pc: PC) {
    Serves(pc) || pc.FinalUnlock?
  }

  /** Never two shutdown threads. Outside the window in which a registration creates
      one, `started` tells whether there is one that has not retired; inside, the new
      thread is stuck in its wait. */
  lemma OneShutdownThread(run: Run, n: nat, t: nat, u: nat)
    requires IsRun(run) && n < |run.states|
    ensures var s := run.states[n];
      var creating := exists m :: m in s.pcs && s.pcs[m].Marking?;
      && (t in s.pcs && u in s.pcs && Lives(s.pcs[t]) && Lives(s.pcs[u]) ==> t == u)
      && (!creating ==> (s.started <==> exists x :: x in s.pcs && Serves(s.pcs[x])))
      && (creating && t in s.pcs && Lives(s.pcs[t]) ==>
            forall a: Action :: a.t == t ==> !Enabled(s, a))
  {
    hide IsRun, ListsOk, BirthsOk, RequestsOk, SendingOk, Legal;
    ReachableInv(run, n);
    var s := run.states[n];
    assert t in s.pcs && u in s.pcs ==> PcOf(s.pcs, t) == s.pcs[t] && PcOf(s.pcs, u) == s.pcs[u];
    if m :| m in s.pcs && s.pcs[m].Marking? {
      assert PcOf(s.pcs, m).Marking?;
    } else if x :| Serves(PcOf(s.pcs, x)) {
      assert x in s.pcs && Serves(s.pcs[x]);
    }
    assert forall x :: x in s.pcs ==> PcOf(s.pcs, x) == s.pcs[x];
  }

  // ------------------------------------------------------------------- requests

  predicate ClosesEvent(pc: PC) {
    pc.LockingEvent? || pc.FinalEvent?
  }

  predicate TouchesEvent(pc: PC) {
    ClosesEvent(pc) || pc.Signalling? || pc.Creating?
  }

  /** A shutdown thread that has not yet decided about sending. */
  predicate Undecided(pc: PC) {
    pc.Awaiting? || pc.Testing? || pc.Flagging?
  }

  /** ... and one that has come back from `send_block`. */
  predicate Returned(pc: PC) {
    pc.FinalLock? || pc.FinalTest? || pc.FinalEvent? || pc.FinalClear? || pc.FinalUnlock? || pc.Gone?
  }

  ghost predicate HasSent(hist: seq<Event>, t: nat) {
    exists timedOut :: Sent(t, timedOut) in hist
  }

  /** How one thread goes on: decisions about sending are made once, by `shutdown`, and
      the way back from sending leads over its end. */
  predicate GoesOn(from: PC, to: PC, shutdown: bool, sent: bool) {
    && (Undecided(to) ==> Undecided(from))
    && (to.Awaiting? ==> from.Awaiting?)
    && (from.Testing? ==> to == from || to == if shutdown then FinalLock else Flagging)
    && (from.Flagging? ==> to == from || to.BroadcastLock?)
    && (from.Awaiting? ==> to == from || to.Testing?)
    && (Sends(from) ==> Sends(to) || (sent && Returned(to)))
    && (Returned(from) ==> Returned(to))
  }

  /** A step from `s` to `r` that moves `t` only. */
  ghost predicate MovesOn(s: State, r: State, t: nat) {
    && t in r.pcs && Moves(s, r, t, r.pcs[t])
    && (t in s.pcs ==> GoesOn(s.pcs[t], r.pcs[t], s.shutdown, HasSent(r.hist, t)))
  }

  lemma BroadcastMoves(s: State, t: nat, failed: bool)
    requires t in s.pcs
    requires var pc := s.pcs[t]; pc.Testing? || pc.Flagging? || pc.Broadcasting? || pc.BroadcastUnlock?
    ensures MovesOn(s, RunSend(s, t, failed), t)
  {
    hide Go, Leave, SetFlag, CallOne, HasSent;
  }

  lemma WaitMoves(s: State, t: nat, failed: bool)
    requires t in s.pcs
    requires var pc := s.pcs[t]; pc.WaitTest? || pc.WaitUnlock? || pc.Sleeping? || pc.Freeing?
    ensures MovesOn(s, RunSend(s, t, failed), t)
  {
    hide Go, Leave, SeeDrained, Free;
  }

  lemma SendMoves(s: State, t: nat, failed: bool)
    requires t in s.pcs && !s.pcs[t].Awaiting?
    ensures MovesOn(s, RunSend(s, t, failed), t)
  {
    hide Go, Leave, SetFlag, CallOne, SeeDrained, Free, HasSent;
    var pc := s.pcs[t];
    if pc.Testing? || pc.Flagging? || pc.Broadcasting? || pc.BroadcastUnlock? {
      BroadcastMoves(s, t, failed);
    } else if pc.WaitTest? || pc.WaitUnlock? || pc.Sleeping? || pc.Freeing? {
      WaitMoves(s, t, failed);
    } else {
      assert s.pcs[t := pc] == s.pcs;
    }
  }

  lemma BodyMoves(s: State, t: nat, call: Call)
    requires t in s.pcs && s.pcs[t].Body?
    ensures MovesOn(s, RunBody(s, t, call), t)
  {
    hide Register, Confirm, Subscribe, Unsubscribe, Request;
  }

  lemma ClientMoves(s: State, t: nat, child: nat, failed: bool)
    requires Enabled(s, Next(t, child, failed)) && !TouchesEvent(s.pcs[t]) && !s.pcs[t].Awaiting?
    ensures MovesOn(s, RunClient(s, t, child, failed), t)
  {
    hide Go, Leave, Create, Mark;
  }

  lemma ServerMoves(s: State, t: nat)
    requires t in s.pcs && !s.pcs[t].FinalEvent?
    ensures MovesOn(s, RunServer(s, t), t)
  {
    hide Go, Leave, Wake, Exit, Retire;
  }

  lemma LockMoves(s: State, t: nat)
    requires t in s.pcs && WantsLock(s.pcs[t])
    ensures MovesOn(s, Locked(s, t), t) && MovesOn(s, s, t)
  {
    hide Enter, StartBroadcast;
  }

  /** Every step but four kinds moves its own thread only and leaves the event alone. */
  lemma OrdinaryStep(s: State, a: Action)
    requires Enabled(s, a) && (a.Next? ==> !TouchesEvent(s.pcs[a.t]))
    ensures MovesOn(s, Apply(s, a), a.t)
  {
    hide RunBody, RunClient, RunSend, RunServer, MovesOn, Go, Locked;
    if a.Next? {
      var pc := s.pcs[a.t];
      if pc.Body? { BodyMoves(s, a.t, pc.call); }
      if !pc.Awaiting? {
        SendMoves(s, a.t, a.failed);
        ClientMoves(s, a.t, a.child, a.failed);
      }
      ServerMoves(s, a.t);
    } else if a.Invoke? {
      InvokeMoves(s, a.t, a.call);
    } else {
      LockMoves(s, a.t);
    }
  }

  lemma InvokeMoves(s: State, t: nat, call: Call)
    requires t in s.pcs ==> s.pcs[t].Idle?
    ensures MovesOn(s, Go(s, t, Acquiring(call)), t)
  {
    hide Go;
  }

  /** The other four close the event, open it, or create a thread that waits for it. */
  lemma EventStepIs(s: State, t: nat, child: nat, failed: bool)
    requires Enabled(s, Next(t, child, failed)) && TouchesEvent(s.pcs[t])
    ensures Apply(s, Next(t, child, failed))
         == match s.pcs[t]
            case LockingEvent => CloseEvent(s, t, Creating)
            case FinalEvent => CloseEvent(s, t, FinalClear)
            case Signalling => OpenEvent(s, t)
            case _ => if failed then s.(exited := true) else Create(s, t, child)
  {
    hide RunBody, RunSend, CloseEvent, OpenEvent, Create;
  }

  lemma EventStep(s: State, t: nat, child: nat, failed: bool)
    requires Enabled(s, Next(t, child, failed)) && TouchesEvent(s.pcs[t])
    ensures var r := Apply(s, Next(t, child, failed));
      && (forall u :: u in s.pcs ==> u in r.pcs && (u != t ==> r.pcs[u] == s.pcs[u]))
      && !r.pcs[t].Awaiting? && GoesOn(s.pcs[t], r.pcs[t], s.shutdown, HasSent(r.hist, t))
      && (s.pcs[t].Signalling? ==> !r.event)
      && (s.pcs[t].Creating? ==> r.event == s.event)
      && s.hist <= r.hist && r.shutdown == s.shutdown
  {
    hide Apply, CloseEvent, OpenEvent, Create;
    EventStepIs(s, t, child, failed);
  }

  /** `t` has passed its wait, or can. */
  predicate MayPass(s: State, t: nat) {
    t in s.pcs && (s.pcs[t].Awaiting? ==> !s.event)
  }

  /** Nothing takes that away: an open event is closed again only when no thread waits
      for it. */
  lemma RequestNotLost(run: Run, n: nat, t: nat)
    requires IsRun(run) && n < |run.acts| && MayPass(run.states[n], t)
    ensures MayPass(run.states[n + 1], t)
  {
    hide MutexOk, ListsOk, BirthsOk, SendingOk, Legal, RequestsOk, Apply;
    ReachableInv(run, n);
    var s, a := run.states[n], run.acts[n];
    assert Goes(s, a, run.states[n + 1]);
    assert PcOf(s.pcs, t) == s.pcs[t] && Serves(Awaiting);
    if a.Next? && TouchesEvent(s.pcs[a.t]) {
      assert PcOf(s.pcs, a.t) == s.pcs[a.t];
      EventStep(s, a.t, a.child, a.failed);
    } else {
      OrdinaryStep(s, a);
    }
  }

  /** A request made while a shutdown thread waits reaches it: whatever the threads do
      afterwards, that thread has passed its wait or is enabled to. */
  lemma {:induction false} RequestReachesWaiter(run: Run, k: nat, n: nat, t: nat)
    requires IsRun(run) && k < n < |run.states| && run.acts[k].Next?
    requires var s, c := run.states[k], run.acts[k].t;
      c in s.pcs && s.pcs[c].Signalling? && t in s.pcs && s.pcs[t].Awaiting?
    ensures var s := run.states[n];
      && MayPass(s, t)
      && (s.pcs[t].Awaiting? && !s.exited ==> Enabled(s, Next(t, 0, false)))
    decreases n
  {
    hide Apply;
    if n == k + 1 {
      var a := run.acts[k];
      assert Goes(run.states[k], a, run.states[n]);
      EventStep(run.states[k], a.t, a.child, a.failed);
    } else {
      RequestReachesWaiter(run, k, n - 1, t);
      RequestNotLost(run, n - 1, t);
    }
  }

  /** What `AskedSince` says: the latest birth of `t`, if any, is followed by a request. */
  lemma {:induction false} AskedSinceMeans(hist: seq<Event>, t: nat)
    ensures AskedSince(hist, t) <==>
      exists r :: 0 <= r < |hist| && hist[r].Requested? && forall j :: r < j < |hist| ==> hist[j] != Born(t)
  {
    if hist != [] {
      var n := |hist| - 1;
      var past := hist[..n];
      AskedSinceMeans(past, t);
      if AskedSince(hist, t) {
        if !hist[n].Requested? {
          var r :| 0 <= r < |past| && past[r].Requested? && forall j :: r < j < |past| ==> past[j] != Born(t);
          assert hist[r].Requested? && forall j :: r < j < |hist| ==> hist[j] != Born(t);
        } else {
          assert hist[n].Requested?;
        }
      }
      if r :| 0 <= r < |hist| && hist[r].Requested? && forall j :: r < j < |hist| ==> hist[j] != Born(t) {
        if r < n {
          assert past[r].Requested? && forall j :: r < j < |past| ==> past[j] != Born(t);
        }
      }
    }
  }

  /** Each event of a legal history was allowed when it happened. */
  lemma {:induction false} LegalAt(hist: seq<Event>, k: nat)
    requires Legal(hist) && k < |hist|
    ensures Legal(hist[..k]) && Allowed(hist[..k], hist[k])
    decreases |hist|
  {
    var past := hist[..|hist| - 1];
    if k < |past| {
      LegalAt(past, k);
      assert past[..k] == hist[..k];
    }
  }

  lemma Earlier(hist: seq<Event>, k: nat, e: Event) returns (i: nat)
    requires k <= |hist| && e in hist[..k]
    ensures i < k && hist[i] == e
  {
    i :| 0 <= i < |hist[..k]| && hist[..k][i] == e;
  }

  /** A request is never stale: a shutdown thread passes its wait only if some request
      was made after its own birth. */
  lemma RequestNotStale(run: Run, n: nat, k: nat, t: nat) returns (b: nat, r: nat)
    requires IsRun(run) && n < |run.states| && k < |run.states[n].hist| && run.states[n].hist[k] == Woken(t)
    ensures var hist := run.states[n].hist;
      b < r < k && hist[b] == Born(t) && hist[r].Requested?
  {
    hide IsRun, Legal, AskedSince;
    ReachableLegal(run, n);
    var hist := run.states[n].hist;
    LegalAt(hist, k);
    b := Earlier(hist, k, Born(t));
    AskedSinceMeans(hist[..k], t);
    r :| 0 <= r < |hist[..k]| && hist[..k][r].Requested? && forall j :: r < j < |hist[..k]| ==> hist[..k][j] != Born(t);
    assert b < |hist[..k]| && hist[..k][b] == Born(t);
    assert hist[r].Requested?;
  }

  /** One step: the history is extended, every thread goes on or stays, and `shutdown`
      is touched only by one on its way to a broadcast. */
  lemma StepGoesOn(run: Run, n: nat, t: nat)
    requires IsRun(run) && n < |run.acts|
    ensures run.states[n].hist <= run.states[n + 1].hist
    ensures var s, r, a := run.states[n], run.states[n + 1], run.acts[n].t;
      && (t in s.pcs ==> t in r.pcs && GoesOn(s.pcs[t], r.pcs[t], s.shutdown, HasSent(r.hist, t)))
      && (r.shutdown != s.shutdown ==> a in r.pcs && r.pcs[a].BroadcastLock?)
  {
    hide Apply;
    var s, a := run.states[n], run.acts[n];
    assert Goes(s, a, run.states[n + 1]);
    if a.Next? && TouchesEvent(s.pcs[a.t]) {
      EventStep(s, a.t, a.child, a.failed);
    } else {
      OrdinaryStep(s, a);
    }
  }

  lemma {:induction false} RunGoesOn(run: Run, k: nat, n: nat, t: nat)
    requires IsRun(run) && k <= n < |run.states|
    ensures run.states[k].hist <= run.states[n].hist
    ensures var s, r := run.states[k], run.states[n];
      t in s.pcs && !s.pcs[t].Awaiting? ==> t in r.pcs && !r.pcs[t].Awaiting?
    decreases n
  {
    hide Goes;
    if k < n {
      RunGoesOn(run, k, n - 1, t);
      StepGoesOn(run, n - 1, t);
    }
  }

  /** Thread `t` waits and the event is open. */
  predicate Reached(s: State, t: nat) {
    Waits(s, t) && !s.event
  }

  predicate Waits(s: State, t: nat) {
    t in s.pcs && s.pcs[t].Awaiting?
  }

  /** Nothing is requested between two histories. */
  ghost predicate Unrequested(earlier: seq<Event>, later: seq<Event>) {
    forall j :: |earlier| <= j < |later| ==> !later[j].Requested?
  }

  /** A waiting thread finds the event open without a new request only if it was already
      waiting: requests made when it was not waiting, being unborn or past its wait,
      do not let it pass. */
  lemma OnlyWaitersAreReached(run: Run, k: nat, n: nat, t: nat)
    requires IsRun(run) && k <= n < |run.states|
    requires Reached(run.states[n], t) && Unrequested(run.states[k].hist, run.states[n].hist)
    ensures Waits(run.states[k], t)
  {
    hide IsRun, MutexOk, ServerOk, ListsOk, SendingOk, Legal, AskedSince;
    RunGoesOn(run, k, n, t);
    ReachableInv(run, n);
    ReachableInv(run, k);
    var past, hist := run.states[k].hist, run.states[n].hist;
    assert PcOf(run.states[n].pcs, t).Awaiting? && Serves(Awaiting);
    AskedSinceMeans(hist, t);
    var r :| 0 <= r < |hist| && hist[r].Requested? && forall j :: r < j < |hist| ==> hist[j] != Born(t);
    var b :| 0 <= b < |hist| && hist[b] == Born(t);
    assert past[b] == Born(t);
  }

  /** Step `k` opens the event for a request. */
  ghost predicate RequestAt(run: Run, k: nat) {
    && k < |run.acts| && k < |run.states| && run.acts[k].Next?
    && run.acts[k].t in run.states[k].pcs && run.states[k].pcs[run.acts[k].t].Signalling?
  }

  /** At `n` thread `t` can pass, and the request of step `k` is still the latest one. */
  ghost predicate LetsPass(run: Run, k: nat, n: nat, t: nat) {
    k < n < |run.states| && Reached(run.states[n], t) && Unrequested(run.states[k].hist, run.states[n].hist)
  }

  /** Which requests wake somebody: the request of step `k` lets a thread pass its wait if
      and only if that thread is waiting when the request is made. */
  lemma RequestReachesExactlyWaiters(run: Run, k: nat, t: nat)
    requires IsRun(run) && RequestAt(run, k)
    ensures (exists n :: LetsPass(run, k, n, t)) <==> Waits(run.states[k], t)
  {
    hide Apply, Enabled;
    var s, a, r := run.states[k], run.acts[k], run.states[k + 1];
    assert Goes(s, a, r);
    if Waits(s, t) {
      RequestLeavesWaiter(s, a.t, a.child, a.failed, t);
      assert LetsPass(run, k, k + 1, t);
    }
    if n :| LetsPass(run, k, n, t) {
      OnlyWaitersAreReached(run, k, n, t);
    }
  }

  lemma RequestLeavesWaiter(s: State, c: nat, child: nat, failed: bool, t: nat)
    requires Enabled(s, Next(c, child, failed)) && s.pcs[c].Signalling?
    requires Waits(s, t)
    ensures var r := Apply(s, Next(c, child, failed));
      Reached(r, t) && r.hist == s.hist
  {
    hide Apply, OpenEvent;
    EventStepIs(s, c, child, failed);
  }

  /** So a request lets nobody pass, however the run goes on, if and only if nobody waits
      when it is made. What it says about ending the process is kept all the same. */
  lemma WakesNobodyIffNobodyWaits(run: Run, k: nat)
    requires IsRun(run) && RequestAt(run, k)
    ensures (forall n, t :: !LetsPass(run, k, n, t))
       <==> (forall t :: !Waits(run.states[k], t))
  {
    hide Goes, LetsPass, Waits;
    if n, t :| LetsPass(run, k, n, t) {
      RequestReachesExactlyWaiters(run, k, t);
    } else if t :| Waits(run.states[k], t) {
      RequestReachesExactlyWaiters(run, k, t);
    }
  }

  lemma {:induction false} LastAskedMeans(hist: seq<Event>) returns (r: nat)
    requires LastAsked(hist)
    ensures r < |hist| && hist[r] == Requested(true) && forall j :: r < j < |hist| ==> !hist[j].Requested?
  {
    var n := |hist| - 1;
    if hist[n].Requested? {
      r := n;
    } else {
      r := LastAskedMeans(hist[..n]);
    }
  }

  /** The process is ended only if the latest request asked for it. */
  lemma ExitOnlyIfAsked(run: Run, n: nat, k: nat, t: nat) returns (r: nat)
    requires IsRun(run) && n < |run.states| && k < |run.states[n].hist| && run.states[n].hist[k] == ProcessExit(t)
    ensures var hist := run.states[n].hist;
      r < k && hist[r] == Requested(true) && forall j :: r < j < k ==> !hist[j].Requested?
  {
    hide IsRun, Legal, LastAsked;
    ReachableLegal(run, n);
    var hist := run.states[n].hist;
    LegalAt(hist, k);
    r := LastAskedMeans(hist[..k]);
    forall j | r < j < k ensures !hist[j].Requested? {
      assert hist[..k][j] == hist[j];
    }
  }

  /** At its decision a shutdown thread ends the process exactly when the latest
      request asked for it, and otherwise goes on to retire. */
  lemma ExitsIffAsked(run: Run, n: nat)
    requires IsRun(run) && n < |run.acts| && run.acts[n].Next?
    requires var s, t := run.states[n], run.acts[n].t; t in s.pcs && s.pcs[t].FinalTest?
    ensures var s, r, t := run.states[n], run.states[n + 1], run.acts[n].t;
      && (r.exited <==> LastAsked(s.hist))
      && (!r.exited ==> t in r.pcs && r.pcs[t].FinalEvent?)
  {
    hide MutexOk, ServerOk, BirthsOk, SendingOk, RequestsOk, Legal, LastAsked, Members, Subscriptions, RunBody,
      RunClient, RunSend;
    ReachableInv(run, n);
    assert Goes(run.states[n], run.acts[n], run.states[n + 1]);
  }

  /** A shutdown thread is born only when all earlier ones have retired. */
  lemma BornAfterRetirement(run: Run, n: nat, k: nat, t: nat, i: nat, u: nat) returns (j: nat)
    requires IsRun(run) && n < |run.states| && i < k < |run.states[n].hist|
    requires run.states[n].hist[k] == Born(t) && run.states[n].hist[i] == Born(u)
    ensures t != u && j < k && run.states[n].hist[j] == Retired(u)
  {
    hide IsRun, Legal;
    ReachableLegal(run, n);
    var hist := run.states[n].hist;
    LegalAt(hist, k);
    assert hist[..k][i] == Born(u);
    j := Earlier(hist, k, Retired(u));
  }

  // -------------------------------------------------------------------- waiting

  ghost predicate NoDuplicates(list: seq<nat>) {
    forall i, j :: 0 <= i < j < |list| ==> list[i] != list[j]
  }

  /** Until the sender frees it, the thread list holds, without duplicates, exactly the
      threads registered and not since confirmed. */
  lemma ThreadListExact(run: Run, n: nat, pid: nat)
    requires IsRun(run) && n < |run.states| && !run.states[n].freed
    ensures var s := run.states[n];
      && NoDuplicates(s.threads)
      && (pid in s.threads <==>
            exists j :: 0 <= j < |s.hist| && s.hist[j] == Joined(pid)
              && forall k :: j < k < |s.hist| ==> s.hist[k] != Left(pid))
  {
    hide MutexOk, ServerOk, BirthsOk, SendingOk, Legal, RequestsOk, Members, Subscriptions;
    ReachableInv(run, n);
    MembersExact(run.states[n].hist, pid);
    MembersDistinct(run.states[n].hist);
  }

  ghost predicate Present(hist: seq<Event>, pid: nat) {
    exists j :: 0 <= j < |hist| && hist[j] == Joined(pid) && forall k :: j < k < |hist| ==> hist[k] != Left(pid)
  }

  lemma PresentStep(hist: seq<Event>, pid: nat)
    requires hist != []
    ensures var last := hist[|hist| - 1];
      Present(hist, pid) <==> last == Joined(pid) || (last != Left(pid) && Present(hist[..|hist| - 1], pid))
  {
    var n := |hist| - 1;
    var past := hist[..n];
    if Present(past, pid) && hist[n] != Left(pid) {
      var j :| 0 <= j < |past| && past[j] == Joined(pid) && forall k :: j < k < |past| ==> past[k] != Left(pid);
      assert hist[j] == Joined(pid) && forall k :: j < k < |hist| ==> hist[k] != Left(pid);
    }
    if Present(hist, pid) && hist[n] != Joined(pid) {
      var j :| 0 <= j < |hist| && hist[j] == Joined(pid) && forall k :: j < k < |hist| ==> hist[k] != Left(pid);
      assert past[j] == Joined(pid) && forall k :: j < k < |past| ==> past[k] != Left(pid);
      assert hist[n] != Left(pid);
    }
  }

  lemma {:induction false} MembersExact(hist: seq<Event>, pid: nat)
    ensures pid in Members(hist) <==> Present(hist, pid)
  {
    if hist != [] {
      hide Present;
      var n := |hist| - 1;
      MembersExact(hist[..n], pid);
      PresentStep(hist, pid);
      if hist[n].Left? {
        KeepIsFilter(Members(hist[..n]), (y: nat) => y == hist[n].pid);
      }
    }
  }

  lemma {:induction false} MembersDistinct(hist: seq<Event>)
    ensures NoDuplicates(Members(hist))
  {
    if hist != [] {
      var n := |hist| - 1;
      MembersDistinct(hist[..n]);
      if hist[n].Left? {
        var past, gone := Members(hist[..n]), (y: nat) => y == hist[n].pid;
        forall i, j | 0 <= i < j < |Keep(past, gone)| ensures Keep(past, gone)[i] != Keep(past, gone)[j] {
          var a, b := KeepInOrder(past, gone, i, j);
        }
      }
    }
  }

  /** When `send_block` really sent and returned false, there was a moment after the
      flag was set at which no registered thread was left unconfirmed. */
  lemma WaitIsSound(run: Run, n: nat, k: nat, t: nat) returns (f: nat, d: nat)
    requires IsRun(run) && n < |run.states| && k < |run.states[n].hist| && run.states[n].hist[k] == Sent(t, false)
    ensures var hist := run.states[n].hist;
      f < d < k && hist[f] == Flagged(t) && hist[d] == Drained(t) && Members(hist[..d]) == []
  {
    hide IsRun, Legal, Calls, Snapshot, Members;
    ReachableLegal(run, n);
    var hist := run.states[n].hist;
    LegalAt(hist, k);
    d := Earlier(hist, k, Drained(t));
    LegalAt(hist, d);
    f := Earlier(hist, d, Flagged(t));
  }

  /** A look of `send_block` at the thread list ends the wait if and only if no registered
      thread is left unconfirmed at that moment; otherwise the thread is on its way to
      another sleep. */
  lemma LookSeesList(run: Run, n: nat)
    requires IsRun(run) && n < |run.acts| && run.acts[n].Next?
    requires var s, t := run.states[n], run.acts[n].t; t in s.pcs && s.pcs[t].WaitTest?
    ensures var s, r, t := run.states[n], run.states[n + 1], run.acts[n].t;
      && t in r.pcs
      && r.pcs[t] == WaitUnlock(Members(s.hist) != [])
      && r.hist == if Members(s.hist) == [] then s.hist + [Drained(t)] else s.hist
  {
    hide MutexOk, ServerOk, BirthsOk, RequestsOk, Legal, Members, Subscriptions, RunBody, RunClient, RunServer;
    ReachableInv(run, n);
    assert Goes(run.states[n], run.acts[n], run.states[n + 1]);
    var s, t := run.states[n], run.acts[n].t;
    SendingOf(s.shutdown, s.freed, s.callbacks, s.hist, s.pcs, t);
  }

  /** `send_block` returns false if and only if one of its looks found nobody left. */
  lemma SentFalseIffDrained(run: Run, n: nat, k: nat, t: nat, timedOut: bool)
    requires IsRun(run) && n < |run.states| && k < |run.states[n].hist| && run.states[n].hist[k] == Sent(t, timedOut)
    ensures var hist := run.states[n].hist;
      !timedOut <==> exists d :: 0 <= d < k && hist[d] == Drained(t) && Members(hist[..d]) == []
  {
    hide IsRun, Legal, Calls, Snapshot, Members;
    if !timedOut {
      var f, d := WaitIsSound(run, n, k, t);
    } else {
      ReachableLegal(run, n);
      var hist := run.states[n].hist;
      LegalAt(hist, k);
      assert forall d :: 0 <= d < k ==> hist[d] in hist[..k];
    }
  }

  // ------------------------------------------------------------------ broadcast

  /** Once a broadcast has been completed nothing is ever called again. */
  lemma {:induction false} NoMoreCalls(hist: seq<Event>, k: nat, o: nat)
    requires Legal(hist) && o < k <= |hist| && hist[o].Opened?
    requires Calls(hist[..k]) == Snapshot(hist[..k])
    ensures Calls(hist) == Calls(hist[..k]) && Snapshot(hist) == Snapshot(hist[..k])
    decreases |hist|
  {
    if k == |hist| {
      assert hist[..k] == hist;
    } else {
      var past := hist[..|hist| - 1];
      assert past[..k] == hist[..k];
      NoMoreCalls(past, k, o);
      assert past[o] == hist[o];
      assert hist[o] in past;
    }
  }

  /** The snapshot is what was subscribed when the one broadcast took the lock. */
  lemma {:induction false} SnapshotAt(hist: seq<Event>, o: nat)
    requires Legal(hist) && o < |hist| && hist[o].Opened?
    ensures Snapshot(hist) == Subscriptions(hist[..o])
    ensures forall j :: 0 <= j < |hist| && hist[j].Opened? ==> j == o
    decreases |hist|
  {
    var n := |hist| - 1;
    if o < n {
      SnapshotAt(hist[..n], o);
      assert hist[..n][..o] == hist[..o];
      assert hist[..n][o] == hist[o] && hist[o] in hist[..n];
      forall j | 0 <= j < |hist| && hist[j].Opened? ensures j == o {
        assert j < n ==> hist[..n][j] == hist[j];
      }
    } else {
      forall j | 0 <= j < n ensures !hist[j].Opened? {
        assert hist[..n][j] == hist[j];
        assert hist[j] in hist[..n];
      }
    }
  }

  /** Ids are handed out in increasing order, so they are never used twice. */
  lemma {:induction false} SubscriptionsRise(hist: seq<Event>)
    requires Legal(hist)
    ensures forall x :: x in Subscriptions(hist) ==> Subscribed(x) in hist
    ensures forall i, j :: 0 <= i < j < |Subscriptions(hist)| ==> Subscriptions(hist)[i] < Subscriptions(hist)[j]
  {
    if hist != [] {
      var n := |hist| - 1;
      var past := hist[..n];
      SubscriptionsRise(past);
      assert forall x :: Subscribed(x) in past ==> Subscribed(x) in hist;
      if hist[n].Unsubscribed? {
        var subs, gone := Subscriptions(past), (y: nat) => y == hist[n].id;
        KeepIsFilter(subs, gone);
        forall i, j | 0 <= i < j < |Keep(subs, gone)| ensures Keep(subs, gone)[i] < Keep(subs, gone)[j] {
          var a, b := KeepInOrder(subs, gone, i, j);
        }
      } else if hist[n].Subscribed? {
        forall i | 0 <= i < |Subscriptions(past)| ensures Subscriptions(past)[i] < hist[n].id {
          assert Subscriptions(past)[i] in Subscriptions(past);
        }
      }
    }
  }

  lemma {:induction false} CallsWithinSnapshot(hist: seq<Event>)
    requires Legal(hist)
    ensures Calls(hist) <= Snapshot(hist)
  {
    if hist != [] {
      CallsWithinSnapshot(hist[..|hist| - 1]);
    }
  }

  /** In no run is a callback called twice, or out of the order of registration. */
  lemma NoCallTwice(run: Run, n: nat)
    requires IsRun(run) && n < |run.states|
    ensures var calls := Calls(run.states[n].hist);
      forall i, j :: 0 <= i < j < |calls| ==> calls[i] < calls[j]
  {
    hide IsRun, Legal, Calls, Snapshot, Subscriptions;
    ReachableLegal(run, n);
    var hist := run.states[n].hist;
    CallsWithinSnapshot(hist);
    SnapshotRises(hist);
  }

  lemma {:induction false} SnapshotRises(hist: seq<Event>)
    requires Legal(hist)
    ensures forall i, j :: 0 <= i < j < |Snapshot(hist)| ==> Snapshot(hist)[i] < Snapshot(hist)[j]
  {
    if hist != [] {
      if hist[|hist| - 1].Opened? {
        SubscriptionsRise(hist[..|hist| - 1]);
      } else {
        SnapshotRises(hist[..|hist| - 1]);
      }
    }
  }

  /** A send that finished has called exactly the callbacks that were registered when
      its broadcast took the lock, each once, in the order of registration; and nothing
      was ever called before or after. */
  lemma BroadcastExactlyOnce(run: Run, n: nat, k: nat, t: nat, timedOut: bool) returns (o: nat)
    requires IsRun(run) && n < |run.states| && k < |run.states[n].hist| && run.states[n].hist[k] == Sent(t, timedOut)
    ensures var hist := run.states[n].hist;
      && o < k && hist[o] == Opened(t)
      && Calls(hist[..o]) == []
      && Calls(hist[..k]) == Subscriptions(hist[..o])
      && Calls(hist) == Subscriptions(hist[..o])
  {
    hide IsRun, Legal, Calls, Snapshot, Subscriptions;
    ReachableLegal(run, n);
    var hist := run.states[n].hist;
    LegalAt(hist, k);
    o := Earlier(hist, k, Opened(t));
    LegalAt(hist, o);
    assert hist[..k][..o] == hist[..o];
    SnapshotAt(hist[..k], o);
    NoMoreCalls(hist, k, o);
  }

  /** An id that was unsubscribed is never subscribed again: unregistering it once more
      changes nothing. */
  lemma {:induction false} UnsubscribedForGood(hist: seq<Event>, i: nat, k: nat, id: nat)
    requires Legal(hist) && i < k < |hist|
    requires hist[i] == Subscribed(id) && hist[k] == Unsubscribed(id)
    ensures id !in Subscriptions(hist)
  {
    var n := |hist| - 1;
    var past := hist[..n];
    if k == n {
      KeepIsFilter(Subscriptions(past), (y: nat) => y == id);
    } else {
      assert past[i] == hist[i] && past[k] == hist[k];
      UnsubscribedForGood(past, i, k, id);
      assert hist[i] in past;
      if hist[n].Unsubscribed? {
        KeepIsFilter(Subscriptions(past), (y: nat) => y == hist[n].id);
      }
    }
  }

  lemma StaleUnregisterIsNoOp(run: Run, n: nat, i: nat, k: nat, id: nat)
    requires IsRun(run) && n < |run.states| && !run.states[n].freed && i < k < |run.states[n].hist|
    requires run.states[n].hist[i] == Subscribed(id) && run.states[n].hist[k] == Unsubscribed(id)
    ensures Drop(run.states[n].callbacks, id) == run.states[n].callbacks
  {
    hide MutexOk, ServerOk, BirthsOk, SendingOk, Legal, RequestsOk, Subscriptions;
    ReachableInv(run, n);
    UnsubscribedForGood(run.states[n].hist, i, k, id);
    DropAbsent(run.states[n].callbacks, id);
  }

  lemma {:induction false} DropAbsent(list: seq<nat>, x: nat)
    requires x !in list
    ensures Drop(list, x) == list
  {
    if list != [] {
      DropAbsent(list[..|list| - 1], x);
      assert list == list[..|list| - 1] + [list[|list| - 1]];
    }
  }
}
