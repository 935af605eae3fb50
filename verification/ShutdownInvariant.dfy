/** The inductive invariant of the shutdown protocol. */
module ShutdownInvariant {
  import opened Compaction
  import opened ShutdownProtocol

  // ------------------------------------------------------------- who is where

  /** Between a successful compare-and-swap on `master_mutex` and the store of 0. */
  predicate Holds(pc: PC) {
    pc.Body? || pc.LockingEvent? || pc.Creating? || pc.Marking? || pc.Signalling? || pc.Releasing?
    || pc.Broadcasting? || pc.BroadcastUnlock? || pc.WaitTest? || pc.WaitUnlock?
    || pc.FinalTest? || pc.FinalEvent? || pc.FinalClear? || pc.FinalUnlock?
  }

  /** A shutdown thread that has not announced its retirement. */
  predicate Serves(pc: PC) {
    pc.Awaiting? || pc.Testing? || pc.Flagging? || Sends(pc)
    || pc.FinalLock? || pc.FinalTest? || pc.FinalEvent? || pc.FinalClear?
  }

  /** Inside `send_block`, after the flag was set and before the lists are freed. */
  predicate Sends(pc: PC) {
    pc.BroadcastLock? || pc.Broadcasting? || HasCalled(pc)
  }

  /** ... and after the broadcast. */
  predicate HasCalled(pc: PC) {
    pc.BroadcastUnlock? || pc.WaitLock? || pc.WaitTest? || pc.WaitUnlock? || pc.Sleeping? || pc.Freeing?
  }

  predicate HasDrained(pc: PC) {
    pc == WaitUnlock(false) || pc == Freeing(false)
  }

  function PcOf(pcs: map<nat, PC>, t: nat): PC {
    if t in pcs then pcs[t] else Idle
  }

  // -------------------------------------------------------------- the invariant

  /** The lock word is 1 exactly when one thread holds the lock. */
  ghost predicate MutexOk(pcs: map<nat, PC>, master: bool) {
    && (forall t :: Holds(PcOf(pcs, t)) ==> master)
    && (forall t, u :: Holds(PcOf(pcs, t)) && Holds(PcOf(pcs, u)) ==> t == u)
    && (master ==> exists t :: Holds(PcOf(pcs, t)))
  }

  ghost predicate Nobody(pcs: map<nat, PC>) {
    forall t :: !Serves(PcOf(pcs, t))
  }

  /** At most one shutdown thread lives. Outside the window in which one is created,
      `started` says whether it does; inside, it cannot leave its wait. */
  ghost predicate ServerOk(pcs: map<nat, PC>, started: bool, event: bool) {
    && (forall t, u :: Serves(PcOf(pcs, t)) && Serves(PcOf(pcs, u)) ==> t == u)
    && (started ==> !Nobody(pcs))
    && (forall t :: Serves(PcOf(pcs, t)) && !started ==> PcOf(pcs, t).Awaiting?)
    && (!started && !Nobody(pcs) ==> event && exists u :: PcOf(pcs, u).Marking?)
    && (forall u :: PcOf(pcs, u).LockingEvent? || PcOf(pcs, u).Creating? ==> !started && Nobody(pcs))
    && (forall u :: PcOf(pcs, u).Creating? ==> event)
    && (forall u :: PcOf(pcs, u).Marking? ==> !started && !Nobody(pcs))
    && (forall u :: PcOf(pcs, u).FinalUnlock? ==> !started && Nobody(pcs))
  }

  /** Until they are freed the two lists are what the history says. */
  ghost predicate ListsOk(s: State) {
    && (!s.freed ==> s.threads == Members(s.hist) && s.callbacks == Subscriptions(s.hist))
    && Rising(Subscriptions(s.hist), s.lastId)
    && s.exitFlag == LastAsked(s.hist)
    && IdsUpTo(s.hist, s.lastId)
  }

  ghost predicate IdsUpTo(hist: seq<Event>, top: nat) {
    forall x: nat :: Subscribed(x) in hist ==> x <= top
  }

  ghost predicate BirthsOk(pcs: map<nat, PC>, hist: seq<Event>) {
    && (forall t :: Serves(PcOf(pcs, t)) ==> Born(t) in hist)
    && (forall t :: Born(t) in hist ==> t in pcs && (Serves(pcs[t]) || Retired(t) in hist))
  }

  /** An open event, or one about to be opened, was asked for since the waiting
      thread's birth. */
  ghost predicate RequestsOk(pcs: map<nat, PC>, event: bool, hist: seq<Event>) {
    forall t :: PcOf(pcs, t).Awaiting? && (!event || exists u :: PcOf(pcs, u).Signalling?) ==> AskedSince(hist, t)
  }

  /** What a shutdown thread at `pc` knows of the send in progress. */
  ghost predicate SendingAt(shutdown: bool, freed: bool, callbacks: seq<nat>, hist: seq<Event>, t: nat, pc: PC) {
    && (pc.Flagging? ==> !shutdown)
    && (Sends(pc) ==> shutdown && !freed && Flagged(t) in hist)
    && (pc.BroadcastLock? ==> Calls(hist) == [] && forall u :: Opened(u) !in hist)
    && (pc.Broadcasting? ==>
          Snapshot(hist) == callbacks && pc.i <= |callbacks| && Calls(hist) == callbacks[..pc.i])
    && (HasCalled(pc) ==> Calls(hist) == Snapshot(hist))
    && (pc.Broadcasting? || HasCalled(pc) ==> Opened(t) in hist)
    && (Sends(pc) ==> (HasDrained(pc) <==> Drained(t) in hist))
  }

  ghost predicate AllSending(shutdown: bool, freed: bool, callbacks: seq<nat>, hist: seq<Event>, pcs: map<nat, PC>) {
    forall t :: SendingAt(shutdown, freed, callbacks, hist, t, PcOf(pcs, t))
  }

  /** Nothing has been sent yet. */
  ghost predicate Unsent(hist: seq<Event>) {
    && Calls(hist) == [] && (forall u :: Flagged(u) !in hist) && (forall u :: Opened(u) !in hist)
    && (forall u :: Drained(u) !in hist)
  }

  ghost predicate SendingOk(s: State) {
    && (!s.shutdown ==> Unsent(s.hist) && !s.freed)
    && AllSending(s.shutdown, s.freed, s.callbacks, s.hist, s.pcs)
  }

  ghost predicate Inv(s: State) {
    && MutexOk(s.pcs, s.master) && ServerOk(s.pcs, s.started, s.event) && ListsOk(s)
    && BirthsOk(s.pcs, s.hist) && RequestsOk(s.pcs, s.event, s.hist) && SendingOk(s) && Legal(s.hist)
  }

  lemma InitialInv()
    ensures Inv(INITIAL)
  {
  }

  // ------------------------------------------------------- moves of one thread

  /** A thread enters the critical section only when the word is 0, setting it, and
      leaves it only by clearing it. */
  predicate MutexStep(from: PC, to: PC, master: bool, master': bool) {
    || (Holds(to) == Holds(from) && master' == master)
    || (Holds(to) && !master && master')
    || (Holds(from) && !Holds(to) && !master')
  }

  lemma MutexMove(pcs: map<nat, PC>, master: bool, t: nat, pc: PC, master': bool)
    requires MutexOk(pcs, master) && MutexStep(PcOf(pcs, t), pc, master, master')
    ensures MutexOk(pcs[t := pc], master')
  {
    var pcs' := pcs[t := pc];
    assert forall u :: u != t ==> PcOf(pcs', u) == PcOf(pcs, u);
    if Holds(pc) {
      assert Holds(PcOf(pcs', t));
    } else if master' {
      var h :| Holds(PcOf(pcs, h));
      assert Holds(PcOf(pcs', h));
    }
  }

  predicate Starts(pc: PC) {
    pc.LockingEvent? || pc.Creating? || pc.Marking?
  }

  /** A step that neither starts nor retires a shutdown thread and leaves the event
      alone; a shutdown thread leaves its wait only when the event is open. */
  lemma ServerMove(pcs: map<nat, PC>, started: bool, event: bool, t: nat, pc: PC)
    requires ServerOk(pcs, started, event)
    requires Serves(pc) == Serves(PcOf(pcs, t)) && !Starts(pc) && !Starts(PcOf(pcs, t))
    requires PcOf(pcs, t).Awaiting? && !pc.Awaiting? ==> !event
    requires pc.Awaiting? ==> PcOf(pcs, t).Awaiting?
    requires !pc.FinalUnlock?
    ensures ServerOk(pcs[t := pc], started, event)
  {
    var pcs' := pcs[t := pc];
    assert forall u :: u != t ==> PcOf(pcs', u) == PcOf(pcs, u);
    assert PcOf(pcs', t) == pc;
    SamePeople(pcs, t, pc);
    if u :| PcOf(pcs, u).Marking? {
      assert PcOf(pcs', u).Marking?;
    }
  }

  lemma SamePeople(pcs: map<nat, PC>, t: nat, pc: PC)
    requires Serves(pc) == Serves(PcOf(pcs, t))
    ensures Nobody(pcs[t := pc]) == Nobody(pcs)
  {
    var pcs' := pcs[t := pc];
    assert forall u :: u != t ==> PcOf(pcs', u) == PcOf(pcs, u);
    if x :| Serves(PcOf(pcs, x)) { assert Serves(PcOf(pcs', x)); }
    if x :| Serves(PcOf(pcs', x)) { assert Serves(PcOf(pcs, x)); }
  }

  lemma Extend(hist: seq<Event>, e: Event)
    ensures (hist + [e])[..|hist + [e]| - 1] == hist && (hist + [e])[|hist + [e]| - 1] == e
    ensures forall x :: x in hist + [e] <==> x in hist || x == e
  {
  }

  // -------------------------------------------------------------- plain steps

  /** A step that changes only the program counter and perhaps the lock word. */
  lemma PlainKept(s: State, t: nat, pc: PC, master: bool)
    requires Inv(s) && MutexStep(PcOf(s.pcs, t), pc, s.master, master)
    requires Serves(pc) == Serves(PcOf(s.pcs, t)) && !Starts(pc) && !Starts(PcOf(s.pcs, t))
    requires !pc.Awaiting? && !PcOf(s.pcs, t).Awaiting? && !pc.Signalling? && !pc.FinalUnlock?
    requires SendingAt(s.shutdown, s.freed, s.callbacks, s.hist, t, pc)
    ensures Inv(Go(s.(master := master), t, pc))
  {
    hide MutexOk, ServerOk, BirthsOk, AllSending, SendingAt, Unsent, Legal;
    var s' := Go(s.(master := master), t, pc);
    MutexMove(s.pcs, s.master, t, pc, master);
    ServerMove(s.pcs, s.started, s.event, t, pc);
    BirthsMove(s.pcs, s.hist, t, pc);
    SendingMove(s, t, pc);
    assert forall u :: u != t ==> PcOf(s'.pcs, u) == PcOf(s.pcs, u);
  }

  // ------------------------------------------------------ a longer history

  /** What a shutdown thread knows of a send stays true when an event that is not
      part of a broadcast is added; the list may change unless it is being read. */
  lemma SendingGrows(s: State, callbacks: seq<nat>, e: Event, t: nat, pc: PC)
    requires SendingAt(s.shutdown, s.freed, s.callbacks, s.hist, t, pc)
    requires !e.Called? && !e.Opened? && !e.Drained? && (pc.Broadcasting? ==> callbacks == s.callbacks)
    ensures SendingAt(s.shutdown, s.freed, callbacks, s.hist + [e], t, pc)
  {
    Extend(s.hist, e);
  }

  lemma UnsentGrows(hist: seq<Event>, e: Event)
    requires Unsent(hist) && !e.Called? && !e.Flagged? && !e.Opened? && !e.Drained?
    ensures Unsent(hist + [e])
  {
    Extend(hist, e);
  }

  lemma LegalGrows(hist: seq<Event>, e: Event)
    requires Legal(hist) && Allowed(hist, e)
    ensures Legal(hist + [e])
  {
    Extend(hist, e);
  }

  lemma RequestsGrow(pcs: map<nat, PC>, event: bool, hist: seq<Event>, e: Event, t: nat, pc: PC)
    requires RequestsOk(pcs, event, hist) && !e.Born?
    requires !pc.Awaiting? && (!pc.Signalling? || e.Requested?)
    ensures RequestsOk(pcs[t := pc], event, hist + [e])
  {
    Extend(hist, e);
    var pcs' := pcs[t := pc];
    assert forall u :: u != t ==> PcOf(pcs', u) == PcOf(pcs, u);
  }

  /** Events that are neither births nor retirements. */
  lemma BirthsGrow(pcs: map<nat, PC>, hist: seq<Event>, e: Event, t: nat, pc: PC)
    requires BirthsOk(pcs, hist) && !e.Born? && !e.Retired?
    requires Serves(pc) == Serves(PcOf(pcs, t))
    ensures BirthsOk(pcs[t := pc], hist + [e])
  {
    Extend(hist, e);
    var pcs' := pcs[t := pc];
    assert forall u :: u != t ==> PcOf(pcs', u) == PcOf(pcs, u);
  }

  // ------------------------------------------------------- client routines

  /** While a thread holds the lock nobody is in the window but itself. */
  lemma AloneInside(s: State, t: nat)
    requires MutexOk(s.pcs, s.master) && ServerOk(s.pcs, s.started, s.event)
    requires Holds(PcOf(s.pcs, t)) && !PcOf(s.pcs, t).Marking?
    ensures forall u :: u != t ==> !Holds(PcOf(s.pcs, u))
    ensures !s.started ==> Nobody(s.pcs)
  {
  }

  lemma StartingKept(s: State, t: nat)
    requires MutexOk(s.pcs, s.master) && ServerOk(s.pcs, s.started, s.event)
    requires PcOf(s.pcs, t).Body? && !s.started
    ensures ServerOk(s.pcs[t := LockingEvent], s.started, s.event)
  {
    var pcs' := s.pcs[t := LockingEvent];
    AloneInside(s, t);
    SamePeople(s.pcs, t, LockingEvent);
    assert forall u :: u != t ==> PcOf(pcs', u) == PcOf(s.pcs, u);
    assert Nobody(pcs');
  }

  lemma IdsGrow(hist: seq<Event>, top: nat, e: Event, top': nat)
    requires IdsUpTo(hist, top) && top <= top' && (e.Subscribed? ==> e.id == top' > top)
    ensures IdsUpTo(hist + [e], top')
    ensures e.Joined? || e.Left? || e.Subscribed? || e.Unsubscribed? ==> Allowed(hist, e)
  {
    Extend(hist, e);
  }

  /** A body that changes the lists and logs it. */
  lemma ListsStepKept(s: State, t: nat, threads: seq<nat>, callbacks: seq<nat>, lastId: nat, e: Event, pc: PC)
    requires Inv(s) && PcOf(s.pcs, t).Body? && (pc == Releasing || (pc == LockingEvent && !s.started))
    requires e.Joined? || e.Left? || e.Subscribed? || e.Unsubscribed?
    requires !s.freed ==> threads == Members(s.hist + [e]) && callbacks == Subscriptions(s.hist + [e])
    requires Rising(Subscriptions(s.hist + [e]), lastId)
    requires lastId >= s.lastId && (e.Subscribed? ==> e.id == lastId > s.lastId)
    ensures Inv(Go(Log(s.(threads := threads, callbacks := callbacks, lastId := lastId), e), t, pc))
  {
    hide MutexOk, ServerOk, RequestsOk, BirthsOk, AllSending, Members, Subscriptions, Rising, Unsent, Legal, Allowed,
      IdsUpTo;
    var s' := Go(Log(s.(threads := threads, callbacks := callbacks, lastId := lastId), e), t, pc);
    assert MutexOk(s'.pcs, s'.master) by { MutexMove(s.pcs, s.master, t, pc, s.master); }
    assert ServerOk(s'.pcs, s'.started, s'.event) by {
      if pc.Releasing? {
        ServerMove(s.pcs, s.started, s.event, t, pc);
      } else {
        StartingKept(s, t);
      }
    }
    assert BirthsOk(s'.pcs, s'.hist) by { BirthsGrow(s.pcs, s.hist, e, t, pc); }
    assert RequestsOk(s'.pcs, s'.event, s'.hist) by { RequestsGrow(s.pcs, s.event, s.hist, e, t, pc); }
    assert SendingOk(s') by {
      SendingUndisturbed(s, callbacks, e, t, pc);
      if !s.shutdown { UnsentGrows(s.hist, e); }
    }
    IdsGrow(s.hist, s.lastId, e, lastId);
    assert Legal(s'.hist) by { LegalGrows(s.hist, e); }
    assert ListsOk(s') by { Extend(s.hist, e); }
  }

  /** A client inside the lock, whatever it does to the lists, does not disturb what
      the shutdown thread knows. */
  lemma SendingUndisturbed(s: State, callbacks: seq<nat>, e: Event, t: nat, pc: PC)
    requires MutexOk(s.pcs, s.master) && SendingOk(s)
    requires Holds(PcOf(s.pcs, t)) && !Serves(PcOf(s.pcs, t)) && !Serves(pc)
    requires !e.Called? && !e.Opened? && !e.Drained?
    ensures AllSending(s.shutdown, s.freed, callbacks, s.hist + [e], s.pcs[t := pc])
  {
    hide SendingAt;
    var pcs', hist' := s.pcs[t := pc], s.hist + [e];
    forall u ensures SendingAt(s.shutdown, s.freed, callbacks, hist', u, PcOf(pcs', u)) {
      if u == t {
        NotSending(s.shutdown, s.freed, callbacks, hist', t, pc);
      } else {
        assert PcOf(pcs', u) == PcOf(s.pcs, u);
        SendingGrows(s, callbacks, e, u, PcOf(s.pcs, u));
      }
    }
  }

  lemma NotSending(shutdown: bool, freed: bool, callbacks: seq<nat>, hist: seq<Event>, t: nat, pc: PC)
    requires !Serves(pc)
    ensures SendingAt(shutdown, freed, callbacks, hist, t, pc)
  {
  }

  /** Ids keep rising when some are dropped or the next one is added. */
  lemma {:induction false} RisingDrop(ids: seq<nat>, x: nat, top: nat)
    requires Rising(ids, top)
    ensures Rising(Drop(ids, x), top)
  {
    if ids != [] {
      var rest := ids[..|ids| - 1];
      RisingDrop(rest, x, top);
      KeepIsFilter(rest, (y: nat) => y == x);
      forall i | 0 <= i < |Drop(rest, x)| ensures Drop(rest, x)[i] < ids[|ids| - 1] {
        var k := KeptAt(rest, (y: nat) => y == x, i);
      }
    }
  }

  lemma SubscribedStep(hist: seq<Event>, id: nat)
    ensures Members(hist + [Subscribed(id)]) == Members(hist)
    ensures Subscriptions(hist + [Subscribed(id)]) == Subscriptions(hist) + [id]
  {
    Extend(hist, Subscribed(id));
  }

  lemma RisingAdd(ids: seq<nat>, top: nat)
    requires Rising(ids, top)
    ensures Rising(ids + [top + 1], top + 1)
  {
  }

  lemma RegisterKept(s: State, t: nat, pid: nat)
    requires Inv(s) && PcOf(s.pcs, t).Body?
    ensures Inv(Register(s, t, pid))
  {
    hide MutexOk, ServerOk, RequestsOk, BirthsOk, SendingOk, Legal;
    Extend(s.hist, Joined(pid));
    ListsStepKept(s, t, Add(s.threads, pid), s.callbacks, s.lastId, Joined(pid),
                  if pid in s.threads || s.started then Releasing else LockingEvent);
  }

  lemma ConfirmKept(s: State, t: nat, pid: nat)
    requires Inv(s) && PcOf(s.pcs, t).Body?
    ensures Inv(Confirm(s, t, pid))
  {
    hide MutexOk, ServerOk, RequestsOk, BirthsOk, SendingOk, Legal;
    Extend(s.hist, Left(pid));
    ListsStepKept(s, t, Drop(s.threads, pid), s.callbacks, s.lastId, Left(pid), Releasing);
  }

  lemma SubscribeKept(s: State, t: nat)
    requires Inv(s) && PcOf(s.pcs, t).Body?
    ensures Inv(Subscribe(s, t))
  {
    hide MutexOk, ServerOk, RequestsOk, BirthsOk, SendingOk, Legal, Rising, Members, Subscriptions, LastAsked;
    SubscribedStep(s.hist, s.lastId + 1);
    RisingAdd(Subscriptions(s.hist), s.lastId);
    ListsStepKept(s, t, s.threads, s.callbacks + [s.lastId + 1], s.lastId + 1, Subscribed(s.lastId + 1), Releasing);
  }

  lemma UnsubscribeKept(s: State, t: nat, id: nat)
    requires Inv(s) && PcOf(s.pcs, t).Body?
    ensures Inv(Unsubscribe(s, t, id))
  {
    hide MutexOk, ServerOk, RequestsOk, BirthsOk, SendingOk, Legal;
    Extend(s.hist, Unsubscribed(id));
    RisingDrop(Subscriptions(s.hist), id, s.lastId);
    ListsStepKept(s, t, s.threads, Drop(s.callbacks, id), s.lastId, Unsubscribed(id), Releasing);
  }

  lemma BodyKept(s: State, t: nat, call: Call)
    requires Inv(s) && PcOf(s.pcs, t).Body?
    ensures Inv(RunBody(s, t, call))
  {
    hide Inv, Register, Confirm, Subscribe, Unsubscribe, Request;
    match call
    case RegisterThread(pid) => RegisterKept(s, t, pid);
    case ConfirmShutdown(pid) => ConfirmKept(s, t, pid);
    case RegisterCb => SubscribeKept(s, t);
    case UnregisterCb(id) => UnsubscribeKept(s, t, id);
    case SendAsync(exit) => RequestKept(s, t, exit);
  }

  /** From here on every shutdown thread that is waiting has been asked. */
  lemma RequestKept(s: State, t: nat, exit: bool)
    requires Inv(s) && PcOf(s.pcs, t).Body?
    ensures Inv(Request(s, t, exit))
  {
    hide MutexOk, ServerOk, BirthsOk, AllSending, Unsent, IdsUpTo, Legal;
    var s', e := Request(s, t, exit), Requested(exit);
    Extend(s.hist, e);
    assert MutexOk(s'.pcs, s'.master) by { MutexMove(s.pcs, s.master, t, Signalling, s.master); }
    assert ServerOk(s'.pcs, s'.started, s'.event) by { ServerMove(s.pcs, s.started, s.event, t, Signalling); }
    assert BirthsOk(s'.pcs, s'.hist) by { BirthsGrow(s.pcs, s.hist, e, t, Signalling); }
    assert SendingOk(s') by {
      SendingUndisturbed(s, s.callbacks, e, t, Signalling);
      if !s.shutdown { UnsentGrows(s.hist, e); }
    }
    assert Legal(s'.hist) by { LegalGrows(s.hist, e); }
    assert ListsOk(s') by { IdsGrow(s.hist, s.lastId, e, s.lastId); }
  }

  /** The word is cleared while the lock is held, so nobody is in the window: every
      thread that waits now may go, and was asked. */
  lemma OpenEventKept(s: State, t: nat)
    requires Inv(s) && PcOf(s.pcs, t).Signalling?
    ensures Inv(OpenEvent(s, t))
  {
    hide MutexOk, BirthsOk, SendingAt;
    var s' := OpenEvent(s, t);
    MutexMove(s.pcs, s.master, t, Releasing, s.master);
    ServerMove(s.pcs, s.started, s.event, t, Releasing);
    AloneInside(s, t);
    SamePeople(s.pcs, t, Releasing);
    assert forall u :: u != t ==> PcOf(s'.pcs, u) == PcOf(s.pcs, u);
    BirthsMove(s.pcs, s.hist, t, Releasing);
    NotSending(s.shutdown, s.freed, s.callbacks, s.hist, t, Releasing);
    SendingMove(s, t, Releasing);
  }

  lemma BirthsMove(pcs: map<nat, PC>, hist: seq<Event>, t: nat, pc: PC)
    requires BirthsOk(pcs, hist) && Serves(pc) == Serves(PcOf(pcs, t))
    ensures BirthsOk(pcs[t := pc], hist)
  {
    var pcs' := pcs[t := pc];
    assert forall u :: u != t ==> PcOf(pcs', u) == PcOf(pcs, u);
  }

  lemma SendingMove(s: State, t: nat, pc: PC)
    requires SendingOk(s) && SendingAt(s.shutdown, s.freed, s.callbacks, s.hist, t, pc)
    ensures AllSending(s.shutdown, s.freed, s.callbacks, s.hist, s.pcs[t := pc])
  {
    hide SendingAt;
    var pcs' := s.pcs[t := pc];
    assert forall u :: u != t ==> PcOf(pcs', u) == PcOf(s.pcs, u);
  }

  /** Before a shutdown thread is created. */
  lemma CloseForCreationKept(s: State, t: nat)
    requires Inv(s) && PcOf(s.pcs, t).LockingEvent?
    ensures Inv(CloseEvent(s, t, Creating))
  {
    hide MutexOk, BirthsOk, SendingAt;
    var s' := CloseEvent(s, t, Creating);
    MutexMove(s.pcs, s.master, t, Creating, s.master);
    AloneInside(s, t);
    SamePeople(s.pcs, t, Creating);
    assert forall u :: u != t ==> PcOf(s'.pcs, u) == PcOf(s.pcs, u);
    BirthsMove(s.pcs, s.hist, t, Creating);
    NotSending(s.shutdown, s.freed, s.callbacks, s.hist, t, Creating);
    SendingMove(s, t, Creating);
  }

  /** Before the shutdown thread retires. */
  lemma CloseForRetirementKept(s: State, t: nat)
    requires Inv(s) && PcOf(s.pcs, t).FinalEvent?
    ensures Inv(CloseEvent(s, t, FinalClear))
  {
    hide MutexOk, BirthsOk;
    var s' := CloseEvent(s, t, FinalClear);
    MutexMove(s.pcs, s.master, t, FinalClear, s.master);
    AloneInside(s, t);
    SamePeople(s.pcs, t, FinalClear);
    assert forall u :: u != t ==> PcOf(s'.pcs, u) == PcOf(s.pcs, u);
    BirthsMove(s.pcs, s.hist, t, FinalClear);
    SendingMove(s, t, FinalClear);
  }

  // ------------------------------------------------- creating a shutdown thread

  lemma BirthKept(pcs: map<nat, PC>, hist: seq<Event>, t: nat, child: nat)
    requires BirthsOk(pcs, hist) && PcOf(pcs, t).Creating? && child !in pcs
    ensures BirthsOk(pcs[child := Awaiting][t := Marking], hist + [Born(child)])
  {
    Extend(hist, Born(child));
    var pcs' := pcs[child := Awaiting];
    assert forall u :: u != child ==> PcOf(pcs', u) == PcOf(pcs, u);
    assert PcOf(pcs', child).Awaiting?;
    assert BirthsOk(pcs', hist + [Born(child)]);
    BirthsMove(pcs', hist + [Born(child)], t, Marking);
  }

  lemma CreatedServer(pcs: map<nat, PC>, master: bool, started: bool, event: bool, t: nat, child: nat)
    requires MutexOk(pcs, master) && ServerOk(pcs, started, event)
    requires PcOf(pcs, t).Creating? && child !in pcs
    ensures MutexOk(pcs[child := Awaiting][t := Marking], master)
    ensures ServerOk(pcs[child := Awaiting][t := Marking], started, event)
  {
    MutexMove(pcs, master, child, Awaiting, master);
    MutexMove(pcs[child := Awaiting], master, t, Marking, master);
    var pcs' := pcs[child := Awaiting][t := Marking];
    assert forall u :: u != t && u != child ==> PcOf(pcs', u) == PcOf(pcs, u);
    assert PcOf(pcs', t).Marking? && PcOf(pcs', child).Awaiting?;
    assert Serves(PcOf(pcs', child));
  }

  /** The event is closed, so the new thread waits; nobody else does. */
  lemma CreateKept(s: State, t: nat, child: nat)
    requires Inv(s) && PcOf(s.pcs, t).Creating? && child !in s.pcs
    ensures Inv(Create(s, t, child))
  {
    hide MutexOk, AllSending, BirthsOk, SendingAt, Members, Subscriptions, LastAsked, Rising, Unsent, IdsUpTo, Legal,
      Allowed;
    var s', e := Create(s, t, child), Born(child);
    Extend(s.hist, e);
    ListsUntouched(s.hist, e);
    if !s.shutdown { UnsentGrows(s.hist, e); }
    CreatedServer(s.pcs, s.master, s.started, s.event, t, child);
    BirthKept(s.pcs, s.hist, t, child);
    NotYetBorn(s, child);
    IdsGrow(s.hist, s.lastId, e, s.lastId);
    LegalGrows(s.hist, e);
    AloneInside(s, t);
    assert s.event && !s.started;
    assert forall u :: u != t && u != child ==> PcOf(s'.pcs, u) == PcOf(s.pcs, u);
    assert forall u :: !PcOf(s'.pcs, u).Signalling? by {
      assert forall u :: u != t ==> !Holds(PcOf(s.pcs, u));
    }
    SendingUndisturbed(s, s.callbacks, e, t, Marking);
    var pcs1 := s.pcs[t := Marking];
    forall u ensures SendingAt(s.shutdown, s.freed, s.callbacks, s'.hist, u, PcOf(s'.pcs, u)) {
      if u == child {
        WaitingKnowsNothing(s.shutdown, s.freed, s.callbacks, s'.hist, u);
      } else {
        SendingOf(s.shutdown, s.freed, s.callbacks, s'.hist, pcs1, u);
        assert PcOf(s'.pcs, u) == PcOf(pcs1, u);
      }
    }
    AllSendingIntro(s.shutdown, s.freed, s.callbacks, s'.hist, s'.pcs);
  }

  lemma SendingOf(shutdown: bool, freed: bool, callbacks: seq<nat>, hist: seq<Event>, pcs: map<nat, PC>, u: nat)
    requires AllSending(shutdown, freed, callbacks, hist, pcs)
    ensures SendingAt(shutdown, freed, callbacks, hist, u, PcOf(pcs, u))
  {
  }

  lemma AllSendingIntro(shutdown: bool, freed: bool, callbacks: seq<nat>, hist: seq<Event>, pcs: map<nat, PC>)
    requires forall u :: SendingAt(shutdown, freed, callbacks, hist, u, PcOf(pcs, u))
    ensures AllSending(shutdown, freed, callbacks, hist, pcs)
  {
  }

  lemma WaitingKnowsNothing(shutdown: bool, freed: bool, callbacks: seq<nat>, hist: seq<Event>, t: nat)
    ensures SendingAt(shutdown, freed, callbacks, hist, t, Awaiting)
  {
  }

  lemma NotYetBorn(s: State, child: nat)
    requires Inv(s) && child !in s.pcs
    requires Nobody(s.pcs)
    ensures Allowed(s.hist, Born(child))
  {
    hide MutexOk, SendingOk, RequestsOk, ListsOk, Legal;
    forall u | Born(u) in s.hist ensures Retired(u) in s.hist {
      assert !Serves(PcOf(s.pcs, u));
    }
  }

  lemma MarkKept(s: State, t: nat)
    requires Inv(s) && PcOf(s.pcs, t).Marking?
    ensures Inv(Mark(s, t))
  {
    hide BirthsOk, SendingAt;
    var s' := Mark(s, t);
    MutexMove(s.pcs, s.master, t, Releasing, s.master);
    SamePeople(s.pcs, t, Releasing);
    assert forall u :: u != t ==> PcOf(s'.pcs, u) == PcOf(s.pcs, u);
    assert forall u :: u != t ==> !Holds(PcOf(s.pcs, u));
    BirthsMove(s.pcs, s.hist, t, Releasing);
    NotSending(s.shutdown, s.freed, s.callbacks, s.hist, t, Releasing);
    SendingMove(s, t, Releasing);
  }

  // -------------------------------------------------- steps of the shutdown thread

  lemma ListsUntouched(hist: seq<Event>, e: Event)
    requires e.Woken? || e.Flagged? || e.Opened? || e.Called? || e.Drained? || e.Sent?
             || e.Retired? || e.ProcessExit? || e.Born?
    ensures Members(hist + [e]) == Members(hist) && Subscriptions(hist + [e]) == Subscriptions(hist)
    ensures LastAsked(hist + [e]) == LastAsked(hist)
  {
    Extend(hist, e);
  }

  /** An event that is not about the lists leaves them what the history says. */
  lemma ListsLogged(s: State, s': State, e: Event)
    requires ListsOk(s) && s'.hist == s.hist + [e] && s'.lastId == s.lastId && s'.exitFlag == s.exitFlag
    requires !s'.freed ==> !s.freed && s'.threads == s.threads && s'.callbacks == s.callbacks
    requires e.Woken? || e.Flagged? || e.Opened? || e.Called? || e.Drained? || e.Sent?
             || e.Retired? || e.ProcessExit? || e.Born?
    ensures ListsOk(s')
  {
    hide Members, Subscriptions, LastAsked, Rising, IdsUpTo;
    ListsUntouched(s.hist, e);
    IdsGrow(s.hist, s.lastId, e, s.lastId);
  }

  /** What the one shutdown thread knows after its step is all there is to know. */
  lemma SenderLogged(s: State, s': State, t: nat, pc: PC, e: Event)
    requires ServerOk(s.pcs, s.started, s.event) && SendingOk(s) && Serves(PcOf(s.pcs, t))
    requires s'.pcs == s.pcs[t := pc] && s'.hist == s.hist + [e]
    requires SendingAt(s'.shutdown, s'.freed, s'.callbacks, s'.hist, t, pc)
    requires !s'.shutdown ==> !s.shutdown && e.Woken? && !s'.freed
    ensures SendingOk(s')
  {
    hide ServerOk, AllSending, SendingAt, Unsent;
    OnlySender(s.pcs, s.started, s.event, t, pc, s'.shutdown, s'.freed, s'.callbacks, s'.hist);
    if !s'.shutdown { UnsentGrows(s.hist, e); }
  }

  /** A logged step of the one shutdown thread, which stays one. */
  lemma ServerStepKept(s: State, t: nat, pc: PC, master: bool, e: Event, shutdown: bool, freed: bool,
                       threads: seq<nat>, callbacks: seq<nat>)
    requires Inv(s) && Serves(PcOf(s.pcs, t)) && Serves(pc) && !pc.Awaiting?
    requires MutexStep(PcOf(s.pcs, t), pc, s.master, master)
    requires PcOf(s.pcs, t).Awaiting? ==> !s.event
    requires e.Woken? || e.Flagged? || e.Opened? || e.Called? || e.Drained? || e.Sent?
    requires Allowed(s.hist, e)
    requires !freed ==> !s.freed && threads == s.threads && callbacks == s.callbacks
    requires SendingAt(shutdown, freed, callbacks, s.hist + [e], t, pc)
    requires !shutdown ==> !s.shutdown && e.Woken? && !freed
    ensures Inv(Go(Log(s.(master := master, shutdown := shutdown, freed := freed, threads := threads,
                          callbacks := callbacks), e), t, pc))
  {
    hide MutexOk, ServerOk, BirthsOk, SendingOk, SendingAt, RequestsOk, ListsOk, Legal, Allowed;
    var s' := Go(Log(s.(master := master, shutdown := shutdown, freed := freed, threads := threads,
                        callbacks := callbacks), e), t, pc);
    assert s'.pcs == s.pcs[t := pc] && s'.hist == s.hist + [e] && s'.master == master;
    hide Moves, MutexStep;
    assert MutexOk(s'.pcs, s'.master) by { MutexMove(s.pcs, s.master, t, pc, master); }
    assert ServerOk(s'.pcs, s'.started, s'.event) by { ServerMove(s.pcs, s.started, s.event, t, pc); }
    assert BirthsOk(s'.pcs, s'.hist) by { BirthsGrow(s.pcs, s.hist, e, t, pc); }
    assert RequestsOk(s'.pcs, s'.event, s'.hist) by { RequestsGrow(s.pcs, s.event, s.hist, e, t, pc); }
    assert SendingOk(s') by { SenderLogged(s, s', t, pc, e); }
    assert Legal(s'.hist) by { LegalGrows(s.hist, e); }
    assert ListsOk(s') by { ListsLogged(s, s', e); }
  }

  /** What the one shutdown thread knows is all there is to know. */
  lemma OnlySender(pcs: map<nat, PC>, started: bool, event: bool, t: nat, pc: PC,
                   shutdown: bool, freed: bool, callbacks: seq<nat>, hist: seq<Event>)
    requires ServerOk(pcs, started, event) && Serves(PcOf(pcs, t))
    requires SendingAt(shutdown, freed, callbacks, hist, t, pc)
    ensures AllSending(shutdown, freed, callbacks, hist, pcs[t := pc])
  {
    hide SendingAt;
    var pcs' := pcs[t := pc];
    forall u ensures SendingAt(shutdown, freed, callbacks, hist, u, PcOf(pcs', u)) {
      if u != t {
        assert PcOf(pcs', u) == PcOf(pcs, u);
        NotSending(shutdown, freed, callbacks, hist, u, PcOf(pcs', u));
      }
    }
  }

  lemma WakeKept(s: State, t: nat)
    requires Inv(s) && PcOf(s.pcs, t).Awaiting? && !s.event
    ensures Inv(Wake(s, t))
  {
    hide MutexOk, ServerOk, ListsOk, AllSending, Legal;
    assert AskedSince(s.hist, t) && Born(t) in s.hist;
    ServerStepKept(s, t, Testing, s.master, Woken(t), s.shutdown, s.freed, s.threads, s.callbacks);
  }

  lemma SetFlagKept(s: State, t: nat)
    requires Inv(s) && PcOf(s.pcs, t).Flagging?
    ensures Inv(SetFlag(s, t))
  {
    hide MutexOk, ServerOk, ListsOk, BirthsOk, RequestsOk, Legal;
    Extend(s.hist, Flagged(t));
    SendingOf(s.shutdown, s.freed, s.callbacks, s.hist, s.pcs, t);
    ServerStepKept(s, t, BroadcastLock, s.master, Flagged(t), true, s.freed, s.threads, s.callbacks);
  }

  lemma StartBroadcastKept(s: State, t: nat)
    requires Inv(s) && PcOf(s.pcs, t).BroadcastLock? && !s.master
    ensures Inv(StartBroadcast(s, t))
  {
    hide MutexOk, ServerOk, BirthsOk, RequestsOk, Legal;
    Extend(s.hist, Opened(t));
    SendingOf(s.shutdown, s.freed, s.callbacks, s.hist, s.pcs, t);
    ServerStepKept(s, t, Broadcasting(0), true, Opened(t), s.shutdown, s.freed, s.threads, s.callbacks);
  }

  lemma CallOneKept(s: State, t: nat)
    requires Inv(s) && PcOf(s.pcs, t).Broadcasting? && PcOf(s.pcs, t).i < |s.callbacks|
    ensures Inv(CallOne(s, t, PcOf(s.pcs, t).i))
  {
    hide MutexOk, ServerOk, ListsOk, BirthsOk, RequestsOk, Legal;
    var i := PcOf(s.pcs, t).i;
    Extend(s.hist, Called(s.callbacks[i]));
    SendingOf(s.shutdown, s.freed, s.callbacks, s.hist, s.pcs, t);
    assert s.callbacks[..i + 1] == s.callbacks[..i] + [s.callbacks[i]];
    ServerStepKept(s, t, Broadcasting(i + 1), s.master, Called(s.callbacks[i]), s.shutdown, s.freed, s.threads,
                   s.callbacks);
  }

  lemma SeeDrainedKept(s: State, t: nat)
    requires Inv(s) && PcOf(s.pcs, t).WaitTest? && s.threads == []
    ensures Inv(SeeDrained(s, t))
  {
    hide MutexOk, ServerOk, BirthsOk, RequestsOk, Legal;
    Extend(s.hist, Drained(t));
    SendingOf(s.shutdown, s.freed, s.callbacks, s.hist, s.pcs, t);
    ServerStepKept(s, t, WaitUnlock(false), s.master, Drained(t), s.shutdown, s.freed, s.threads, s.callbacks);
  }

  lemma FreeKept(s: State, t: nat, timedOut: bool)
    requires Inv(s) && PcOf(s.pcs, t) == Freeing(timedOut)
    ensures Inv(Free(s, t, timedOut))
  {
    hide MutexOk, ServerOk, ListsOk, BirthsOk, RequestsOk, Legal;
    Extend(s.hist, Sent(t, timedOut));
    SendingOf(s.shutdown, s.freed, s.callbacks, s.hist, s.pcs, t);
    ServerStepKept(s, t, FinalLock, s.master, Sent(t, timedOut), s.shutdown, true, [], []);
  }

  lemma ExitKept(s: State, t: nat)
    requires Inv(s) && PcOf(s.pcs, t).FinalTest? && s.exitFlag
    ensures Inv(Exit(s, t))
  {
    hide MutexOk, ServerOk, SendingAt, AllSending, BirthsOk, RequestsOk, Members, Subscriptions, LastAsked, Rising,
      Unsent, IdsUpTo, Legal;
    var e := ProcessExit(t);
    IdsGrow(s.hist, s.lastId, e, s.lastId);
    LegalGrows(s.hist, e);
    if !s.shutdown { UnsentGrows(s.hist, e); }
    ListsUntouched(s.hist, e);
    assert s.pcs[t := FinalTest] == s.pcs;
    BirthsGrow(s.pcs, s.hist, e, t, FinalTest);
    RequestsGrow(s.pcs, s.event, s.hist, e, t, FinalTest);
    SendingOf(s.shutdown, s.freed, s.callbacks, s.hist, s.pcs, t);
    SendingGrows(s, s.callbacks, e, t, FinalTest);
    OnlySender(s.pcs, s.started, s.event, t, FinalTest, s.shutdown, s.freed, s.callbacks, s.hist + [e]);
  }

  lemma RetiredServer(pcs: map<nat, PC>, master: bool, started: bool, event: bool, t: nat)
    requires MutexOk(pcs, master) && ServerOk(pcs, started, event) && PcOf(pcs, t).FinalClear?
    ensures MutexOk(pcs[t := FinalUnlock], master)
    ensures ServerOk(pcs[t := FinalUnlock], false, event)
  {
    MutexMove(pcs, master, t, FinalUnlock, master);
    var pcs' := pcs[t := FinalUnlock];
    assert forall u :: u != t ==> PcOf(pcs', u) == PcOf(pcs, u);
    assert Nobody(pcs');
    assert forall u :: Starts(PcOf(pcs, u)) ==> Holds(PcOf(pcs, u));
  }

  lemma RetiredBirths(pcs: map<nat, PC>, hist: seq<Event>, t: nat)
    requires BirthsOk(pcs, hist) && PcOf(pcs, t).FinalClear?
    ensures BirthsOk(pcs[t := FinalUnlock], hist + [Retired(t)])
  {
    Extend(hist, Retired(t));
    var pcs' := pcs[t := FinalUnlock];
    assert forall u :: u != t ==> PcOf(pcs', u) == PcOf(pcs, u);
  }

  lemma RetireKept(s: State, t: nat)
    requires Inv(s) && PcOf(s.pcs, t).FinalClear?
    ensures Inv(Retire(s, t))
  {
    hide MutexOk, ServerOk, BirthsOk, SendingAt, RequestsOk, AllSending, Members, Subscriptions, LastAsked, Rising,
      Unsent, IdsUpTo, Legal;
    var e := Retired(t);
    IdsGrow(s.hist, s.lastId, e, s.lastId);
    LegalGrows(s.hist, e);
    if !s.shutdown { UnsentGrows(s.hist, e); }
    ListsUntouched(s.hist, e);
    RetiredServer(s.pcs, s.master, s.started, s.event, t);
    RetiredBirths(s.pcs, s.hist, t);
    RequestsGrow(s.pcs, s.event, s.hist, e, t, FinalUnlock);
    NotSending(s.shutdown, s.freed, s.callbacks, s.hist + [e], t, FinalUnlock);
    OnlySender(s.pcs, s.started, s.event, t, FinalUnlock, s.shutdown, s.freed, s.callbacks, s.hist + [e]);
  }

  // ------------------------------------------------------------------ all steps

  lemma LockedKept(s: State, t: nat)
    requires Inv(s) && t in s.pcs && WantsLock(s.pcs[t]) && !s.master
    ensures Inv(Locked(s, t))
  {
    hide MutexOk, ServerOk, ListsOk, BirthsOk, RequestsOk, Legal;
    assert PcOf(s.pcs, t) == s.pcs[t];
    SendingOf(s.shutdown, s.freed, s.callbacks, s.hist, s.pcs, t);
    match s.pcs[t]
    case Acquiring(call) => PlainKept(s, t, Body(call), true);
    case BroadcastLock => StartBroadcastKept(s, t);
    case WaitLock => PlainKept(s, t, WaitTest, true);
    case FinalLock => PlainKept(s, t, FinalTest, true);
  }

  predicate Unlocks(s: State, from: PC, to: PC) {
    || (from.Releasing? && to.Idle?)
    || (from.BroadcastUnlock? && to.WaitLock?)
    || (from == WaitUnlock(true) && to.Sleeping?)
    || (from == WaitUnlock(false) && to == Freeing(false))
    || (from.FinalUnlock? && to.Gone?)
  }

  /** Neither these stores of 0 nor these branches change what is known of a send. */
  lemma StillKnown(s: State, t: nat, from: PC, to: PC)
    requires SendingAt(s.shutdown, s.freed, s.callbacks, s.hist, t, from)
    requires Unlocks(s, from, to) || Branches(s, from, to)
    ensures SendingAt(s.shutdown, s.freed, s.callbacks, s.hist, t, to)
  {
    if from.Broadcasting? {
      assert s.callbacks[..from.i] == s.callbacks;
    }
  }

  lemma UnlockKept(s: State, t: nat, to: PC)
    requires Inv(s) && Unlocks(s, PcOf(s.pcs, t), to)
    ensures Inv(Leave(s, t, to))
  {
    hide MutexOk, ServerOk, ListsOk, BirthsOk, RequestsOk, Legal, Unsent, AllSending, SendingAt;
    SendingOf(s.shutdown, s.freed, s.callbacks, s.hist, s.pcs, t);
    StillKnown(s, t, PcOf(s.pcs, t), to);
    PlainKept(s, t, to, false);
  }

  /** A branch of the shutdown thread that does nothing else. */
  predicate Branches(s: State, from: PC, to: PC) {
    || (from.Testing? && to == if s.shutdown then FinalLock else Flagging)
    || (from.Broadcasting? && from.i >= |s.callbacks| && to.BroadcastUnlock?)
    || (from.WaitTest? && to == WaitUnlock(true))
    || (from.Sleeping? && (to == Freeing(true) || to.WaitLock?))
    || (from.FinalTest? && to.FinalEvent?)
  }

  lemma BranchKept(s: State, t: nat, to: PC)
    requires Inv(s) && Branches(s, PcOf(s.pcs, t), to)
    ensures Inv(Go(s, t, to))
  {
    hide MutexOk, ServerOk, ListsOk, BirthsOk, RequestsOk, Legal, Unsent, AllSending, SendingAt;
    SendingOf(s.shutdown, s.freed, s.callbacks, s.hist, s.pcs, t);
    StillKnown(s, t, PcOf(s.pcs, t), to);
    PlainKept(s, t, to, s.master);
  }

  lemma ClientKept(s: State, t: nat, child: nat, failed: bool)
    requires Inv(s) && Enabled(s, Next(t, child, failed))
    ensures Inv(RunClient(s, t, child, failed))
  {
    hide Inv, OpenEvent, CloseEvent, Create, Mark, Go, Leave;
    assert PcOf(s.pcs, t) == s.pcs[t];
    match s.pcs[t]
    case LockingEvent => CloseForCreationKept(s, t);
    case Creating =>
      ExitedKept(s);
      if !failed { CreateKept(s, t, child); }
    case Marking => MarkKept(s, t);
    case Signalling => OpenEventKept(s, t);
    case Releasing => UnlockKept(s, t, Idle);
    case _ =>
  }

  lemma SendKept(s: State, t: nat, failed: bool)
    requires Inv(s) && t in s.pcs
    ensures Inv(RunSend(s, t, failed))
  {
    hide Inv, SetFlag, CallOne, SeeDrained, Free, Go, Leave;
    assert PcOf(s.pcs, t) == s.pcs[t];
    match s.pcs[t]
    case Testing => BranchKept(s, t, if s.shutdown then FinalLock else Flagging);
    case Flagging => SetFlagKept(s, t);
    case Broadcasting(i) => if i < |s.callbacks| { CallOneKept(s, t); } else { BranchKept(s, t, BroadcastUnlock); }
    case BroadcastUnlock => UnlockKept(s, t, WaitLock);
    case WaitTest => if s.threads == [] { SeeDrainedKept(s, t); } else { BranchKept(s, t, WaitUnlock(true)); }
    case WaitUnlock(more) => UnlockKept(s, t, if more then Sleeping else Freeing(false));
    case Sleeping => BranchKept(s, t, if failed then Freeing(true) else WaitLock);
    case Freeing(timedOut) => FreeKept(s, t, timedOut);
    case _ =>
  }

  lemma ServerKept(s: State, t: nat)
    requires Inv(s) && t in s.pcs && (s.pcs[t].Awaiting? ==> !s.event)
    ensures Inv(RunServer(s, t))
  {
    hide Inv, CloseEvent, Wake, Exit, Retire, Go, Leave;
    assert PcOf(s.pcs, t) == s.pcs[t];
    match s.pcs[t]
    case Awaiting => WakeKept(s, t);
    case FinalTest => if s.exitFlag { ExitKept(s, t); } else { BranchKept(s, t, FinalEvent); }
    case FinalEvent => CloseForRetirementKept(s, t);
    case FinalClear => RetireKept(s, t);
    case FinalUnlock => UnlockKept(s, t, Gone);
    case _ =>
  }

  lemma NextKept(s: State, t: nat, child: nat, failed: bool)
    requires Inv(s) && Enabled(s, Next(t, child, failed))
    ensures Inv(RunNext(s, t, child, failed))
  {
    hide Inv, RunBody, RunClient, RunSend, RunServer;
    assert PcOf(s.pcs, t) == s.pcs[t];
    if s.pcs[t].Body? {
      BodyKept(s, t, s.pcs[t].call);
    } else {
      ClientKept(s, t, child, failed);
      ServerKept(s, t);
      SendKept(s, t, failed);
    }
  }

  lemma ExitedKept(s: State)
    requires Inv(s)
    ensures Inv(s.(exited := true))
  {
  }

  /** Every step of every thread keeps the invariant. */
  lemma StepKept(s: State, a: Action)
    requires Inv(s) && Enabled(s, a)
    ensures Inv(Apply(s, a))
  {
    hide Inv, Locked, RunNext;
    match a
    case Invoke(t, call) =>
      NotSending(s.shutdown, s.freed, s.callbacks, s.hist, t, Acquiring(call));
      PlainKept(s, t, Acquiring(call), s.master);
    case Lock(t) => LockedKept(s, t);
    case LockFails(t) =>
    case Next(t, child, failed) => NextKept(s, t, child, failed);
  }
}
