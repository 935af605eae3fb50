/** The thread-shutdown signal as an interleaving of any number of threads, each step
    one access to the shared structure. Client threads register, confirm, subscribe,
    unsubscribe and request; a shutdown thread, started lazily by a registration,
    waits for a request, broadcasts it, waits for the clients and retires. */
module ShutdownProtocol {
  import opened Compaction

  /** What a client thread asks for. */
  datatype Call =
    | RegisterThread(pid: nat)
    | ConfirmShutdown(pid: nat)
    | RegisterCb
    | UnregisterCb(id: nat)
    | SendAsync(exit: bool)

  /** The next statement of a thread. */
  datatype PC =
    // a client
    | Idle
    | Acquiring(call: Call)
    | Body(call: Call)
    | LockingEvent
    | Creating
    | Marking
    | Signalling
    | Releasing
    // a shutdown thread: `_shutdown_thread` with `send_block` inside
    | Awaiting
    | Testing
    | Flagging
    | BroadcastLock
    | Broadcasting(i: nat)
    | BroadcastUnlock
    | WaitLock
    | WaitTest
    | WaitUnlock(more: bool)
    | Sleeping
    | Freeing(timedOut: bool)
    | FinalLock
    | FinalTest
    | FinalEvent
    | FinalClear
    | FinalUnlock
    | Gone

  /** What happened, for stating what may happen when. */
  datatype Event =
    | Joined(pid: nat)
    | Left(pid: nat)
    | Subscribed(id: nat)
    | Unsubscribed(id: nat)
    | Requested(exit: bool)
    | Born(server: nat)
    | Woken(server: nat)
    | Flagged(server: nat)
    | Opened(server: nat)
    | Called(id: nat)
    | Drained(server: nat)
    | Sent(server: nat, timedOut: bool)
    | Retired(server: nat)
    | ProcessExit(server: nat)

  /** The global structure, the program counters, and the history. A callback is
      known by its id. `event` is `shutdown_mutex`, true when its word is 1. */
  datatype State = State(
    shutdown: bool,
    callbacks: seq<nat>,
    lastId: nat,
    threads: seq<nat>,
    master: bool,
    event: bool,
    started: bool,
    exitFlag: bool,
    freed: bool,
    exited: bool,
    pcs: map<nat, PC>,
    hist: seq<Event>)

  const INITIAL: State :=
    State(false, [], 0, [], false, true, false, false, false, false, map[], [])

  /** `child` is the id of a thread about to be created; `failed` says that creating
      it failed, or that the sleep that ends was the last one before the timeout. */
  datatype Action =
    | Invoke(t: nat, call: Call)
    | Lock(t: nat)
    | LockFails(t: nat)
    | Next(t: nat, child: nat, failed: bool)

  predicate WantsLock(pc: PC) {
    pc.Acquiring? || pc.BroadcastLock? || pc.WaitLock? || pc.FinalLock?
  }

  /** The compare-and-swap may fail although the word is 0: it is the weak form. */
  predicate Enabled(s: State, a: Action) {
    && !s.exited
    && match a
       case Invoke(t, _) => t !in s.pcs || s.pcs[t].Idle?
       case Lock(t) => t in s.pcs && WantsLock(s.pcs[t]) && !s.master
       case LockFails(t) => t in s.pcs && WantsLock(s.pcs[t])
       case Next(t, child, _) =>
         && t in s.pcs && !WantsLock(s.pcs[t]) && !s.pcs[t].Idle? && !s.pcs[t].Gone?
         && (s.pcs[t].Awaiting? ==> !s.event)
         && (s.pcs[t].Creating? ==> child !in s.pcs)
  }

  /** From `s` to `r` only thread `t` goes on, to `pc`, which is not a wait for the event;
      the event is left alone, the history is extended, and only on the way to a
      broadcast is `shutdown` touched. */
  predicate Moves(s: State, r: State, t: nat, pc: PC) {
    && r.event == s.event && s.hist <= r.hist
    && !pc.Awaiting? && r.pcs == s.pcs[t := pc]
    && (!pc.BroadcastLock? ==> r.shutdown == s.shutdown)
  }

  function Go(s: State, t: nat, pc: PC): (r: State)
    ensures r.event == s.event && r.shutdown == s.shutdown && (!pc.Awaiting? ==> Moves(s, r, t, pc))
  {
    s.(pcs := s.pcs[t := pc])
  }

  function Log(s: State, e: Event): (r: State)
    ensures r.event == s.event && r.pcs == s.pcs && s.hist <= r.hist && r.shutdown == s.shutdown
  {
    s.(hist := s.hist + [e])
  }

  function Add(list: seq<nat>, x: nat): seq<nat> {
    if x in list then list else list + [x]
  }

  function Drop(list: seq<nat>, x: nat): seq<nat> {
    Keep(list, (y: nat) => y == x)
  }

  // ------------------------------------------------------------- taking the lock

  function Enter(s: State, t: nat, pc: PC): (r: State)
    ensures !pc.Awaiting? ==> Moves(s, r, t, pc)
  {
    Go(s.(master := true), t, pc)
  }

  function Leave(s: State, t: nat, pc: PC): (r: State)
    ensures !pc.Awaiting? ==> Moves(s, r, t, pc)
  {
    Go(s.(master := false), t, pc)
  }

  // ------------------------------------- client routines, between lock and unlock

  function Register(s: State, t: nat, pid: nat): (r: State)
    ensures Moves(s, r, t, if pid in s.threads || s.started then Releasing else LockingEvent)
  {
    Go(Log(s.(threads := Add(s.threads, pid)), Joined(pid)), t,
       if pid in s.threads || s.started then Releasing else LockingEvent)
  }

  function Confirm(s: State, t: nat, pid: nat): (r: State)
    ensures Moves(s, r, t, Releasing)
  {
    Go(Log(s.(threads := Drop(s.threads, pid)), Left(pid)), t, Releasing)
  }

  function Subscribe(s: State, t: nat): (r: State)
    ensures Moves(s, r, t, Releasing)
  {
    Go(Log(s.(callbacks := s.callbacks + [s.lastId + 1], lastId := s.lastId + 1), Subscribed(s.lastId + 1)),
       t, Releasing)
  }

  function Unsubscribe(s: State, t: nat, id: nat): (r: State)
    ensures Moves(s, r, t, Releasing)
  {
    Go(Log(s.(callbacks := Drop(s.callbacks, id)), Unsubscribed(id)), t, Releasing)
  }

  function Request(s: State, t: nat, exit: bool): (r: State)
    ensures Moves(s, r, t, Signalling)
  {
    Go(Log(s.(exitFlag := exit), Requested(exit)), t, Signalling)
  }

  function OpenEvent(s: State, t: nat): (r: State)
    ensures !r.event && r.pcs == s.pcs[t := Releasing] && r.hist == s.hist && r.shutdown == s.shutdown
  {
    Go(s.(event := false), t, Releasing)
  }

  /** A registration that found no shutdown thread closes the event, creates one and
      says so. */
  function CloseEvent(s: State, t: nat, pc: PC): (r: State)
    ensures r.event && r.pcs == s.pcs[t := pc] && r.hist == s.hist && r.shutdown == s.shutdown
  {
    Go(s.(event := true), t, pc)
  }

  function Create(s: State, t: nat, child: nat): (r: State)
    ensures r.event == s.event && r.pcs == s.pcs[child := Awaiting][t := Marking] && s.hist <= r.hist
    ensures r.shutdown == s.shutdown
  {
    Go(Log(Go(s, child, Awaiting), Born(child)), t, Marking)
  }

  function Mark(s: State, t: nat): (r: State)
    ensures Moves(s, r, t, Releasing)
  {
    Go(s.(started := true), t, Releasing)
  }

  // ------------------------------------------------------------ shutdown thread

  function Wake(s: State, t: nat): (r: State)
    ensures Moves(s, r, t, Testing)
  {
    Go(Log(s, Woken(t)), t, Testing)
  }

  function SetFlag(s: State, t: nat): (r: State)
    ensures Moves(s, r, t, BroadcastLock)
  {
    Go(Log(s.(shutdown := true), Flagged(t)), t, BroadcastLock)
  }

  function StartBroadcast(s: State, t: nat): (r: State)
    ensures Moves(s, r, t, Broadcasting(0))
  {
    Enter(Log(s, Opened(t)), t, Broadcasting(0))
  }

  function CallOne(s: State, t: nat, i: nat): (r: State)
    requires i < |s.callbacks|
    ensures Moves(s, r, t, Broadcasting(i + 1))
  {
    Go(Log(s, Called(s.callbacks[i])), t, Broadcasting(i + 1))
  }

  function SeeDrained(s: State, t: nat): (r: State)
    ensures Moves(s, r, t, WaitUnlock(false))
  {
    Go(Log(s, Drained(t)), t, WaitUnlock(false))
  }

  /** Outside the lock. */
  function Free(s: State, t: nat, timedOut: bool): (r: State)
    ensures Moves(s, r, t, FinalLock)
    ensures Sent(t, timedOut) in r.hist
  {
    Go(Log(s.(callbacks := [], threads := [], freed := true), Sent(t, timedOut)), t, FinalLock)
  }

  function Exit(s: State, t: nat): (r: State)
    ensures r.event == s.event && r.pcs == s.pcs && s.hist <= r.hist && r.shutdown == s.shutdown
  {
    Log(s.(exited := true), ProcessExit(t))
  }

  function Retire(s: State, t: nat): (r: State)
    ensures Moves(s, r, t, FinalUnlock)
  {
    Go(Log(s.(started := false), Retired(t)), t, FinalUnlock)
  }

  // ------------------------------------------------------------------- one step

  function Locked(s: State, t: nat): State
    requires t in s.pcs && WantsLock(s.pcs[t])
  {
    match s.pcs[t]
    case Acquiring(call) => Enter(s, t, Body(call))
    case BroadcastLock => StartBroadcast(s, t)
    case WaitLock => Enter(s, t, WaitTest)
    case FinalLock => Enter(s, t, FinalTest)
  }

  function RunBody(s: State, t: nat, call: Call): State
  {
    match call
    case RegisterThread(pid) => Register(s, t, pid)
    case ConfirmShutdown(pid) => Confirm(s, t, pid)
    case RegisterCb => Subscribe(s, t)
    case UnregisterCb(id) => Unsubscribe(s, t, id)
    case SendAsync(exit) => Request(s, t, exit)
  }

  function RunClient(s: State, t: nat, child: nat, failed: bool): State
    requires Enabled(s, Next(t, child, failed))
  {
    match s.pcs[t]
    case LockingEvent => CloseEvent(s, t, Creating)
    case Creating => if failed then s.(exited := true) else Create(s, t, child)
    case Marking => Mark(s, t)
    case Signalling => OpenEvent(s, t)
    case Releasing => Leave(s, t, Idle)
    case _ => s
  }

  /** `send_block`, called by the shutdown thread. */
  function RunSend(s: State, t: nat, failed: bool): State
    requires t in s.pcs
  {
    match s.pcs[t]
    case Testing => Go(s, t, if s.shutdown then FinalLock else Flagging)
    case Flagging => SetFlag(s, t)
    case Broadcasting(i) => if i < |s.callbacks| then CallOne(s, t, i) else Go(s, t, BroadcastUnlock)
    case BroadcastUnlock => Leave(s, t, WaitLock)
    case WaitTest => if s.threads == [] then SeeDrained(s, t) else Go(s, t, WaitUnlock(true))
    case WaitUnlock(more) => Leave(s, t, if more then Sleeping else Freeing(false))
    case Sleeping => Go(s, t, if failed then Freeing(true) else WaitLock)
    case Freeing(timedOut) => Free(s, t, timedOut)
    case _ => s
  }

  /** The rest of `_shutdown_thread`. */
  function RunServer(s: State, t: nat): State
    requires t in s.pcs
  {
    match s.pcs[t]
    case Awaiting => Wake(s, t)
    case FinalTest => if s.exitFlag then Exit(s, t) else Go(s, t, FinalEvent)
    case FinalEvent => CloseEvent(s, t, FinalClear)
    case FinalClear => Retire(s, t)
    case FinalUnlock => Leave(s, t, Gone)
    case _ => s
  }

  function RunNext(s: State, t: nat, child: nat, failed: bool): State
    requires Enabled(s, Next(t, child, failed))
  {
    var pc := s.pcs[t];
    if pc.Body? then RunBody(s, t, pc.call)
    else if pc.LockingEvent? || pc.Creating? || pc.Marking? || pc.Signalling? || pc.Releasing? then
      RunClient(s, t, child, failed)
    else if pc.Awaiting? || pc.FinalTest? || pc.FinalEvent? || pc.FinalClear? || pc.FinalUnlock? then RunServer(s, t)
    else RunSend(s, t, failed)
  }

  function Apply(s: State, a: Action): State
    requires Enabled(s, a)
  {
    match a
    case Invoke(t, call) => Go(s, t, Acquiring(call))
    case Lock(t) => Locked(s, t)
    case LockFails(t) => s
    case Next(t, child, failed) => RunNext(s, t, child, failed)
  }

  // ----------------------------------------------------- meaning of a history

  /** The threads registered and not since confirmed, in the order of registration. */
  function Members(hist: seq<Event>): seq<nat> {
    if hist == [] then []
    else
      var past := Members(hist[..|hist| - 1]);
      match hist[|hist| - 1]
      case Joined(pid) => Add(past, pid)
      case Left(pid) => Drop(past, pid)
      case _ => past
  }

  function Subscriptions(hist: seq<Event>): seq<nat> {
    if hist == [] then []
    else
      var past := Subscriptions(hist[..|hist| - 1]);
      match hist[|hist| - 1]
      case Subscribed(id) => past + [id]
      case Unsubscribed(id) => Drop(past, id)
      case _ => past
  }

  function Calls(hist: seq<Event>): seq<nat> {
    if hist == [] then []
    else Calls(hist[..|hist| - 1]) + if hist[|hist| - 1].Called? then [hist[|hist| - 1].id] else []
  }

  /** What the latest request asked for; false when there was none. */
  function LastAsked(hist: seq<Event>): bool {
    if hist == [] then false
    else if hist[|hist| - 1].Requested? then hist[|hist| - 1].exit
    else LastAsked(hist[..|hist| - 1])
  }

  /** There was a request after the birth of `t`. */
  predicate AskedSince(hist: seq<Event>, t: nat) {
    hist != [] && hist[|hist| - 1] != Born(t)
    && (hist[|hist| - 1].Requested? || AskedSince(hist[..|hist| - 1], t))
  }

  /** The subscriptions when a broadcast last took the lock. */
  function Snapshot(hist: seq<Event>): seq<nat> {
    if hist == [] then []
    else if hist[|hist| - 1].Opened? then Subscriptions(hist[..|hist| - 1])
    else Snapshot(hist[..|hist| - 1])
  }

  ghost predicate Rising(ids: seq<nat>, top: nat) {
    && (forall i :: 0 <= i < |ids| ==> ids[i] <= top)
    && (forall i, j :: 0 <= i < j < |ids| ==> ids[i] < ids[j])
  }

  /** When event `e` may follow `past`. */
  ghost predicate Allowed(past: seq<Event>, e: Event) {
    match e
    case Subscribed(id) => forall x: nat :: Subscribed(x) in past ==> x < id
    case Born(t) => Born(t) !in past && forall u :: Born(u) in past ==> Retired(u) in past
    case Woken(t) => Born(t) in past && AskedSince(past, t)
    case Flagged(t) => forall u :: Flagged(u) !in past
    case Opened(t) => Flagged(t) in past && (forall u :: Opened(u) !in past) && Calls(past) == []
    case Called(id) => Calls(past) + [id] <= Snapshot(past)
    case Drained(t) => Flagged(t) in past && Members(past) == []
    case Sent(t, timedOut) =>
      && Flagged(t) in past && Opened(t) in past
      && Calls(past) == Snapshot(past)
      && (!timedOut <==> Drained(t) in past)
    case ProcessExit(t) => LastAsked(past)
    case _ => true
  }

  ghost predicate Legal(hist: seq<Event>) {
    hist == [] || (Legal(hist[..|hist| - 1]) && Allowed(hist[..|hist| - 1], hist[|hist| - 1]))
  }
}
