/** The state of one thread's condition system: the handler, restart and unwind
    stacks, what pushes and pops do to them, and the invariant that keeps the three
    in step. */
module ThreadState {
  import opened GrowableStack
  import opened SignalStacks
  import opened Ledger

  /** User code, as far as it uses the library; `Effect` is any other code. The
      `body` of a scope is the rest of its C block, an action is the code of the
      callback. */
  datatype Prog =
    | Skip
    | Effect(tag: string)
    | Then(first: Prog, second: Prog)
    | Branch(yes: Prog, no: Prog)
    | UnwindAction(action: Prog, body: Prog)
    | ExplicitUnwindAction(action: Prog, body: Prog)
    | AutopopHandler(hsig: SigType, handler: Handler, body: Prog)
    | ProvideRestart(rsig: SigType, restart: RestartType, body: Prog, onRestart: Prog)
    | AutopopRestart(rsig: SigType, restart: RestartType, onRestart: Prog, body: Prog)
    | PersistentHandler(slot: nat, hsig: SigType, handler: Handler)
    | RmHandler(slot: nat)
    | Send(sig: SigType, cleanup: bool)

  /** What can be seen of a run from outside: user code, handlers being called, and
      the clean-up function of the signal's data. */
  datatype Observation =
    | Did(tag: string)
    | Asked(handler: Handler, sig: SigType)
    | Cleaned

  /** What does not follow the scopes. `handlers` is the C stack; `vars` holds, per
      program variable, the persistent handler whose id it got. `choices(n)` is the way
      the n-th branch of the thread's life goes, whatever user state it tests.
      `persistent`, `trace`, `asked` and `decided` are history; `retries` is how often
      autopop scopes may still be restarted before the run is cut off. */
  datatype World = World(
    handlers: seq<HandlerEntry>,
    vars: map<nat, HandlerEntry>,
    persistent: set<HandlerEntry>,
    trace: seq<Observation>,
    asked: nat,
    choices: nat -> bool,
    decided: nat,
    retries: nat)

  /** What an entry of the unwind stack does when called. */
  datatype Op =
    | CallRmHandler(id: nat)
    | CallRmRestart(id: nat)
    | Call(body: Prog)

  /** What the scope of an entry pushed on the other two stacks. */
  datatype Pushed =
    | NoPush
    | PushedHandler(handler: HandlerEntry)
    | PushedRestart(restart: RestartEntry)

  /** `op` is the C entry. `inst` and `pushed` are history: no operation reads them. */
  datatype Entry = Entry(op: Op, inst: nat, pushed: Pushed)

  /** `restarts` and `unwind` are the other two C stacks; the rest is history. */
  datatype State = State(
    world: World,
    restarts: seq<RestartEntry>,
    unwind: seq<Entry>,
    log: seq<Event>,
    nextInst: nat,
    nextScope: nat)

  function InitialWorld(choices: nat -> bool, retries: nat): World {
    World([CATCHALL], map[], {CATCHALL}, [], 0, choices, 0, retries)
  }

  // ------------------------------------------------------- single operations

  function PushHandler(w: World, sig: SigType, h: Handler): World {
    if h.NullHandler? then w
    else w.(handlers := w.handlers + [HandlerEntry(sig, h, NextHandlerId(w.handlers))])
  }

  /** The id returned by the push. */
  function PushedId(w: World, h: Handler): nat {
    if h.NullHandler? then 0 else NextHandlerId(w.handlers)
  }

  function PushedEntry(w: World, sig: SigType, h: Handler): Pushed {
    if h.NullHandler? then NoPush
    else PushedHandler(HandlerEntry(sig, h, NextHandlerId(w.handlers)))
  }

  function PullHandler(w: World, id: nat): World {
    w.(handlers := RemoveHandler(w.handlers, id))
  }

  function KeepPersistent(w: World, slot: nat, sig: SigType, h: Handler): World {
    if h.NullHandler? then w.(vars := w.vars - {slot})
    else
      var e := HandlerEntry(sig, h, NextHandlerId(w.handlers));
      PushHandler(w, sig, h).(vars := w.vars[slot := e], persistent := w.persistent + {e})
  }

  /** Only the owner removes: a variable holding no live id is left alone. */
  function DropPersistent(w: World, slot: nat): World {
    if slot !in w.vars then w
    else PullHandler(w, w.vars[slot].id).(
           vars := w.vars - {slot}, persistent := w.persistent - {w.vars[slot]})
  }

  /** Calling these handlers one after the other; the catchall does not return. */
  function Visits(hs: seq<HandlerEntry>, sig: SigType, cleanup: bool): seq<Observation> {
    if hs == [] then []
    else Visits(Init(hs), sig, cleanup) + [Asked(Last(hs).handler, sig)]
         + if cleanup && !Last(hs).handler.Catchall? then [Cleaned] else []
  }

  function Visit(w: World, d: Dispatch, sig: SigType, cleanup: bool): World {
    w.(asked := w.asked + Returned(d), trace := w.trace + Visits(d.consulted, sig, cleanup))
  }

  function Observe(w: World, tag: string): World {
    w.(trace := w.trace + [Did(tag)])
  }

  /** How the next branch goes, and the world after it. */
  predicate Chosen(w: World) {
    w.choices(w.decided)
  }

  function Choose(w: World): World {
    w.(decided := w.decided + 1)
  }

  function Register(s: State, op: Op, pushed: Pushed): State {
    s.(unwind := s.unwind + [Entry(op, s.nextInst, pushed)],
       log := s.log + [Registered(s.nextInst)],
       nextInst := s.nextInst + 1)
  }

  /** The fill goes down by one; `e` says what happens to the instance. */
  function Pop(s: State, e: Event): State {
    s.(unwind := if s.unwind == [] then [] else Init(s.unwind), log := s.log + [e])
  }

  function OpenRestart(s: State, sig: SigType, restart: RestartType, point: Point): State {
    var e := RestartEntry(sig, restart, point, NextRestartId(s.restarts));
    Register(s.(restarts := s.restarts + [e]), CallRmRestart(e.id), PushedRestart(e))
  }

  function OpenHandler(s: State, sig: SigType, h: Handler): State {
    Register(s.(world := PushHandler(s.world, sig, h)),
             CallRmHandler(PushedId(s.world, h)), PushedEntry(s.world, sig, h))
  }

  // ------------------------------------------ what the operations do, outright

  /** A push goes on top, for this signal and with this handler, under the next id; a
      null handler pushes nothing and gets id 0. Nothing else of the world changes. */
  lemma PushedOnTop(w: World, sig: SigType, h: Handler)
    ensures var r := PushHandler(w, sig, h);
      && r == w.(handlers := r.handlers)
      && (h.NullHandler? ==> r.handlers == w.handlers && PushedId(w, h) == 0 && PushedEntry(w, sig, h) == NoPush)
      && (!h.NullHandler? ==>
            var e := HandlerEntry(sig, h, if w.handlers == [] then 1 else w.handlers[|w.handlers| - 1].id + 1);
            r.handlers == w.handlers + [e] && PushedId(w, h) == e.id && PushedEntry(w, sig, h) == PushedHandler(e))
  {
  }

  /** A persistent handler is pushed like any other, and its variable holds it. */
  lemma KeptOnTop(w: World, slot: nat, sig: SigType, h: Handler)
    ensures var r := KeepPersistent(w, slot, sig, h);
      && (forall x :: x != slot ==> (x in r.vars <==> x in w.vars) && (x in w.vars ==> r.vars[x] == w.vars[x]))
      && (h.NullHandler? ==> r.handlers == w.handlers && slot !in r.vars)
      && (!h.NullHandler? ==>
            && slot in r.vars
            && var e := r.vars[slot];
               r.handlers == w.handlers + [e] && e.sig == sig && e.handler == h && e in r.persistent)
      && r == w.(handlers := r.handlers, vars := r.vars, persistent := r.persistent)
  {
  }

  /** Removing a persistent handler takes exactly it out, wherever on the stack it is, and
      keeps the order of the rest; its variable is spent. */
  lemma DroppedExactly(w: World, u: seq<Entry>, slot: nat) returns (i: nat)
    requires HandlersOk(w, u) && slot in w.vars
    ensures var r := DropPersistent(w, slot);
      && i < |w.handlers| && w.handlers[i] == w.vars[slot]
      && r.handlers == w.handlers[..i] + w.handlers[i + 1..]
      && w.vars[slot] !in r.handlers
      && r.vars == w.vars - {slot} && r.persistent == w.persistent - {w.vars[slot]}
      && r == w.(handlers := r.handlers, vars := r.vars, persistent := r.persistent)
  {
    hide WellFormed, Scoped;
    var e := w.vars[slot];
    assert e in w.handlers;
    i :| 0 <= i < |w.handlers| && w.handlers[i] == e;
    assert HandlerId(w.handlers[0]) == 1 && HandlerId(w.handlers[i]) == e.id > 1;
    assert forall j :: i < j < |w.handlers| ==> HandlerId(w.handlers[i]) < HandlerId(w.handlers[j]);
    WithoutAt(w.handlers, HandlerId, e.id, i);
    RemovedByOwner(w, u, e);
  }

  /** A variable that holds no handler, or has been spent, is left alone. */
  lemma DroppedNothing(w: World, slot: nat)
    requires slot !in w.vars
    ensures DropPersistent(w, slot) == w
  {
  }

  /** What calling handlers leaves to see: without a clean-up function one question per
      handler, in order and about the signal sent, and nothing else; with one, a cleaning
      after each handler but the catchall. */
  lemma {:induction false} VisitsExact(hs: seq<HandlerEntry>, sig: SigType, cleanup: bool)
    requires forall i :: 0 <= i < |hs| - 1 ==> !hs[i].handler.Catchall?
    ensures var v := Visits(hs, sig, cleanup);
      && (!cleanup ==> |v| == |hs| && forall i :: 0 <= i < |hs| ==> v[i] == Asked(hs[i].handler, sig))
      && (cleanup ==>
            && |v| == (if hs != [] && hs[|hs| - 1].handler.Catchall? then 2 * |hs| - 1 else 2 * |hs|)
            && (forall i :: 0 <= i < |hs| ==> v[2 * i] == Asked(hs[i].handler, sig))
            && (forall i :: 0 <= i < |hs| && 2 * i + 1 < |v| ==> v[2 * i + 1] == Cleaned))
  {
    if hs != [] {
      VisitsExact(Init(hs), sig, cleanup);
      var before, n := Visits(Init(hs), sig, cleanup), |hs| - 1;
      assert n > 0 ==> !hs[n - 1].handler.Catchall?;
      assert |before| == if cleanup then 2 * n else n;
      assert forall i :: 0 <= i < n ==> Init(hs)[i] == hs[i];
    }
  }

  /** A signal's world is the world before with that trace added and the answers used. */
  lemma VisitedExactly(w: World, d: Dispatch, sig: SigType, cleanup: bool)
    ensures var r := Visit(w, d, sig, cleanup);
      && r.trace == w.trace + Visits(d.consulted, sig, cleanup)
      && r.asked == w.asked + (if d.verdict.Unhandled? && d.consulted != [] then |d.consulted| - 1 else |d.consulted|)
      && r == w.(asked := r.asked, trace := r.trace)
  {
  }

  // ---------------------------------------------------- the stacks stay in step

  /** The restarts and handlers pushed by the scopes of an unwind stack. */
  function RestartsOf(u: seq<Entry>): seq<RestartEntry> {
    if u == [] then []
    else if Last(u).pushed.PushedRestart? then RestartsOf(Init(u)) + [Last(u).pushed.restart]
    else RestartsOf(Init(u))
  }

  function Scoped(u: seq<Entry>): set<HandlerEntry> {
    if u == [] then {}
    else if Last(u).pushed.PushedHandler? then Scoped(Init(u)) + {Last(u).pushed.handler}
    else Scoped(Init(u))
  }

  function Insts(u: seq<Entry>): seq<nat> {
    if u == [] then [] else Insts(Init(u)) + [Last(u).inst]
  }

  /** The entry at index `at` undoes what its scope pushed, and a restart recorded
      the fill at which its entry was about to be pushed. */
  predicate EntryOk(e: Entry, at: nat) {
    match e.pushed
    case NoPush => e.op.Call? || e.op == CallRmHandler(0)
    case PushedHandler(h) => h.id > 0 && e.op == CallRmHandler(h.id)
    case PushedRestart(r) => e.op == CallRmRestart(r.id) && r.point.unwindTo == at
  }

  /** The three stacks are pushed and popped together: restart ids count the restarts
      below, and no handler is pushed twice. */
  predicate WellFormed(u: seq<Entry>) {
    u == [] || (
      && WellFormed(Init(u))
      && EntryOk(Last(u), |u| - 1)
      && (Last(u).pushed.PushedRestart? ==> Last(u).pushed.restart.id == |RestartsOf(Init(u))|)
      && (Last(u).pushed.PushedHandler? ==> Last(u).pushed.handler !in Scoped(Init(u))))
  }

  /** The handler stack holds the catchall at the bottom, the persistent handlers and
      those of open scopes, and nothing else. */
  ghost predicate HandlersOk(w: World, u: seq<Entry>) {
    && Increasing(w.handlers, HandlerId)
    && w.handlers != [] && w.handlers[0] == CATCHALL
    && (forall e :: e in w.handlers <==> e in w.persistent || e in Scoped(u))
    && w.persistent !! Scoped(u)
    && CATCHALL in w.persistent
    && (forall x :: x in w.vars ==> w.vars[x] in w.persistent && w.vars[x] != CATCHALL)
    && (forall x, y :: x in w.vars && y in w.vars && x != y ==> w.vars[x] != w.vars[y])
  }

  ghost predicate Inv(s: State) {
    && WellFormed(s.unwind)
    && s.restarts == RestartsOf(s.unwind)
    && HandlersOk(s.world, s.unwind)
    && Replay(s.log) == Open(Insts(s.unwind), s.nextInst)
  }

  /** The state `sig_init` leaves. */
  function InitialState(choices: nat -> bool, retries: nat): (s: State)
    ensures Inv(s)
  {
    State(InitialWorld(choices, retries), [], [], [], 0, 0)
  }

  // ------------------------------------------------- what keeps the invariant

  lemma PushEntry(u: seq<Entry>, e: Entry)
    ensures Init(u + [e]) == u && Last(u + [e]) == e
  {
  }

  lemma RegisterInv(s: State, a: Prog)
    requires Inv(s)
    ensures Inv(Register(s, Call(a), NoPush))
  {
    var t := Register(s, Call(a), NoPush);
    PushEntry(s.unwind, t.unwind[|s.unwind|]);
    ReplayAppend(s.log, Registered(s.nextInst));
    assert Scoped(t.unwind) == Scoped(s.unwind);
    assert RestartsOf(t.unwind) == RestartsOf(s.unwind);
  }

  lemma OpenRestartInv(s: State, sig: SigType, restart: RestartType, scope: nat)
    requires Inv(s)
    ensures Inv(OpenRestart(s, sig, restart, Point(scope, |s.unwind|)))
  {
    var t := OpenRestart(s, sig, restart, Point(scope, |s.unwind|));
    PushEntry(s.unwind, t.unwind[|s.unwind|]);
    ReplayAppend(s.log, Registered(s.nextInst));
    RestartIds(s.unwind);
  }

  /** Restart ids are recycled, and are always the positions on the restart stack. */
  lemma {:induction false} RestartIds(u: seq<Entry>)
    requires WellFormed(u)
    ensures forall i :: 0 <= i < |RestartsOf(u)| ==> RestartsOf(u)[i].id == i
  {
    if u != [] {
      RestartIds(Init(u));
    }
  }

  /** The id of a push is above all ids in use, so the entry is new. */
  lemma PushedIsNew(w: World, u: seq<Entry>, sig: SigType, h: Handler)
    requires HandlersOk(w, u) && !h.NullHandler?
    ensures var e := HandlerEntry(sig, h, NextHandlerId(w.handlers));
      && e.id > 1 && e !in w.handlers
      && Increasing(w.handlers + [e], HandlerId)
      && forall x :: x in w.handlers + [e] <==> x in w.handlers || x == e
  {
    var hs := w.handlers;
    assert forall i :: 0 <= i < |hs| ==> HandlerId(hs[i]) <= HandlerId(Last(hs));
    assert HandlerId(hs[0]) == 1;
  }

  lemma OpenHandlerInv(s: State, sig: SigType, h: Handler)
    requires Inv(s)
    ensures Inv(OpenHandler(s, sig, h))
  {
    var t := OpenHandler(s, sig, h);
    PushEntry(s.unwind, t.unwind[|s.unwind|]);
    ReplayAppend(s.log, Registered(s.nextInst));
    if !h.NullHandler? {
      PushedIsNew(s.world, s.unwind, sig, h);
    }
  }

  lemma HandlerOpened(s: State, sig: SigType, h: Handler)
    ensures var t := OpenHandler(s, sig, h);
      && t.unwind == s.unwind + [Last(t.unwind)] && Last(t.unwind).op == CallRmHandler(PushedId(s.world, h))
      && !Last(t.unwind).pushed.PushedRestart?
      && t.world == PushHandler(s.world, sig, h) && t.world.retries == s.world.retries
  {
  }

  lemma KeepPersistentOk(w: World, u: seq<Entry>, slot: nat, sig: SigType, h: Handler)
    requires HandlersOk(w, u)
    ensures HandlersOk(KeepPersistent(w, slot, sig, h), u)
  {
    if !h.NullHandler? {
      PushedIsNew(w, u, sig, h);
    }
  }

  /** Removing one live entry by its id leaves all the others. */
  lemma RemovedByOwner(w: World, u: seq<Entry>, e: HandlerEntry)
    requires HandlersOk(w, u) && e in w.handlers && e != CATCHALL
    ensures var hs := RemoveHandler(w.handlers, e.id);
      && Increasing(hs, HandlerId) && hs != [] && hs[0] == CATCHALL
      && forall x :: x in hs <==> x in w.handlers && x != e
  {
    var hs := w.handlers;
    var i :| 0 <= i < |hs| && hs[i] == e;
    assert HandlerId(hs[0]) == 1 && HandlerId(hs[i]) == e.id;
    assert e.id > 1;
    WithoutExact(hs, HandlerId, e.id);
    WithoutAt(hs, HandlerId, e.id, i) by {
      assert forall j :: i < j < |hs| ==> HandlerId(hs[j]) > HandlerId(hs[i]);
    }
    forall x | x in hs && HandlerId(x) == e.id ensures x == e {
      var j :| 0 <= j < |hs| && hs[j] == x;
      assert i == j;
    }
  }

  lemma DropPersistentOk(w: World, u: seq<Entry>, slot: nat)
    requires HandlersOk(w, u)
    ensures HandlersOk(DropPersistent(w, slot), u)
  {
    if slot in w.vars {
      RemovedByOwner(w, u, w.vars[slot]);
    }
  }

  lemma PopInv(s: State, ev: Event)
    requires Inv(s) && s.unwind != [] && Last(s.unwind).op.Call?
    requires ev == Ran(Last(s.unwind).inst) || ev == Dropped(Last(s.unwind).inst)
    ensures Inv(Pop(s, ev))
  {
    ReplayAppend(s.log, ev);
  }

  lemma PullScopedOk(w: World, u: seq<Entry>)
    requires HandlersOk(w, u) && WellFormed(u) && u != [] && Last(u).op.CallRmHandler?
    ensures HandlersOk(PullHandler(w, Last(u).op.id), Init(u))
  {
    if Last(u).pushed.PushedHandler? {
      var h := Last(u).pushed.handler;
      assert h in w.handlers && h !in Scoped(Init(u)) && h !in w.persistent;
      RemovedByOwner(w, u, h);
    }
  }

  lemma PopHandlerInv(s: State)
    requires Inv(s) && s.unwind != [] && Last(s.unwind).op.CallRmHandler?
    ensures var t := Pop(s, Ran(Last(s.unwind).inst));
      Inv(t.(world := PullHandler(t.world, Last(s.unwind).op.id)))
  {
    var e := Last(s.unwind);
    ReplayAppend(s.log, Ran(e.inst));
    PullScopedOk(s.world, s.unwind);
  }

  lemma PopRestartInv(s: State)
    requires Inv(s) && s.unwind != [] && Last(s.unwind).op.CallRmRestart?
    ensures var t := Pop(s, Ran(Last(s.unwind).inst));
      Inv(t.(restarts := RemoveRestart(t.restarts, Last(s.unwind).op.id)))
  {
    var e := Last(s.unwind);
    ReplayAppend(s.log, Ran(e.inst));
    var r := e.pushed.restart;
    assert s.restarts == RestartsOf(Init(s.unwind)) + [r];
    assert Init(s.restarts) == RestartsOf(Init(s.unwind));
    assert RestartId(Last(s.restarts)) == e.op.id;
  }

  /** A live restart's return point is an index of the unwind stack, and the entry
      there is the one that removes the restart. */
  lemma {:induction false} RestartTarget(u: seq<Entry>, r: RestartEntry)
    requires WellFormed(u) && r in RestartsOf(u)
    ensures r.point.unwindTo < |u|
    ensures u[r.point.unwindTo].op == CallRmRestart(r.id)
    ensures u[r.point.unwindTo].pushed == PushedRestart(r)
    decreases |u|
  {
    if !(Last(u).pushed.PushedRestart? && Last(u).pushed.restart == r) {
      RestartTarget(Init(u), r);
    }
  }
}
