/** The history of unwind actions: which instance was registered, which was run,
    which was dropped at the normal end of its scope. */
module Ledger {
  import opened GrowableStack

  datatype Event =
    | Registered(inst: nat)
    | Ran(inst: nat)
    | Dropped(inst: nat)

  /** Instances registered and not settled yet, bottom first, and the number the
      next registration gets. */
  datatype Balance =
    | Open(live: seq<nat>, next: nat)
    | Broken

  /** Settling is only right for the instance registered last among the live ones. */
  function Post(b: Balance, e: Event): Balance {
    if b.Broken? then Broken
    else match e
      case Registered(i) => if i == b.next then Open(b.live + [i], i + 1) else Broken
      case Ran(i) => Settle(b, i)
      case Dropped(i) => Settle(b, i)
  }

  function Settle(b: Balance, i: nat): Balance
    requires b.Open?
  {
    if b.live != [] && Last(b.live) == i then Open(Init(b.live), b.next) else Broken
  }

  function Replay(log: seq<Event>): Balance {
    if log == [] then Open([], 0) else Post(Replay(Init(log)), Last(log))
  }

  lemma ReplayAppend(log: seq<Event>, e: Event)
    ensures Replay(log + [e]) == Post(Replay(log), e)
  {
    assert Init(log + [e]) == log;
  }

  /** The number of times instance `i` was run or dropped. */
  function Settled(log: seq<Event>, i: nat): nat {
    if log == [] then 0
    else Settled(Init(log), i) + (if !Last(log).Registered? && Last(log).inst == i then 1 else 0)
  }

  function RegisteredTimes(log: seq<Event>, i: nat): nat {
    if log == [] then 0
    else RegisteredTimes(Init(log), i) + (if Last(log) == Registered(i) then 1 else 0)
  }

  /** Live instances are pairwise distinct, below the next number, and in the order
      of their registration. */
  ghost predicate Ascending(b: Balance) {
    b.Open? ==>
      && (forall j :: 0 <= j < |b.live| ==> b.live[j] < b.next)
      && (forall j, k :: 0 <= j < k < |b.live| ==> b.live[j] < b.live[k])
  }

  lemma {:induction false} ReplayAscending(log: seq<Event>)
    ensures Ascending(Replay(log))
  {
    if log != [] {
      ReplayAscending(Init(log));
    }
  }

  /** Conservation, and exactly once: every number below `next` was registered once
      and is either still live or was run or dropped exactly once; no other number
      occurs at all. */
  lemma {:induction false} ExactlyOnce(log: seq<Event>, i: nat)
    requires Replay(log).Open?
    ensures var b := Replay(log);
      && RegisteredTimes(log, i) == (if i < b.next then 1 else 0)
      && Settled(log, i) == (if i < b.next && i !in b.live then 1 else 0)
  {
    if log != [] {
      var before := Replay(Init(log));
      ExactlyOnce(Init(log), i);
      ReplayAscending(Init(log));
      var e := Last(log);
      if e.Registered? {
        assert forall x :: x in before.live + [e.inst] <==> x in before.live || x == e.inst;
      } else {
        assert before.live == Init(before.live) + [e.inst];
        assert forall x :: x in before.live <==> x in Init(before.live) || x == e.inst;
        assert e.inst !in Init(before.live);
      }
    }
  }

  lemma {:induction false} NumberingOnlyGrows(log: seq<Event>, n: nat)
    requires n <= |log| && Replay(log).Open?
    ensures Replay(log[..n]).Open? && Replay(log[..n]).next <= Replay(log).next
    decreases |log|
  {
    if n == |log| {
      assert log[..n] == log;
    } else {
      NumberingOnlyGrows(Init(log), n);
      assert Init(log)[..n] == log[..n];
    }
  }

  /** Last in, first out over the whole history: when `older` is settled at position
      `c`, every instance registered after it and before `c` was already settled. */
  lemma {:induction false} ReverseOrder(log: seq<Event>, c: nat, older: nat, newer: nat)
    requires c < |log| && Replay(log).Open?
    requires !log[c].Registered? && log[c].inst == older
    requires older < newer && RegisteredTimes(log[..c], newer) == 1
    ensures Settled(log[..c], newer) == 1
  {
    NumberingOnlyGrows(log, c);
    NumberingOnlyGrows(log, c + 1);
    assert Init(log[..c + 1]) == log[..c] && Last(log[..c + 1]) == log[c];
    ExactlyOnce(log[..c], newer);
    ReplayAscending(log[..c]);
  }
}
