/** The shared structure of the thread-shutdown signal and the routines that edit it
    under `master_mutex`, in place. Each routine is tied to the step of the protocol it
    implements. */
module ShutdownSignal {
  import opened Compaction
  import opened ShutdownProtocol

  const FIRST_CAPACITY: nat := 8

  /** No array, or 8 slots doubled any number of times. */
  predicate IsListCapacity(n: nat) {
    n == 0 || n == FIRST_CAPACITY || (n > FIRST_CAPACITY && n % 2 == 0 && IsListCapacity(n / 2))
  }

  /** A heap array that is allocated by the first insertion and freed when it empties. */
  class GrowingList<T(0)> {
    var data: array?<T>
    var alloc: nat
    var fill: nat

    ghost predicate Valid()
      reads this
    {
      && fill <= alloc && IsListCapacity(alloc)
      && (data == null <==> alloc == 0)
      && (data != null ==> data.Length == alloc)
    }

    ghost function Contents(): seq<T>
      reads this, data
      requires Valid()
    {
      if data == null then [] else data[..fill]
    }

    constructor ()
      ensures Valid() && Contents() == [] && data == null
    {
      data, alloc, fill := null, 0, 0;
    }

    method Append(x: T)
      requires Valid()
      modifies this, data
      ensures Valid() && (data == old(data) || fresh(data))
      ensures Contents() == old(Contents()) + [x]
    {
      if fill >= alloc {
        var bigger := new T[if alloc == 0 then FIRST_CAPACITY else alloc * 2];
        if data != null {
          for i := 0 to fill
            invariant unchanged(this) && unchanged(data)
            invariant forall j :: 0 <= j < i ==> bigger[j] == data[j]
          {
            bigger[i] := data[i];
          }
        }
        assert IsListCapacity(bigger.Length);
        assert bigger[..fill] == Contents();
        alloc := bigger.Length;
        data := bigger;
      }
      data[fill] := x;
      fill := fill + 1;
    }

    /** Shifts everything `gone` out, and gives the array back if nothing is left. */
    method Remove(gone: T -> bool)
      requires Valid()
      modifies this, data
      ensures Valid() && (data == old(data) || data == null)
      ensures Contents() == Keep(old(Contents()), gone)
      ensures Contents() == [] <==> data == null
    {
      if data != null {
        var shift := Compact(data, fill, gone);
        fill := fill - shift;
      }
      if fill == 0 {
        data, alloc := null, 0;
      }
    }
  }

  datatype Cb = Cb(id: nat, cb: nat, ud: nat)

  function HasId(id: nat): Cb -> bool {
    (c: Cb) => c.id == id
  }

  function Ids(cbs: seq<Cb>): seq<nat> {
    if cbs == [] then [] else Ids(cbs[..|cbs| - 1]) + [cbs[|cbs| - 1].id]
  }

  lemma IdsAppend(cbs: seq<Cb>, c: Cb)
    ensures Ids(cbs + [c]) == Ids(cbs) + [c.id]
  {
    assert (cbs + [c])[..|cbs|] == cbs;
  }

  /** Removing callbacks by id is removing ids. */
  lemma {:induction false} IdsDrop(cbs: seq<Cb>, id: nat)
    ensures Ids(Keep(cbs, HasId(id))) == Drop(Ids(cbs), id)
  {
    if cbs != [] {
      var rest, last := cbs[..|cbs| - 1], cbs[|cbs| - 1];
      IdsDrop(rest, id);
      assert Ids(cbs) == Ids(rest) + [last.id] && Ids(cbs)[..|Ids(cbs)| - 1] == Ids(rest);
      assert Drop(Ids(cbs), id) == Drop(Ids(rest), id) + if last.id == id then [] else [last.id];
      if last.id == id {
        assert Keep(cbs, HasId(id)) == Keep(rest, HasId(id));
      } else {
        IdsAppend(Keep(rest, HasId(id)), last);
      }
    }
  }

  /** What a protocol state says of the structure. */
  datatype Shared = Shared(shutdown: bool, callbacks: seq<nat>, lastId: nat, threads: seq<nat>,
                           event: bool, started: bool, exitFlag: bool)

  function SharedOf(s: State): Shared {
    Shared(s.shutdown, s.callbacks, s.lastId, s.threads, s.event, s.started, s.exitFlag)
  }

  /** A registration, with the creation of a shutdown thread if it found none. */
  function WholeRegister(s: State, t: nat, pid: nat, child: nat): State {
    var r := Register(s, t, pid);
    if pid in s.threads || s.started then r else Mark(Create(CloseEvent(r, t, Creating), t, child), t)
  }

  lemma RegisterShared(s: State, t: nat, pid: nat, child: nat)
    ensures SharedOf(WholeRegister(s, t, pid, child))
         == if pid in s.threads then SharedOf(s)
            else SharedOf(s).(threads := s.threads + [pid], started := true,
                              event := if s.started then s.event else true)
  {
    assert SharedOf(Register(s, t, pid)) == SharedOf(s).(threads := Add(s.threads, pid));
  }

  lemma SubscribeShared(s: State, t: nat)
    ensures SharedOf(Subscribe(s, t)) == SharedOf(s).(callbacks := s.callbacks + [s.lastId + 1], lastId := s.lastId + 1)
  {
  }

  lemma DropShared(s: State, t: nat, x: nat)
    ensures SharedOf(Confirm(s, t, x)) == SharedOf(s).(threads := Drop(s.threads, x))
    ensures SharedOf(Unsubscribe(s, t, x)) == SharedOf(s).(callbacks := Drop(s.callbacks, x))
  {
    hide Drop;
  }

  lemma RequestShared(s: State, t: nat, exit: bool)
    ensures SharedOf(OpenEvent(Request(s, t, exit), t)) == SharedOf(s).(exitFlag := exit, event := false)
  {
    assert SharedOf(Request(s, t, exit)) == SharedOf(s).(exitFlag := exit);
  }

  class Signal {
    var shutdown: bool
    const threads: GrowingList<nat>
    const callbacks: GrowingList<Cb>
    var callbacksLastInsertId: nat
    var shutdownMutex: bool
    var shutdownThreadStarted: bool
    var shutdownThreadExit: bool

    ghost predicate Valid()
      reads this, threads, callbacks
    {
      threads.Valid() && callbacks.Valid()
    }

    ghost function View(): Shared
      reads this, threads, callbacks, threads.data, callbacks.data
      requires Valid()
    {
      Shared(shutdown, Ids(callbacks.Contents()), callbacksLastInsertId, threads.Contents(),
             shutdownMutex, shutdownThreadStarted, shutdownThreadExit)
    }

    /** The structure is what the protocol state says it is. */
    ghost predicate Shows(s: State)
      reads this, threads, callbacks, threads.data, callbacks.data
      requires Valid()
    {
      View() == SharedOf(s)
    }

    constructor ()
      ensures Valid() && Shows(INITIAL)
      ensures fresh(threads) && fresh(callbacks)
    {
      shutdown, callbacksLastInsertId := false, 0;
      shutdownMutex, shutdownThreadStarted, shutdownThreadExit := true, false, false;
      threads := new GrowingList();
      callbacks := new GrowingList();
    }

    method Registered(pid: nat) returns (duplicate: bool)
      requires Valid()
      ensures duplicate <==> pid in threads.Contents()
    {
      duplicate := false;
      for i := 0 to threads.fill
        invariant !duplicate && pid !in threads.Contents()[..i]
      {
        if threads.data[i] == pid {
          return true;
        }
      }
    }

    /** `child` is the thread created when no shutdown thread was running. */
    method RegisterThread(pid: nat, ghost s: State, ghost t: nat, ghost child: nat) returns (created: bool)
      requires Valid() && Shows(s)
      modifies this, threads, threads.data
      ensures Valid() && (threads.data == old(threads.data) || fresh(threads.data))
      ensures created <==> pid !in s.threads && !s.started
      ensures Shows(WholeRegister(s, t, pid, child))
    {
      hide WholeRegister, Ids;
      RegisterShared(s, t, pid, child);
      created := false;
      var duplicate := Registered(pid);
      if !duplicate {
        threads.Append(pid);
        if !shutdownThreadStarted {
          shutdownMutex := true;
          created := true;
          shutdownThreadStarted := true;
        }
      }
    }

    method ConfirmShutdown(pid: nat, ghost s: State, ghost t: nat)
      requires Valid() && Shows(s)
      modifies threads, threads.data
      ensures Valid() && Shows(Confirm(s, t, pid))
      ensures threads.Contents() == [] <==> threads.data == null
    {
      hide Confirm, Unsubscribe, Keep, Ids;
      DropShared(s, t, pid);
      threads.Remove((x: nat) => x == pid);
    }

    method RegisterCb(cb: nat, ud: nat, ghost s: State, ghost t: nat) returns (id: nat)
      requires Valid() && Shows(s)
      modifies this, callbacks, callbacks.data
      ensures Valid() && Shows(Subscribe(s, t))
      ensures callbacks.data == old(callbacks.data) || fresh(callbacks.data)
      ensures id == s.lastId + 1 && callbacks.Contents() == old(callbacks.Contents()) + [Cb(id, cb, ud)]
    {
      hide Subscribe, Ids;
      SubscribeShared(s, t);
      ghost var was := callbacks.Contents();
      callbacksLastInsertId := callbacksLastInsertId + 1;
      callbacks.Append(Cb(callbacksLastInsertId, cb, ud));
      id := callbacksLastInsertId;
      IdsAppend(was, Cb(id, cb, ud));
    }

    method UnregisterCb(id: nat, ghost s: State, ghost t: nat)
      requires Valid() && Shows(s)
      modifies callbacks, callbacks.data
      ensures Valid() && Shows(Unsubscribe(s, t, id))
      ensures callbacks.Contents() == Keep(old(callbacks.Contents()), HasId(id))
      ensures callbacks.Contents() == [] <==> callbacks.data == null
    {
      hide Confirm, Unsubscribe, Keep, Ids;
      DropShared(s, t, id);
      IdsDrop(callbacks.Contents(), id);
      callbacks.Remove(HasId(id));
    }

    method SendAsync(exit: bool, ghost s: State, ghost t: nat)
      requires Valid() && Shows(s)
      modifies this
      ensures Valid() && Shows(OpenEvent(Request(s, t, exit), t))
    {
      hide Request, OpenEvent;
      RequestShared(s, t, exit);
      shutdownThreadExit := exit;
      shutdownMutex := false;
    }

    /** The calls of one broadcast, in order. */
    method Broadcast() returns (called: seq<Cb>)
      requires Valid()
      ensures called == callbacks.Contents()
    {
      called := [];
      for i := 0 to callbacks.fill
        invariant called == callbacks.Contents()[..i]
      {
        called := called + [callbacks.data[i]];
      }
    }
  }
}
