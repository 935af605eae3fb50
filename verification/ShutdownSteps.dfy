/** Every statement of the shutdown protocol, outright: when it can be taken, and the whole
    state it leaves. */
module ShutdownSteps {
  import opened Compaction
  import opened ShutdownProtocol
  import opened ShutdownTheorems

  // ------------------------------------------------------------ steps of a client

  lemma InvokeStep(s: State, t: nat, call: Call)
    requires !s.exited && (t !in s.pcs || s.pcs[t].Idle?)
    ensures Goes(s, Invoke(t, call), s.(pcs := s.pcs[t := Acquiring(call)]))
  {
  }

  /** A failing compare-and-swap changes nothing. */
  lemma LockFailsStep(s: State, t: nat)
    requires !s.exited && t in s.pcs
    requires s.pcs[t].Acquiring? || s.pcs[t].BroadcastLock? || s.pcs[t].WaitLock? || s.pcs[t].FinalLock?
    ensures Goes(s, LockFails(t), s)
  {
  }

  lemma AcquireStep(s: State, t: nat, call: Call)
    requires !s.exited && !s.master && t in s.pcs && s.pcs[t] == Acquiring(call)
    ensures Goes(s, Lock(t), s.(master := true, pcs := s.pcs[t := Body(call)]))
  {
  }

  /** A new thread is put at the end of the list. */
  lemma RegisterNewStep(s: State, t: nat, pid: nat, child: nat, failed: bool)
    requires !s.exited && t in s.pcs && s.pcs[t] == Body(RegisterThread(pid)) && pid !in s.threads
    ensures Goes(s, Next(t, child, failed),
                 s.(threads := s.threads + [pid], hist := s.hist + [Joined(pid)],
                    pcs := s.pcs[t := if s.started then Releasing else LockingEvent]))
  {
  }

  /** A registered thread changes nothing. */
  lemma RegisterAgainStep(s: State, t: nat, pid: nat, child: nat, failed: bool)
    requires !s.exited && t in s.pcs && s.pcs[t] == Body(RegisterThread(pid)) && pid in s.threads
    ensures Goes(s, Next(t, child, failed), s.(hist := s.hist + [Joined(pid)], pcs := s.pcs[t := Releasing]))
  {
  }

  lemma ConfirmStep(s: State, t: nat, pid: nat, child: nat, failed: bool)
    requires !s.exited && t in s.pcs && s.pcs[t] == Body(ConfirmShutdown(pid))
    ensures Goes(s, Next(t, child, failed),
                 s.(threads := Keep(s.threads, (y: nat) => y == pid), hist := s.hist + [Left(pid)],
                    pcs := s.pcs[t := Releasing]))
  {
  }

  lemma SubscribeStep(s: State, t: nat, child: nat, failed: bool)
    requires !s.exited && t in s.pcs && s.pcs[t] == Body(RegisterCb)
    ensures Goes(s, Next(t, child, failed),
                 s.(callbacks := s.callbacks + [s.lastId + 1], lastId := s.lastId + 1,
                    hist := s.hist + [Subscribed(s.lastId + 1)], pcs := s.pcs[t := Releasing]))
  {
  }

  lemma UnsubscribeStep(s: State, t: nat, id: nat, child: nat, failed: bool)
    requires !s.exited && t in s.pcs && s.pcs[t] == Body(UnregisterCb(id))
    ensures Goes(s, Next(t, child, failed),
                 s.(callbacks := Keep(s.callbacks, (y: nat) => y == id), hist := s.hist + [Unsubscribed(id)],
                    pcs := s.pcs[t := Releasing]))
  {
  }

  lemma RequestStep(s: State, t: nat, exit: bool, child: nat, failed: bool)
    requires !s.exited && t in s.pcs && s.pcs[t] == Body(SendAsync(exit))
    ensures Goes(s, Next(t, child, failed),
                 s.(exitFlag := exit, hist := s.hist + [Requested(exit)], pcs := s.pcs[t := Signalling]))
  {
  }

  lemma OpenStep(s: State, t: nat, child: nat, failed: bool)
    requires !s.exited && t in s.pcs && s.pcs[t] == Signalling
    ensures Goes(s, Next(t, child, failed), s.(event := false, pcs := s.pcs[t := Releasing]))
  {
  }

  lemma CloseStep(s: State, t: nat, child: nat, failed: bool)
    requires !s.exited && t in s.pcs && s.pcs[t] == LockingEvent
    ensures Goes(s, Next(t, child, failed), s.(event := true, pcs := s.pcs[t := Creating]))
  {
  }

  lemma CreateStep(s: State, t: nat, child: nat)
    requires !s.exited && t in s.pcs && s.pcs[t] == Creating && child !in s.pcs
    ensures Goes(s, Next(t, child, false),
                 s.(pcs := s.pcs[child := Awaiting][t := Marking], hist := s.hist + [Born(child)]))
  {
  }

  /** Failing to create a thread ends the process. */
  lemma CreateFailsStep(s: State, t: nat, child: nat)
    requires !s.exited && t in s.pcs && s.pcs[t] == Creating && child !in s.pcs
    ensures Goes(s, Next(t, child, true), s.(exited := true))
  {
  }

  lemma MarkStep(s: State, t: nat, child: nat, failed: bool)
    requires !s.exited && t in s.pcs && s.pcs[t] == Marking
    ensures Goes(s, Next(t, child, failed), s.(started := true, pcs := s.pcs[t := Releasing]))
  {
  }

  lemma ReleaseStep(s: State, t: nat, child: nat, failed: bool)
    requires !s.exited && t in s.pcs && s.pcs[t] == Releasing
    ensures Goes(s, Next(t, child, failed), s.(master := false, pcs := s.pcs[t := Idle]))
  {
  }

  // --------------------------------------------------- steps of a shutdown thread

  lemma WakeStep(s: State, t: nat, child: nat, failed: bool)
    requires !s.exited && !s.event && t in s.pcs && s.pcs[t] == Awaiting
    ensures Goes(s, Next(t, child, failed), s.(hist := s.hist + [Woken(t)], pcs := s.pcs[t := Testing]))
  {
  }

  lemma TestStep(s: State, t: nat, child: nat, failed: bool)
    requires !s.exited && t in s.pcs && s.pcs[t] == Testing
    ensures Goes(s, Next(t, child, failed), s.(pcs := s.pcs[t := if s.shutdown then FinalLock else Flagging]))
  {
  }

  lemma FlagStep(s: State, t: nat, child: nat, failed: bool)
    requires !s.exited && t in s.pcs && s.pcs[t] == Flagging
    ensures Goes(s, Next(t, child, failed),
                 s.(shutdown := true, hist := s.hist + [Flagged(t)], pcs := s.pcs[t := BroadcastLock]))
  {
  }

  lemma StartStep(s: State, t: nat)
    requires !s.exited && !s.master && t in s.pcs && s.pcs[t] == BroadcastLock
    ensures Goes(s, Lock(t), s.(master := true, hist := s.hist + [Opened(t)], pcs := s.pcs[t := Broadcasting(0)]))
  {
  }

  lemma CallStep(s: State, t: nat, i: nat, child: nat, failed: bool)
    requires !s.exited && t in s.pcs && s.pcs[t] == Broadcasting(i) && i < |s.callbacks|
    ensures Goes(s, Next(t, child, failed),
                 s.(hist := s.hist + [Called(s.callbacks[i])], pcs := s.pcs[t := Broadcasting(i + 1)]))
  {
  }

  lemma CalledStep(s: State, t: nat, i: nat, child: nat, failed: bool)
    requires !s.exited && t in s.pcs && s.pcs[t] == Broadcasting(i) && i >= |s.callbacks|
    ensures Goes(s, Next(t, child, failed), s.(pcs := s.pcs[t := BroadcastUnlock]))
  {
  }

  lemma EndBroadcastStep(s: State, t: nat, child: nat, failed: bool)
    requires !s.exited && t in s.pcs && s.pcs[t] == BroadcastUnlock
    ensures Goes(s, Next(t, child, failed), s.(master := false, pcs := s.pcs[t := WaitLock]))
  {
  }

  lemma LookStep(s: State, t: nat)
    requires !s.exited && !s.master && t in s.pcs && s.pcs[t] == WaitLock
    ensures Goes(s, Lock(t), s.(master := true, pcs := s.pcs[t := WaitTest]))
  {
  }

  /** An empty list ends the wait. */
  lemma DrainedStep(s: State, t: nat, child: nat, failed: bool)
    requires !s.exited && t in s.pcs && s.pcs[t] == WaitTest && s.threads == []
    ensures Goes(s, Next(t, child, failed), s.(hist := s.hist + [Drained(t)], pcs := s.pcs[t := WaitUnlock(false)]))
  {
  }

  lemma FoundStep(s: State, t: nat, child: nat, failed: bool)
    requires !s.exited && t in s.pcs && s.pcs[t] == WaitTest && s.threads != []
    ensures Goes(s, Next(t, child, failed), s.(pcs := s.pcs[t := WaitUnlock(true)]))
  {
  }

  lemma LookedStep(s: State, t: nat, more: bool, child: nat, failed: bool)
    requires !s.exited && t in s.pcs && s.pcs[t] == WaitUnlock(more)
    ensures Goes(s, Next(t, child, failed),
                 s.(master := false, pcs := s.pcs[t := if more then Sleeping else Freeing(false)]))
  {
  }

  /** After a sleep that is not the last the list is looked at again. */
  lemma SleptStep(s: State, t: nat, child: nat, failed: bool)
    requires !s.exited && t in s.pcs && s.pcs[t] == Sleeping
    ensures Goes(s, Next(t, child, failed), s.(pcs := s.pcs[t := if failed then Freeing(true) else WaitLock]))
  {
  }

  lemma FreeStep(s: State, t: nat, timedOut: bool, child: nat, failed: bool)
    requires !s.exited && t in s.pcs && s.pcs[t] == Freeing(timedOut)
    ensures Goes(s, Next(t, child, failed),
                 s.(callbacks := [], threads := [], freed := true, hist := s.hist + [Sent(t, timedOut)],
                    pcs := s.pcs[t := FinalLock]))
  {
  }

  lemma FinalLockStep(s: State, t: nat)
    requires !s.exited && !s.master && t in s.pcs && s.pcs[t] == FinalLock
    ensures Goes(s, Lock(t), s.(master := true, pcs := s.pcs[t := FinalTest]))
  {
  }

  lemma GoOnStep(s: State, t: nat, child: nat, failed: bool)
    requires !s.exited && !s.exitFlag && t in s.pcs && s.pcs[t] == FinalTest
    ensures Goes(s, Next(t, child, failed), s.(pcs := s.pcs[t := FinalEvent]))
  {
  }

  lemma ExitStep(s: State, t: nat, child: nat, failed: bool)
    requires !s.exited && s.exitFlag && t in s.pcs && s.pcs[t] == FinalTest
    ensures Goes(s, Next(t, child, failed), s.(exited := true, hist := s.hist + [ProcessExit(t)]))
  {
  }

  lemma CloseAgainStep(s: State, t: nat, child: nat, failed: bool)
    requires !s.exited && t in s.pcs && s.pcs[t] == FinalEvent
    ensures Goes(s, Next(t, child, failed), s.(event := true, pcs := s.pcs[t := FinalClear]))
  {
  }

  lemma RetireStep(s: State, t: nat, child: nat, failed: bool)
    requires !s.exited && t in s.pcs && s.pcs[t] == FinalClear
    ensures Goes(s, Next(t, child, failed),
                 s.(started := false, hist := s.hist + [Retired(t)], pcs := s.pcs[t := FinalUnlock]))
  {
  }

  lemma LeaveStep(s: State, t: nat, child: nat, failed: bool)
    requires !s.exited && t in s.pcs && s.pcs[t] == FinalUnlock
    ensures Goes(s, Next(t, child, failed), s.(master := false, pcs := s.pcs[t := Gone]))
  {
  }

  // ------------------------------------------------------------- who is listed then

  /** After a confirmation that thread is not listed, and every other one is as before. */
  lemma ConfirmedIsGone(s: State, t: nat, pid: nat, child: nat, failed: bool, x: nat)
    requires !s.exited && t in s.pcs && s.pcs[t] == Body(ConfirmShutdown(pid))
    ensures var r := Apply(s, Next(t, child, failed));
      x in r.threads <==> x in s.threads && x != pid
  {
    hide Apply, Keep;
    ConfirmStep(s, t, pid, child, failed);
    KeepIsFilter(s.threads, (y: nat) => y == pid);
  }

  lemma UnsubscribedIsGone(s: State, t: nat, id: nat, child: nat, failed: bool, x: nat)
    requires !s.exited && t in s.pcs && s.pcs[t] == Body(UnregisterCb(id))
    ensures var r := Apply(s, Next(t, child, failed));
      x in r.callbacks <==> x in s.callbacks && x != id
  {
    hide Apply, Keep;
    UnsubscribeStep(s, t, id, child, failed);
    KeepIsFilter(s.callbacks, (y: nat) => y == id);
  }

  /** After a registration that thread is listed, whether it was before or not, and every
      other one is as before. */
  lemma RegisteredIsListed(s: State, t: nat, pid: nat, child: nat, failed: bool, x: nat)
    requires !s.exited && t in s.pcs && s.pcs[t] == Body(RegisterThread(pid))
    ensures var r := Apply(s, Next(t, child, failed));
      x in r.threads <==> x in s.threads || x == pid
  {
    hide Apply;
    if pid in s.threads {
      RegisterAgainStep(s, t, pid, child, failed);
    } else {
      RegisterNewStep(s, t, pid, child, failed);
    }
  }
}
