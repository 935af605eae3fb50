/** Whether a shutdown thread that was woken really sends, and what the process has
    waited for when it ends. */
module ShutdownSending {
  import opened ShutdownProtocol
  import opened ShutdownInvariant
  import opened ShutdownTheorems

  // ---------------------------------------------------------- the flag is set once

  lemma FlaggedOnce(hist: seq<Event>, t: nat, u: nat)
    requires Legal(hist) && Flagged(t) in hist && Flagged(u) in hist
    ensures t == u
  {
    hide Legal;
    var i :| 0 <= i < |hist| && hist[i] == Flagged(t);
    var j :| 0 <= j < |hist| && hist[j] == Flagged(u);
    if i < j {
      OneFlag(hist, i, j);
    } else if j < i {
      OneFlag(hist, j, i);
    }
  }

  lemma OneFlag(hist: seq<Event>, i: nat, j: nat)
    requires Legal(hist) && i <= j < |hist| && hist[i].Flagged? && hist[j].Flagged?
    ensures i == j
  {
    hide Legal;
    if i < j {
      assert hist[..j][i] == hist[i];
      LegalAt(hist, j);
    }
  }

  /** `shutdown` is set exactly when some thread has set it. */
  ghost predicate FlagShown(s: State) {
    s.shutdown <==> exists u :: Flagged(u) in s.hist
  }

  /** Whoever set the flag is sending or has sent. */
  ghost predicate FlaggersSend(s: State) {
    forall u :: Flagged(u) in s.hist ==>
      u in s.pcs && (Sends(s.pcs[u]) || (Returned(s.pcs[u]) && HasSent(s.hist, u)))
  }

  /** What the invariant says of a thread on its way to a broadcast, and of a structure
      whose flag is down. */
  lemma SendingFacts(run: Run, n: nat, t: nat)
    requires IsRun(run) && n < |run.states|
    ensures var s := run.states[n];
      && Legal(s.hist)
      && (!s.shutdown ==> forall u :: Flagged(u) !in s.hist)
      && (t in s.pcs && Sends(s.pcs[t]) ==> s.shutdown && Flagged(t) in s.hist)
  {
    hide IsRun, MutexOk, ServerOk, ListsOk, BirthsOk, RequestsOk, Legal;
    ReachableInv(run, n);
    var s := run.states[n];
    SendingOf(s.shutdown, s.freed, s.callbacks, s.hist, s.pcs, t);
  }

  /** A step that sets the flag. */
  lemma NewFlag(run: Run, n: nat, u: nat)
    requires IsRun(run) && n < |run.acts|
    requires FlagShown(run.states[n])
    requires Flagged(u) in run.states[n + 1].hist && Flagged(u) !in run.states[n].hist
    ensures !run.states[n].shutdown
    ensures u in run.states[n + 1].pcs && run.states[n + 1].pcs[u].BroadcastLock?
  {
    hide IsRun, Legal, GoesOn;
    RunLengths(run);
    var s, r, a := run.states[n], run.states[n + 1], run.acts[n].t;
    StepGoesOn(run, n, u);
    SendingFacts(run, n + 1, a);
    if s.shutdown {
      var v :| Flagged(v) in s.hist;
      assert Flagged(v) in r.hist;
      FlaggedOnce(r.hist, u, v);
    } else {
      assert r.shutdown;
      FlaggedOnce(r.hist, u, a);
    }
  }

  lemma NothingFlagged()
    ensures FlagShown(INITIAL) && FlaggersSend(INITIAL)
  {
  }

  lemma FlagShownStep(run: Run, n: nat)
    requires IsRun(run) && n < |run.acts|
    requires FlagShown(run.states[n]) && FlaggersSend(run.states[n])
    ensures FlagShown(run.states[n + 1])
  {
    hide IsRun, Legal, GoesOn, FlaggersSend, HasSent;
    RunLengths(run);
    var s, r, a := run.states[n], run.states[n + 1], run.acts[n].t;
    StepGoesOn(run, n, a);
    SendingFacts(run, n + 1, a);
    if u :| Flagged(u) in s.hist {
      assert Flagged(u) in r.hist;
    }
  }

  lemma FlaggerStep(run: Run, n: nat, u: nat)
    requires IsRun(run) && n < |run.acts|
    requires FlagShown(run.states[n]) && FlaggersSend(run.states[n])
    requires Flagged(u) in run.states[n + 1].hist
    ensures var r := run.states[n + 1];
      u in r.pcs && (Sends(r.pcs[u]) || (Returned(r.pcs[u]) && HasSent(r.hist, u)))
  {
    hide IsRun, Legal, FlagShown;
    RunLengths(run);
    var s, r := run.states[n], run.states[n + 1];
    StepGoesOn(run, n, u);
    if Flagged(u) in s.hist {
      assert HasSent(s.hist, u) ==> HasSent(r.hist, u);
    } else {
      NewFlag(run, n, u);
    }
  }

  lemma {:induction false} FlagHistory(run: Run, n: nat)
    requires IsRun(run) && n < |run.states|
    ensures FlagShown(run.states[n]) && FlaggersSend(run.states[n])
  {
    hide FlagShown, Goes, Sends, Returned, HasSent;
    if n == 0 {
      NothingFlagged();
    } else {
      FlagHistory(run, n - 1);
      FlagShownStep(run, n - 1);
      forall u | Flagged(u) in run.states[n].hist
        ensures var r := run.states[n];
          u in r.pcs && (Sends(r.pcs[u]) || (Returned(r.pcs[u]) && HasSent(r.hist, u)))
      {
        FlaggerStep(run, n - 1, u);
      }
    }
  }

  lemma RunLengths(run: Run)
    requires IsRun(run)
    ensures |run.states| == |run.acts| + 1
  {
  }

  lemma {:induction false} FlagStays(run: Run, k: nat, n: nat)
    requires IsRun(run) && k <= n < |run.states| && run.states[k].shutdown
    ensures run.states[n].shutdown
  {
    hide IsRun, Legal, FlaggersSend;
    FlagHistory(run, k);
    var u :| Flagged(u) in run.states[k].hist;
    RunGoesOn(run, k, n, u);
    FlagHistory(run, n);
    assert Flagged(u) in run.states[n].hist;
  }

  // ------------------------------------------------------------------ the decision

  /** What becomes of a thread that waited when `shutdown` was as given: until it has
      decided it stays so, and then the thread has set it if it was down. */
  ghost predicate Decides(s: State, t: nat, shutdown: bool) {
    && t in s.pcs
    && (Undecided(s.pcs[t]) ==>
          s.shutdown == shutdown && Flagged(t) !in s.hist && (s.pcs[t].Flagging? ==> !shutdown))
    && (!Undecided(s.pcs[t]) ==> (Flagged(t) in s.hist <==> !shutdown))
  }

  /** While a shutdown thread waits and until it has decided, nobody else touches
      `shutdown`. */
  lemma UndecidedKeeps(run: Run, n: nat, t: nat)
    requires IsRun(run) && n < |run.acts|
    requires t in run.states[n + 1].pcs && Undecided(run.states[n + 1].pcs[t])
    ensures run.states[n + 1].shutdown == run.states[n].shutdown
  {
    hide IsRun, GoesOn;
    RunLengths(run);
    StepGoesOn(run, n, t);
    OneShutdownThread(run, n + 1, t, run.acts[n].t);
  }

  lemma {:induction false} WaiterDecides(run: Run, k: nat, n: nat, t: nat)
    requires IsRun(run) && k <= n < |run.states| && Waits(run.states[k], t)
    ensures Decides(run.states[n], t, run.states[k].shutdown)
    decreases n
  {
    hide IsRun, Legal, HasSent;
    FlagHistory(run, n);
    if k < n {
      WaiterDecides(run, k, n - 1, t);
      RunLengths(run);
      DecisionStep(run, n - 1, t, run.states[k].shutdown, k);
    }
  }

  lemma DecisionStep(run: Run, n: nat, t: nat, shutdown: bool, k: nat)
    requires IsRun(run) && n < |run.acts| && Decides(run.states[n], t, shutdown)
    requires k <= n && run.states[k].shutdown == shutdown
    ensures Decides(run.states[n + 1], t, shutdown)
  {
    hide IsRun, Legal, HasSent, FlagShown;
    RunLengths(run);
    var s, r := run.states[n], run.states[n + 1];
    StepGoesOn(run, n, t);
    FlagHistory(run, n);
    FlagHistory(run, n + 1);
    SendingFacts(run, n + 1, t);
    if Undecided(r.pcs[t]) {
      UndecidedKeeps(run, n, t);
    } else {
      assert Flagged(t) in s.hist ==> Flagged(t) in r.hist;
      if Flagged(t) in r.hist && Flagged(t) !in s.hist {
        NewFlag(run, n, t);
      }
      if shutdown {
        FlagStays(run, k, n);
      }
    }
  }

  /** A shutdown thread back from `send_block` has sent if and only if it set the flag. */
  lemma SentIffFlagged(run: Run, n: nat, t: nat)
    requires IsRun(run) && n < |run.states|
    requires t in run.states[n].pcs && Returned(run.states[n].pcs[t])
    ensures HasSent(run.states[n].hist, t) <==> Flagged(t) in run.states[n].hist
  {
    hide IsRun, Legal;
    FlagHistory(run, n);
    SendingFacts(run, n, t);
    var hist := run.states[n].hist;
    if timedOut :| Sent(t, timedOut) in hist {
      var i :| 0 <= i < |hist| && hist[i] == Sent(t, timedOut);
      LegalAt(hist, i);
      assert Flagged(t) in hist[..i];
    }
  }

  /** The signal is sent by the shutdown thread a request wakes if and only if
      `evsig_thread_shutdown_p` was still false when the request was made: a thread that
      waited at `k` has, when it comes to its decision about the process at `n`, made
      the broadcast and the wait of its own if and only if `shutdown` was down at `k`. */
  lemma WokenSendsIff(run: Run, k: nat, n: nat, t: nat)
    requires IsRun(run) && k <= n < |run.states| && Waits(run.states[k], t)
    requires t in run.states[n].pcs && Returned(run.states[n].pcs[t])
    ensures HasSent(run.states[n].hist, t) <==> !run.states[k].shutdown
  {
    hide IsRun, HasSent;
    WaiterDecides(run, k, n, t);
    SentIffFlagged(run, n, t);
  }

  /** A request sends the signal, exactly: it lets `t` pass and `t` sends if and only if
      `t` was waiting when it was made and `shutdown` was still down. */
  lemma RequestSendsIff(run: Run, k: nat, n: nat, t: nat)
    requires IsRun(run) && RequestAt(run, k) && k <= n < |run.states|
    requires t in run.states[n].pcs && Returned(run.states[n].pcs[t])
    ensures (exists m :: LetsPass(run, k, m, t)) && HasSent(run.states[n].hist, t)
       <==> Waits(run.states[k], t) && !run.states[k].shutdown
  {
    hide IsRun, HasSent, LetsPass, Returned;
    RequestReachesExactlyWaiters(run, k, t);
    if Waits(run.states[k], t) {
      WokenSendsIff(run, k, n, t);
    }
  }

  /** At `i` thread `t` has come to the end of a send: everything subscribed when it
      opened the broadcast at `o` has been called, and nothing else, and unless the wait
      timed out every registered thread had confirmed at some moment of it. */
  ghost predicate Completed(hist: seq<Event>, t: nat, i: nat, o: nat) {
    && o < i < |hist| && hist[i].Sent? && hist[i].server == t && hist[o] == Opened(t)
    && Calls(hist) == Subscriptions(hist[..o])
    && (!hist[i].timedOut ==> exists d :: 0 <= d < i && DrainedAt(hist, t, d))
  }

  ghost predicate DrainedAt(hist: seq<Event>, t: nat, d: nat) {
    d < |hist| && hist[d] == Drained(t) && Members(hist[..d]) == []
  }

  /** The process ends after a wait for the registered threads if and only if the flag
      was down when the thread that ends it was still waiting; and then everything that
      was subscribed has been called. */
  lemma ExitWaitedIff(run: Run, k: nat, n: nat)
    requires IsRun(run) && k <= n < |run.acts| && run.acts[n].Next?
    requires var t := run.acts[n].t;
      Waits(run.states[k], t) && t in run.states[n].pcs && run.states[n].pcs[t].FinalTest?
    requires run.states[n + 1].exited
    ensures var t, hist := run.acts[n].t, run.states[n].hist;
      && LastAsked(hist)
      && (HasSent(hist, t) <==> !run.states[k].shutdown)
      && (HasSent(hist, t) ==> exists i, o :: Completed(hist, t, i, o))
  {
    hide IsRun, Calls, Subscriptions, Members, LastAsked;
    RunLengths(run);
    WokenSendsIff(run, k, n, run.acts[n].t);
    ExitsIffAsked(run, n);
    var t, hist := run.acts[n].t, run.states[n].hist;
    if timedOut :| Sent(t, timedOut) in hist {
      var i :| 0 <= i < |hist| && hist[i] == Sent(t, timedOut);
      var o := BroadcastExactlyOnce(run, n, i, t, timedOut);
      if !timedOut {
        var f, d := WaitIsSound(run, n, i, t);
        assert DrainedAt(hist, t, d);
      }
      assert Completed(hist, t, i, o);
    }
  }
}
