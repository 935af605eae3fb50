# A verified model of libevsig

Libevsig is a condition system for C: code installs signal handlers, offers restarts and registers
unwind actions, a signal asks the handlers which restart to take, and the thread unwinds to it with
`longjmp`. Beside it runs a protocol that shuts down all threads of a process. This project models
both, together with the hash and the random generator behind the library's spin lock, and proves what
they guarantee. `dafny verify dfyconfig.toml` checks all of it.

## The condition system of one thread

| file | content |
|---|---|
| `GrowableStack.dfy` | the doubling array, removal by id in place, and what it means on sequences |
| `SignalStacks.dfy` | handler and restart entries; which handlers a signal consults, which restart it selects |
| `Ledger.dfy` | the history of unwind actions: registered, run, dropped |
| `ThreadState.dfy` | the three stacks, the language of scopes, and the invariant that keeps the stacks in step |
| `Machine.dfy` | scopes, signals, `_unwind` and jumps as functions on the state, with what each keeps |
| `Structured.dfy` | a meaning without stacks or jump buffers, and the proof that the machine has it |
| `ScopeLaws.dfy` | what each scope means to the code around it, as equations between programs |
| `MachineTheorems.dfy` | the guarantees for every program and every run |
| `EvsigThread.dfy` | the same operations as methods of a class that updates three heap arrays |

A program (`Prog`) is a tree of the library's scopes: unwind actions that run on every exit or only on an
unwind, handler scopes, one-shot and autopop restarts, persistent handlers and their removal, signals,
sequences, and branches on user state, which a tape of choices decides. An unwind action is itself a
program, so it may open scopes, signal, and jump elsewhere in the middle of an unwind. A user handler is a
function from the number of the call to the restart it answers. `longjmp` is an outcome that carries the
return point.

The state holds the three stacks. Each unwind entry also carries history that no operation reads: the
number of the registration and what its scope pushed on the other two stacks. From that history alone the
restart stack and the scoped handlers are computed (`RestartsOf`, `Scoped`), and the invariant says that
the real stacks are these. So cutting the unwind stack at a recorded fill restores all three.

Two independent accounts of a run are compared. `Machine.Run` follows the C code: it pushes, pops, walks
arrays and unwinds to a recorded fill. `Structured.Eval` has none of that: a jump is the level of an
enclosing restart, and a scope left by a jump runs its action on the way out, as `finally` would.
`Structured.RunIsStructured` says that for every program, every behaviour of the handlers, every way the
branches go and every bound on restarts they end alike, with the same observable events in the same order.
`EvsigThread.Thread` then implements `Machine` method by method on heap arrays.

`ScopeLaws` says what each scope means wherever it stands: an action around code that comes to its end is the
code that follows it, an explicit one is nothing there, a restart that is taken is its action, an autopop restart
its action and the block again, and a signal leaves for the innermost restart offered for it.

An autopop restart whose action returns starts its block again, and nothing in the code stops a program
from doing that for ever. Runs therefore carry a bound on these returns. `RetryBoundIsAClock` shows
that the bound changes nothing else; `RetriesUntilItSucceeds` is the loop the restart is meant for. Such
returns inside the code that runs are the only way not to end: from any reachable state, with restarts of
any kind open as targets, `_unwind`, a signal and any code end unless an action or that code itself holds an
autopop restart, however they signal from inside an unwind (`UnwindTerminates`, `SignalTerminates`,
`RetryFreeTerminates`). Between two returns the code still pending gets smaller with every step; this holds
only because the fill is adjusted before an action is called.

## The shutdown protocol

| file | content |
|---|---|
| `Compaction.dfy` | the two-index removal loop, against the filter on sequences |
| `ShutdownProtocol.dfy` | any number of threads, one step per access to the shared structure |
| `ShutdownInvariant.dfy` | the inductive invariant |
| `ShutdownTheorems.dfy` | the guarantees for every interleaving |
| `ShutdownSending.dfy` | whether a thread that was woken sends, and what the process has waited for when it ends |
| `ShutdownSteps.dfy` | every statement outright: when it can be taken and the whole state it leaves |
| `ShutdownRuns.dfy` | a run that ends as it should, and runs that show what is not promised |
| `ShutdownSignal.dfy` | the structure and the routines under the lock, in place on heap arrays |
| `TimedWait.dfy` | the sleeps and the timeout of `send_block` |

Every thread has a program counter; an action is a call of a client routine, a successful or a
spurious failing compare-and-swap, or the next statement of a thread. `shutdown_mutex` is the flag
`event`: true while its word is 1. The state logs a history of events, and most guarantees say where an
event may stand in it. Sends come from shutdown threads only, and there is one structure, the global one, as in
the code's own uses.

The removal loop of both lists reads one slot and writes an earlier one. Its invariant (`Compaction.Swept`)
says that from the read index on the list is still the original, so no slot is read after it was
overwritten; the read index is the minimum of `i + shift` and the fill, because the loop goes on after the
last element was read.

`ShutdownSteps` says of every statement which fields it changes, and to what, without naming the functions that
make up the step; the runs in `ShutdownRuns` are put together from these.

A shutdown thread wakes only for a request made since its creation (`RequestNotStale`). Exactly the requests
made while it waits can let it pass: one made before it was created, or after it stopped waiting, never does
(`RequestReachesExactlyWaiters`), and one made while it waits is not lost whatever happens next
(`RequestReachesWaiter`). A thread that wakes need not send: until it has decided nobody else touches
`shutdown` (`UndecidedKeeps`), so it sends if and only if the flag was down while it waited
(`WokenSendsIff`).

## Hash and generator

`Fnv.dfy`, `Rand64.dfy` and `ClockTicks.dfy` work on 64-bit words with the wrap-around of the C code. The
generator seeds itself with the hash of the clock's seconds until it gets something other than 0;
`ClockTicks` shows that two consecutive seconds never hash alike, however far the carry goes.

## What the code does not do

Five things a caller might expect and the code does not give, each with an instance and the exact condition
under which it holds.

* `_sig_restart_available` does not look at restarts provided for `SIGNAL_ALL`, while a signal does take
  them (`AvailabilityIsNarrower`); a target exists if and only if it holds for the signal or for
  `SIGNAL_ALL` (`SelectedIffAvailable`).
* `send_async` is documented as sending the shutdown signal. The request lets a thread pass and that thread
  sends if and only if the thread was waiting when the request was made and `evsig_thread_shutdown_p` was
  still false (`RequestSendsIff`). A request made before the shutdown thread is created wakes nobody, because
  the registration closes the event again (`EarlyRequestIsForgotten`; in general `WakesNobodyIffNobodyWaits`);
  one that finds the flag up wakes a thread that sends nothing (`SecondEndsAtOnce`).
* With `exit_process` it is documented to wait for all threads to confirm, up to five seconds, and then to end
  the process. The process ends at a decision exactly when the latest request asked for it (`ExitsIffAsked`),
  and that request need not have woken anybody (`BusyRequestIsObeyed`). The end comes after a wait of the
  deciding thread's own if and only if the flag was down while that thread waited (`ExitWaitedIff`). So a
  thread that registers after a send has retired is not waited for (`SecondEndsAtOnce`).
* The clean-up function of a signal's data, about which the headers say nothing more, is called after every
  consulted handler that returns, so a second handler may be called with data already cleaned
  (`CleanedTwice`). It is called exactly once if and only if some user handler handles the signal and the
  topmost such one answers or is the only one (`CleanedOnceIff`).
* `send_block` is documented to return true if the timeout elapsed. The time is read off the wall clock, and a
  clock set back before the millisecond of the start counts as a timeout too (`SetBackExpires`; `ExpiredIff`
  says for any two readings what counts).

## Model

| member | source | states |
|---|---|---|
| GrowableStack.Stack.Push | src/libevsig/unwind.c:175-188 | pushing appends one entry, whether or not the array was doubled; the capacity stays 32 times a power of two |
| GrowableStack.Stack.Pop | src/libevsig/unwind.c:206-207 | exactly the top entry goes; the array is kept |
| GrowableStack.Stack.Find | src/libevsig/signals.c:253-259 | the search finds the topmost entry with the id, or there is none |
| GrowableStack.Stack.ShiftOut | src/libevsig/signals.c:261-266 | the shifting loop cuts exactly the found position out |
| GrowableStack.Stack.RemoveById | src/libevsig/signals.c:250-267 | together they remove the topmost entry with the id and nothing else |
| GrowableStack.WithoutAt | src/libevsig/signals.c:303-325 | removal by id, by position: that position disappears, or nothing does when the id is absent |
| GrowableStack.WithoutExact | src/libevsig/signals.c:303-325 | when ids increase, removal deletes the owner's entry only and ids still increase |
| SignalStacks.ConsultExact | src/libevsig/signals.c:206-223 | the consulted handlers are a prefix of the matching ones, topmost first; all before the last declined; the walk stops early only on an answer or at the catchall, and otherwise asked all |
| SignalStacks.ConsultedPositions | src/libevsig/signals.c:211-213 | the handlers called are, from the top down and without a gap, those registered for this very signal or for `SIGNAL_ALL`, to the one that decided or to the bottom; no other is called |
| SignalStacks.NeverFallsThrough | src/libevsig/signals.c:186-187 | with the catchall at the bottom no signal returns to its sender unanswered |
| SignalStacks.SelectTopmost | src/libevsig/signals.c:196-204 | the restart taken is the topmost one of that type provided for the signal or for `SIGNAL_ALL`; none only if there is no such one |
| SignalStacks.SelectedIffAvailable | src/libevsig/signals.c:269-275 | a target exists if and only if the availability test holds for the signal or for `SIGNAL_ALL` |
| SignalStacks.AvailableAnywhere | src/libevsig/signals.c:269-275 | an entry of another signal or type changes nothing for the availability test, wherever it is; one of this signal and type is enough, wherever it is |
| SignalStacks.AvailabilityIsNarrower | src/libevsig/signals.c:269-275 | a stack on which the availability test denies a target that a signal would take |
| Ledger.ExactlyOnce | src/libevsig/unwind.c:159-213 | in a history that balances, each instance was registered once and is still live or was settled once, never twice |
| Ledger.ReverseOrder | src/libevsig/unwind.c:159-173 | when an instance is settled, all registered after it have been |
| ThreadState.InitialState | src/libevsig/signals.c:159-188 | the state after `sig_init` satisfies the invariant |
| ThreadState.OpenRestartInv | include/libevsig/_signals.h:51-63 | pushing a restart and registering the action that removes it keeps the stacks in step |
| ThreadState.OpenHandlerInv | include/libevsig/_signals.h:46-48 | the same for a scoped handler, including a null one |
| ThreadState.KeepPersistentOk | src/libevsig/signals.c:277-301 | a persistent handler may be pushed between scoped ones |
| ThreadState.DropPersistentOk | src/libevsig/signals.c:303-325 | removing a persistent handler by its owner leaves all scoped ones and the catchall in place |
| ThreadState.PushedOnTop | src/libevsig/signals.c:277-301 | a push goes on top, for this signal and with this handler, under the next id, and changes nothing else; a null handler pushes nothing |
| ThreadState.KeptOnTop | include/libevsig/signals.h:139-141 | a persistent handler is on top for its signal, and its variable holds that very entry |
| ThreadState.DroppedExactly | src/libevsig/signals.c:303-325 | removing it takes exactly that entry out, wherever it is by then, and keeps the rest in order; its variable is spent |
| ThreadState.DroppedNothing | src/libevsig/signals.c:304-305 | a variable that holds no handler changes nothing |
| ThreadState.VisitsExact | src/libevsig/signals.c:214-215 | without a clean-up function what is seen of a signal is one question per consulted handler, in order and about that signal, and no cleaning; with one, a cleaning after each handler that returned |
| ThreadState.VisitedExactly | src/libevsig/signals.c:211-222 | a signal adds just that to what was seen and uses one answer per handler that returned; nothing else of the world changes |
| ThreadState.RemovedByOwner | src/libevsig/signals.c:303-325 | removal of a live handler by its id removes that very entry and keeps every other, the catchall at the bottom |
| ThreadState.PopHandlerInv | src/libevsig/signals.c:354-357 | the removing action, called after its own entry was popped, keeps the stacks in step |
| ThreadState.PopRestartInv | src/libevsig/signals.c:359-362 | the same for restarts |
| ThreadState.RestartIds | src/libevsig/signals.c:244-247 | recycled restart ids are always the positions on the stack |
| ThreadState.RestartTarget | include/libevsig/_signals.h:51-63 | a restart's recorded fill is an index of the unwind stack, and the entry there removes this restart |
| Machine.Finish | src/libevsig/unwind.c:193-198 | running the top action, popped first, leaves the stack below it, or jumps to a return point below it |
| Machine.Unwind | src/libevsig/unwind.c:159-173 | unwinding never comes back: it lands with the stack cut at the recorded fill, or at another live point below if an action jumped, or ends the thread, or an action that itself retries reaches the bound (see MachineTheorems.UnwindTerminates) |
| Machine.SendSignal | src/libevsig/signals.c:206-223 | a signal never returns; a jump lands at a live return point |
| Machine.RestartScope | include/libevsig/_signals.h:51-57 | normal end and landing at its own point leave the unwind stack as before the scope; other jumps go below |
| Machine.Attempt | include/libevsig/_signals.h:59-63 | an autopop restart, over any number of returns to it, leaves the stack as before or jumps below |
| Machine.RunOnce | include/libevsig/unwind.h:97-104 | the same for a one-shot restart |
| Machine.RunAction | include/libevsig/unwind.h:84-87 | a scope with an action that runs on every exit leaves the stack as before or jumps below |
| Machine.RunExplicit | include/libevsig/unwind.h:92-95 | the same when the action is dropped at the normal end |
| Machine.RunHandler | include/libevsig/_signals.h:46-48 | the same for a handler scope |
| Machine.Run | include/libevsig/unwind.h:84-111 | any program, whichever way its branches go, keeps the invariant, extends the history, and restores or cuts the unwind stack |
| Structured.JumpThrough | src/libevsig/unwind.c:162-169 | one round of unwinding is one `finally`: the jump goes on, or the action's own end replaces it |
| Structured.JumpCaught | include/libevsig/unwind.h:97-104 | a jump to a scope's own restart pops its entry and nothing more |
| Structured.RunIsStructured | src/libevsig/unwind.c:159-213 | the machine with its three stacks ends every program as the reference meaning does, with the same observations, and never jumps out of the outermost scope |
| ScopeLaws.RestNotReached | src/libevsig/signals.c:206-223 | code after one that does not come to its end is not run |
| ScopeLaws.BranchTaken | include/libevsig/unwind.h:84-111 | a branch goes the way of the next choice and uses it up |
| ScopeLaws.ActionFollows | include/libevsig/unwind.h:84-87 | around code that comes to its end, an unwind action is the code that follows it |
| ScopeLaws.ActionOnTheWay | src/libevsig/unwind.c:162-169 | a jump runs the action of a scope it leaves and goes on, unless the action does not come to its end: then that replaces the jump |
| ScopeLaws.NoActionAfterTheEnd | src/libevsig/signals.c:217-219 | when the thread ends inside a scope no action of it runs |
| ScopeLaws.ExplicitOnlyOnJumps | include/libevsig/unwind.h:89-95 | an explicit action runs on jumps only; otherwise the scope is its body |
| ScopeLaws.InnerActionFirst | include/libevsig/unwind.h:84-87 | of two nested actions the inner one runs first, on a normal end and on a jump |
| ScopeLaws.RestartNotTaken | include/libevsig/_signals.h:51-63 | a restart does not touch code that does not jump to it |
| ScopeLaws.RestartTaken | include/libevsig/unwind.h:97-111 | a jump to a restart runs its action outside the restart; a one-shot restart then goes on, an autopop restart runs its whole block again |
| ScopeLaws.SignalLeaves | src/libevsig/signals.c:196-220 | a signal leaves for restart i if and only if some handler answered and i is the innermost restart of that type for the signal or `SIGNAL_ALL`; it ends the thread if and only if nobody answered or there is none |
| ScopeLaws.SignalRestarts | include/libevsig/_signals.h:43-57 | in any place: a handler asked at once, its answer, the action in between, the restart's action, in this order, and the code goes on |
| MachineTheorems.UnwindStackDetermines | include/libevsig/_signals.h:46-63 | states with the same unwind stack have the same restarts and the same scoped handlers, and the same handler stack if the persistent ones agree |
| MachineTheorems.LandingRestores | include/libevsig/unwind.h:97-111 | a landing finds the unwind stack, the restarts and the scoped handlers as they were when the point was recorded |
| MachineTheorems.JumpRestores | src/libevsig/unwind.c:159-173 | a jump out of any program goes to a restart open before it and leaves exactly what lies below that restart |
| MachineTheorems.TargetsAreLive | include/libevsig/_signals.h:51-63 | every restart's recorded fill lies inside the stack at the entry removing it; recorded fills strictly increase; every removing entry has its restart |
| MachineTheorems.IdsIdentify | src/libevsig/signals.c:225-325 | after any run ids strictly increase up both stacks and the catchall is at the bottom |
| MachineTheorems.ActionsSettleOnce | src/libevsig/unwind.c:159-213 | after any run each action instance registered is still on the stack or was run or dropped exactly once |
| MachineTheorems.ActionsSettleInReverse | src/libevsig/unwind.c:159-213 | in any run actions are settled in the reverse order of registration, also across jumps out of actions |
| MachineTheorems.NothingLeftBehind | src/libevsig/unwind.c:193-213 | a thread whose code ends normally has settled every action and keeps only persistent handlers |
| MachineTheorems.KeptThenRemoved | include/libevsig/signals.h:139-145 | a persistent handler that is removed again leaves the handler stack as it was |
| MachineTheorems.ScopedHandlerAskedFirst | include/libevsig/_signals.h:46-48 | inside a handler's scope a signal of its type asks that handler first |
| MachineTheorems.EffectsAreSeen | include/libevsig/unwind.h:84-111 | other code leaves what it does to see and touches nothing of the library's state |
| MachineTheorems.RetryReestablishes | include/libevsig/_signals.h:59-63 | a retried restart is absent while its action runs and is pushed again with the same id and point onto the same stacks; an action that jumps goes further down |
| MachineTheorems.OneShotIsGone | include/libevsig/_signals.h:51-57 | a one-shot restart is absent during and after its action, which cannot jump back to it |
| MachineTheorems.ChainDescends | src/libevsig/signals.c:196-204 | a chain of restart actions that each jump, of one-shot and autopop restarts alike, is no longer than the restart stack |
| MachineTheorems.UnwindTerminates | src/libevsig/unwind.c:159-173 | from any reachable state and to any point, unwinding lands or ends the thread and returns to no autopop restart, when no waiting action holds one; restarts of any kind may be open |
| MachineTheorems.SignalTerminates | src/libevsig/signals.c:206-223 | the same for a signal |
| MachineTheorems.FinishTerminates | src/libevsig/unwind.c:193-198 | the same for one action |
| MachineTheorems.RetryFreeTerminates | src/libevsig/unwind.c:162-169 | the same for any code without autopop restarts of its own, from any reachable state |
| MachineTheorems.RetriesUntilItSucceeds | include/libevsig/_signals.h:59-63 | code in an autopop restart that fails k times and then succeeds ends after exactly k returns |
| MachineTheorems.CleanedPerReturn | src/libevsig/signals.c:214-215 | the data is cleaned as often as consulted handlers returned |
| MachineTheorems.CleanedOnceIff | src/libevsig/signals.c:211-222 | it is cleaned exactly once if and only if a user handler handles the signal and the topmost such one answers or is the only one |
| MachineTheorems.CleanedTwice | src/libevsig/signals.c:211-222 | a signal whose second handler is called with data already cleaned |
| MachineTheorems.RetryBoundIsAClock | include/libevsig/unwind.h:106-111 | the bound on returns to autopop restarts changes no run that ends within it |
| EvsigThread.Thread.SigInit | src/libevsig/signals.c:159-188 | the arrays after set-up are the initial state |
| EvsigThread.Thread.PushHandler | src/libevsig/signals.c:277-301 | the array operation appends the entry with the next id; a null handler gives id 0 |
| EvsigThread.Thread.RmHandler | src/libevsig/signals.c:303-325 | removal by id in place; id 0 is a no-op |
| EvsigThread.Thread.PushRestart | src/libevsig/signals.c:225-248 | appends the restart with the next id |
| EvsigThread.Thread.RmRestart | src/libevsig/signals.c:250-267 | removal by id in place |
| EvsigThread.Thread.RestartAvailable | src/libevsig/signals.c:269-275 | true if and only if some entry of the array has this very signal and type, `SIGNAL_ALL` ones and the order aside |
| EvsigThread.Thread.AddAction | src/libevsig/unwind.c:175-188 | registration in place |
| EvsigThread.Thread.DropAction | src/libevsig/unwind.c:206-207 | the top entry goes without being called |
| EvsigThread.Thread.RunAction | src/libevsig/unwind.c:193-198 | pop, then call, in place |
| EvsigThread.Thread.UnwindTo | src/libevsig/unwind.c:159-173 | the loop, whose index runs apart from the fill, computes `Machine.Unwind` although actions may push, pop, reallocate and jump |
| EvsigThread.Thread.RunRestart | src/libevsig/signals.c:196-204 | the scan unwinds to the selected restart, or finds none and changes nothing |
| EvsigThread.Thread.WalkHandlers | src/libevsig/signals.c:211-222 | the loop makes exactly the calls of the specification, with the data's clean-up after each |
| EvsigThread.Thread.SigSend | src/libevsig/signals.c:206-223 | computes `Machine.SendSignal` |
| EvsigThread.Thread.RestartBlock | include/libevsig/_signals.h:51-57 | computes `Machine.RestartScope` |
| EvsigThread.Thread.AutopopBlock | include/libevsig/_signals.h:59-63 | computes `Machine.Attempt` |
| EvsigThread.Thread.ActionBlock | include/libevsig/unwind.h:84-87 | computes `Machine.RunAction` |
| EvsigThread.Thread.ExplicitBlock | include/libevsig/unwind.h:92-95 | computes `Machine.RunExplicit` |
| EvsigThread.Thread.HandlerBlock | include/libevsig/_signals.h:46-48 | computes `Machine.RunHandler` |
| EvsigThread.Thread.Exec | include/libevsig/unwind.h:84-111 | any program run on the arrays ends in the state of `Machine.Run` |
| Compaction.KeepIsFilter | src/libevsig/thread_shutdown_signal.c:123-132 | what is kept is exactly what does not match, and kept plus removed is the whole list |
| Compaction.KeepInOrder | src/libevsig/thread_shutdown_signal.c:123-132 | what is kept keeps its order, with original positions as witnesses |
| Compaction.Compact | src/libevsig/thread_shutdown_signal.c:123-132 | the two-index loop leaves the filtered list in front, counts the removed elements and touches nothing beyond the fill |
| ShutdownInvariant.InitialInv | include/libevsig/thread_shutdown_signal.h:87-100 | the static initializer satisfies the invariant |
| ShutdownInvariant.StepKept | src/libevsig/thread_shutdown_signal.c:28-278 | every step of every thread keeps the invariant |
| ShutdownSteps.RegisterNewStep | src/libevsig/thread_shutdown_signal.c:94-98 | a thread not in the list is put at its end, and nothing else changes; a shutdown thread is created next if and only if none is started |
| ShutdownSteps.RegisterAgainStep | src/libevsig/thread_shutdown_signal.c:75-79 | registering a listed thread changes nothing |
| ShutdownSteps.ConfirmStep | src/libevsig/thread_shutdown_signal.c:117-143 | a confirmation takes the thread out of the thread list and touches neither callbacks nor flags |
| ShutdownSteps.SubscribeStep | src/libevsig/thread_shutdown_signal.c:170-177 | a callback gets the id after the last one and is put at the end; the thread list and the flags stay |
| ShutdownSteps.UnsubscribeStep | src/libevsig/thread_shutdown_signal.c:184-209 | the callback with that id is taken out; the thread list and the flags stay |
| ShutdownSteps.RequestStep | src/libevsig/thread_shutdown_signal.c:275 | a request records what was asked, in place of what was asked before |
| ShutdownSteps.OpenStep | src/libevsig/thread_shutdown_signal.c:276 | then it opens the event |
| ShutdownSteps.CloseStep | src/libevsig/thread_shutdown_signal.c:99 | before a shutdown thread is created the event is closed |
| ShutdownSteps.CreateStep | src/libevsig/thread_shutdown_signal.c:101-103 | the new thread waits for the event |
| ShutdownSteps.CreateFailsStep | src/libevsig/thread_shutdown_signal.c:105-108 | failing to create it ends the process |
| ShutdownSteps.MarkStep | src/libevsig/thread_shutdown_signal.c:110 | a created thread is recorded as started |
| ShutdownSteps.WakeStep | src/libevsig/thread_shutdown_signal.c:42 | an open event lets the shutdown thread pass and stays open |
| ShutdownSteps.TestStep | src/libevsig/thread_shutdown_signal.c:221 | it sends if and only if the flag is down |
| ShutdownSteps.FlagStep | src/libevsig/thread_shutdown_signal.c:224 | to send it first sets the flag |
| ShutdownSteps.StartStep | src/libevsig/thread_shutdown_signal.c:225 | the broadcast starts under the lock, at the first callback |
| ShutdownSteps.CallStep | src/libevsig/thread_shutdown_signal.c:226-227 | each callback of the list is called in turn |
| ShutdownSteps.CalledStep | src/libevsig/thread_shutdown_signal.c:226-228 | after the last the broadcast is over |
| ShutdownSteps.DrainedStep | src/libevsig/thread_shutdown_signal.c:237 | an empty list ends the wait |
| ShutdownSteps.FoundStep | src/libevsig/thread_shutdown_signal.c:237 | any other does not |
| ShutdownSteps.LookedStep | src/libevsig/thread_shutdown_signal.c:238-242 | after the unlock it sleeps, or leaves with false when the list was empty |
| ShutdownSteps.SleptStep | src/libevsig/thread_shutdown_signal.c:242-250 | after a sleep it looks again, unless that was the last one: then it leaves with true |
| ShutdownSteps.FreeStep | src/libevsig/thread_shutdown_signal.c:253-265 | leaving, it empties both lists and returns what the wait found |
| ShutdownSteps.ExitStep | src/libevsig/thread_shutdown_signal.c:60 | a shutdown thread that finds the latest request asking for it ends the process |
| ShutdownSteps.GoOnStep | src/libevsig/thread_shutdown_signal.c:60-61 | otherwise it goes on to retire |
| ShutdownSteps.CloseAgainStep | src/libevsig/thread_shutdown_signal.c:61 | retiring, it closes the event |
| ShutdownSteps.RetireStep | src/libevsig/thread_shutdown_signal.c:63 | and is no longer recorded as started |
| ShutdownSteps.ConfirmedIsGone | src/libevsig/thread_shutdown_signal.c:117-143 | after a confirmation the list holds every thread it held but that one |
| ShutdownSteps.UnsubscribedIsGone | src/libevsig/thread_shutdown_signal.c:184-209 | after an unsubscription the list holds every callback it held but that one |
| ShutdownSteps.RegisteredIsListed | src/libevsig/thread_shutdown_signal.c:75-95 | after a registration the list holds that thread and every thread it held |
| ShutdownTheorems.MutualExclusion | src/libevsig/evsig_mutex.c:34-66 | in every interleaving the master word is 1 exactly when a thread is between its compare-and-swap and its store of 0, and only one is |
| ShutdownTheorems.OneShutdownThread | src/libevsig/thread_shutdown_signal.c:97-111 | never two shutdown threads, until their last unlock; `shutdown_thread_started` tells whether there is one that has not retired, except while one is created, and then it has no step to take |
| ShutdownTheorems.RequestNotLost | src/libevsig/thread_shutdown_signal.c:272-278 | no step takes away a waiting shutdown thread's ability to pass |
| ShutdownTheorems.RequestReachesWaiter | src/libevsig/thread_shutdown_signal.c:272-278 | after a request made while a shutdown thread waits, in every continuation that thread has passed or can pass |
| ShutdownTheorems.OnlyWaitersAreReached | src/libevsig/thread_shutdown_signal.c:58-65 | a thread finds the event open without a new request only if it was already waiting: requests made before its birth or after its wait never let it pass |
| ShutdownTheorems.RequestReachesExactlyWaiters | src/libevsig/thread_shutdown_signal.c:272-278 | a request lets a thread pass if and only if that thread is waiting when it is made |
| ShutdownTheorems.WakesNobodyIffNobodyWaits | src/libevsig/thread_shutdown_signal.c:97-102 | a request lets nobody pass, however the run goes on, if and only if nobody waits when it is made |
| ShutdownTheorems.RequestNotStale | src/libevsig/thread_shutdown_signal.c:42 | a shutdown thread passes its wait only after a request made since its creation |
| ShutdownTheorems.ExitOnlyIfAsked | src/libevsig/thread_shutdown_signal.c:58-60 | the process is ended only if the latest request asked for it |
| ShutdownTheorems.ExitsIffAsked | src/libevsig/thread_shutdown_signal.c:58-65 | at the decision it is ended if and only if the latest request asked for it |
| ShutdownTheorems.BornAfterRetirement | src/libevsig/thread_shutdown_signal.c:97-111 | a shutdown thread is created only when every earlier one has retired |
| ShutdownTheorems.ThreadListExact | src/libevsig/thread_shutdown_signal.c:70-143 | until it is freed the thread list has no duplicates and holds exactly the threads registered and not confirmed since |
| ShutdownTheorems.WaitIsSound | src/libevsig/thread_shutdown_signal.c:230-251 | a send that returns false passed a moment, after the flag was set, at which no registered thread was unconfirmed |
| ShutdownTheorems.LookSeesList | src/libevsig/thread_shutdown_signal.c:235-240 | in any run a look at the thread list ends the wait if and only if no registered thread is unconfirmed at that moment; otherwise the thread goes to another sleep |
| ShutdownTheorems.SentFalseIffDrained | src/libevsig/thread_shutdown_signal.c:230-265 | a send returns false if and only if one of its looks found no registered thread unconfirmed |
| ShutdownTheorems.NoCallTwice | src/libevsig/thread_shutdown_signal.c:221-228 | in no run is a callback called twice or out of the order of registration |
| ShutdownTheorems.BroadcastExactlyOnce | src/libevsig/thread_shutdown_signal.c:221-228 | a finished send called exactly the callbacks registered when it took the lock, once each, in order, and none is called before or after |
| ShutdownTheorems.StaleUnregisterIsNoOp | src/libevsig/thread_shutdown_signal.c:184-209 | ids are not reused: unregistering one a second time changes nothing |
| ShutdownSending.FlaggedOnce | src/libevsig/thread_shutdown_signal.c:221-224 | only one thread ever sets the flag |
| ShutdownSending.UndecidedKeeps | src/libevsig/thread_shutdown_signal.c:221-224 | the flag does not change while a shutdown thread waits and until it has decided, although test and set are two steps |
| ShutdownSending.WaiterDecides | src/libevsig/thread_shutdown_signal.c:221-224 | a thread that waited sees the flag as it was then, and sets it if and only if it was down |
| ShutdownSending.SentIffFlagged | src/libevsig/thread_shutdown_signal.c:216-266 | a thread back from `send_block` has sent if and only if it set the flag |
| ShutdownSending.WokenSendsIff | src/libevsig/thread_shutdown_signal.c:42-52 | a thread that waited has sent when it is back if and only if the flag was down while it waited |
| ShutdownSending.RequestSendsIff | src/libevsig/thread_shutdown_signal.c:272-278 | a request lets a thread pass and that thread sends if and only if it was waiting and the flag was down when the request was made |
| ShutdownSending.ExitWaitedIff | src/libevsig/thread_shutdown_signal.c:54-65 | when the process ends the latest request asked for it; the thread ending it has made a broadcast and a wait of its own, complete or timed out, if and only if the flag was down while it waited |
| ShutdownRuns.ConfirmedInTime | src/libevsig/thread_shutdown_signal.c:235-240 | a run in which the registered thread confirms during the send, the next look finds nobody left, and the send returns false |
| ShutdownRuns.EarlyRequestIsForgotten | src/libevsig/thread_shutdown_signal.c:97-102 | a run in which a request is made, then the first registration creates the shutdown thread, and that thread has no step it can take |
| ShutdownRuns.BusyRequestIsObeyed | src/libevsig/thread_shutdown_signal.c:58-60 | a run in which a request reaches no waiting thread and still ends the process |
| ShutdownRuns.SecondEndsAtOnce | src/libevsig/thread_shutdown_signal.c:221 | a run in which a second shutdown thread is woken, sends nothing and ends the process with a registered thread unconfirmed |
| ShutdownSignal.GrowingList.Append | src/libevsig/thread_shutdown_signal.c:81-95 | insertion appends one element, growing from no array to 8 slots and then by doubling |
| ShutdownSignal.GrowingList.Remove | src/libevsig/thread_shutdown_signal.c:123-140 | removal filters the list and gives the array back exactly when the list is empty |
| ShutdownSignal.Signal.constructor | include/libevsig/thread_shutdown_signal.h:87-100 | the initializer is the protocol's initial state |
| ShutdownSignal.Signal.Registered | src/libevsig/thread_shutdown_signal.c:75-79 | the scan finds a thread if and only if it is in the list |
| ShutdownSignal.Signal.RegisterThread | src/libevsig/thread_shutdown_signal.c:70-115 | the body does to the structure what the protocol's steps do, and creates a shutdown thread exactly when the thread is new and none is started |
| ShutdownSignal.Signal.ConfirmShutdown | src/libevsig/thread_shutdown_signal.c:117-143 | implements the protocol's confirmation, freeing an empty list |
| ShutdownSignal.Signal.RegisterCb | src/libevsig/thread_shutdown_signal.c:145-182 | implements the subscription: next id, appended last |
| ShutdownSignal.Signal.UnregisterCb | src/libevsig/thread_shutdown_signal.c:184-209 | implements the unsubscription; the other callbacks keep function, data and order |
| ShutdownSignal.Signal.SendAsync | src/libevsig/thread_shutdown_signal.c:272-278 | implements the request: records what was asked and opens the event |
| ShutdownSignal.Signal.Broadcast | src/libevsig/thread_shutdown_signal.c:226-227 | the loop calls the listed callbacks in order |
| ShutdownSignal.IdsDrop | src/libevsig/thread_shutdown_signal.c:189-198 | removing callbacks by id is removing ids |
| TimedWait.ScheduleAt | src/libevsig/thread_shutdown_signal.c:232-244 | from the tenth sleep on each lasts 20000 microseconds, after 32704 in the first nine |
| TimedWait.ExpiredByThen | src/libevsig/thread_shutdown_signal.c:246-250 | after the bounded number of sleeps the timeout has passed, however long the sleeps really took |
| TimedWait.FiveSeconds | src/libevsig/thread_shutdown_signal.c:47-48 | for the timeout used by the shutdown thread the bound is 258 sleeps |
| TimedWait.Wait | src/libevsig/thread_shutdown_signal.c:230-251 | for any readings of the clock, set back or not, the loop ends at the first look that finds no thread or the first reading past the timeout, having slept by the schedule; on a clock that goes forward, within the bound |
| TimedWait.EndsAtFirstStop | src/libevsig/thread_shutdown_signal.c:235-251 | a wait can end after n sleeps if and only if that is the first look or reading that gives a reason |
| TimedWait.ForwardClockStops | src/libevsig/thread_shutdown_signal.c:235-251 | a clock that goes forward always gives one |
| TimedWait.TimesOutInTime | src/libevsig/thread_shutdown_signal.c:242-250 | with exact sleeps a timeout of T ms fires after more than T - 1 ms and less than T ms plus one longest sleep |
| TimedWait.BoundIsMet | src/libevsig/thread_shutdown_signal.c:230-251 | the bound on the number of sleeps is reached |
| TimedWait.ExactWait | src/libevsig/thread_shutdown_signal.c:230-251 | with exact sleeps every wait ends within the bound, and times out in time |
| TimedWait.ExpiredIff | src/libevsig/thread_shutdown_signal.c:246 | for any two readings, when the test holds: the timeout has passed in whole milliseconds, or the clock was set back before the millisecond of the start |
| TimedWait.SetBackExpires | src/libevsig/thread_shutdown_signal.c:246 | a clock set back by one microsecond across a millisecond ends a wait of five seconds; one set back inside a millisecond does not |
| Fnv.FnvHash | src/libevsig/evsig_mutex.c:8-18 | the loop computes the hash state of the whole key |
| Fnv.StepUndone | src/libevsig/evsig_mutex.c:11-15 | for a fixed byte a step is a permutation with an explicit inverse |
| Fnv.StepSeparates | src/libevsig/evsig_mutex.c:11-15 | different bytes lead from one state to different states |
| Fnv.HashKeepsApart | src/libevsig/evsig_mutex.c:8-18 | hashing the same bytes never merges two states |
| Fnv.OneByteSeparates | src/libevsig/evsig_mutex.c:8-18 | keys of one length that differ in exactly one byte have different hashes |
| Rand64.NextSeedUndone | src/libevsig/evsig_mutex.c:28-31 | a draw is a permutation of the 64-bit words with an explicit inverse |
| Rand64.AlwaysSeeded | src/libevsig/evsig_mutex.c:22-32 | once seeded the seed is never 0 again, after any number of draws |
| Rand64.OrbitReturns | src/libevsig/evsig_mutex.c:28-31 | from every seed the sequence returns to it, in fewer than 2^64 draws |
| ClockTicks.ConsecutiveSeparate | src/libevsig/evsig_mutex.c:23-26 | two consecutive 64-bit words, as keys of eight bytes, never hash alike, however many bytes the carry changes |
| ClockTicks.OneTickIsEnough | src/libevsig/evsig_mutex.c:23-26 | of two consecutive readings of the clock at least one gives a seed |
| ClockTicks.OneByteIsEnough | src/libevsig/evsig_mutex.c:23-26 | so does one of two readings that differ in one byte |
| Rand64.Generator.Draw | src/libevsig/evsig_mutex.c:22-32 | the seed advances by one draw, taken from the first clock reading that hashes to a seed; the clock is not read when there is one |

## Left out

- Handlers that use the library themselves: a user handler is an answer, so signals sent, scopes opened or handlers removed inside a handler are not modelled.
- `UNWIND` called by user code on a return point of its own: jumps arise from signals only.
- `catchall_handler`'s backtrace and printing, and the clean-up after it: an unhandled signal is a terminal outcome.
- `sig_cleanup` and `unwind_cleanup`: runs end before them. They free the two signal stacks before running actions that edit them, and decrement after the call, so no claim is made there.
- Allocation failures and a failing `pthread_create`: the process ends.
- `MachineTheorems.RetryBoundIsAClock`: infinite runs are covered only through all their finite bounds; what an endless retry does is not stated.
- Loops and exits of user code: a loop that ends is its unrolling into branches; endless loops other than retries, and calls of `exit`, are not modelled.
- TimedWait.Wait: a wait that never ends, because the list stays full and the clock never shows the timeout, is not a run of the method.
- The timeout in the protocol is the choice `failed` of the step that ends a sleep: any sleep may be the last. `TimedWait` says when it is; the two are not connected.
- Ids are natural numbers: the wrap-around of 64-bit ids after 2^64 registrations is not modelled.
- `_sig_assert_handler` and `_sig_assertwarn_handler`: plain scans.
- Operating-system signals and signal masks: a delivered signal is a request made by some client thread.
- Memory ordering: the interleavings are sequentially consistent.
- The back-off of `evsig_lock` and `evsig_await_unlock`: a failed attempt is a step that changes nothing.
- Freeing the lists at the end of `send_block` is one step, and nothing is claimed about the lists after it; the pointer to the freed callbacks stays set there, which the sequences do not show.
- Callbacks that take the master lock, and several senders at once: a send comes from the shutdown thread.
- ShutdownSignal.Signal.RegisterThread: runs without interruption, which is right because its caller holds the lock; the interleaving is in the protocol.
- ShutdownTheorems.OneShutdownThread: a shutdown thread counts until its last unlock; after that it only returns.
- Liveness of the protocol: what is enabled is stated, not that the scheduler picks it.
- `sigwrap*.c`, `errno_signals.c` and `src/cli/main.c`: wrappers, a table and a demo.
