# The RTX kernel: a model and its proofs

RTX is a small message-passing kernel with priority scheduling, written twice: for a ColdFire board (`coldfire/`) and as
a Unix process driven by signals (`unix/`). Processes own message envelopes, send them to each other's mailboxes, wait
for a message or for a free envelope, and are picked from an array of FIFO queues, one a priority. I-processes serve
interrupts (or signals): the timer, the console output and the console input.

The code relies on global facts that it never states. This project states and proves them. The ColdFire kernel is the
main model; the signal masking, the handshake with the CRT helper program and the trace buffer with its unsigned index
are taken from the Unix kernel.

## How it is built

| file | what is in it |
|---|---|
| `Common.dfy`, `CStrings.dfy` | codes, states, options, and C strings |
| `KernelSpec.dfy` | the kernel's tables as values and each primitive as a function on them; the two blocking loops are cut at the process switch |
| `KernelSystem.dfy`, `KernelQueues.dfy`, `KernelPreservation.dfy` | the transition system (primitives, resumptions, interrupts), its invariant `Inv`, and the proof that every step keeps it |
| `KernelRuns.dfy`, `KernelDispatch.dfy` | boot, whole runs, envelope counts, what a switch picks and how long a ready process waits |
| `KernelEffects.dfy` | what every step does to every field of the tables, written out before and after, the result codes included |
| `MsgEnvQueues.dfy`, `ProcQueues.dfy` | the intrusive lists on the heap, with `head`, `tail` and shared `next` fields |
| `KernelTails.dfy` | which block a call enqueues at which level, and the levels whose tail has been lost |
| `KernelHeap.dfy`, `KernelRefinement.dfy`, `KernelBoot.dfy` | the kernel on the heap: each primitive equals its function, each call is one step, whole runs of calls are runs of the system, and the boot code builds its initial state |
| `TimerSpec.dfy`, `TimerHeap.dfy` | the deadline list and the tick of the timer i-process, as values and on the heap |
| `Masking.dfy` | `atomic()`, the signal handlers and i-process entry and exit, one machine step at a time |
| `Crt.dfy` | the shared buffer between CRT i-process and helper, character by character |
| `Uart.dfy` | the transmit half of the UART i-process |
| `TraceRing.dfy` | the trace ring, its dump, and both versions of the search for its head |
| `Stash.dfy`, `Pipeline.dfy` | waiting for one message while stashing the others, and the counter that goes from A through B to C |
| `Numbers.dfy`, `Printf.dfy`, `WallClock.dfy`, `Tokeniser.dfy` | `%d` and `rtx_atoi`, `rtx_sprintf`, the clock text, `rtx_strtok` |

Code that changes things in place is a class or a method over arrays here as well, and each such method is proved equal
to a function on values; the properties are proved about the functions and about all runs. Protocols between parties
that run at the same time (signals against the kernel, i-process against helper program, processes under any schedule)
are transition systems over their smallest steps.

`dafny verify dfyconfig.toml` checks the whole project.

## Where the code does not do what it seems meant to do

The model keeps the code as it is. Each of these has a condition that is exact, and most an example.

- `proc_queue_remove` leaves `tail` on the block it removes when that block is the last of several. `ProcQueue.Remove`
  proves that exactly this case makes the tail stale. In the kernel the one caller is `k_change_priority`, which puts the
  block at the end of another level (`KernelTails.Stranded` tells which level that leaves stale). Nothing is lost yet:
  dequeues do not read `tail`, and once the level has been emptied its next enqueue sets `tail` anew. A block is lost by
  an enqueue at a level that is stale and not empty: it is linked behind a block outside. `Execute` proves that a call
  goes wrong if and only if it makes such an enqueue (`KernelTails.Misses`, a test on the state before the call), and
  `RunCalls` that everything proved of the transition system holds of the heap until the first call that does.
  `MissHappens` is a booted system whose second call does it. If nothing comes between the move of the last block and
  such an enqueue, the block enqueued comes to the end of the other level instead (`EnqueueAfterLostTail`), and the next
  enqueue there cuts it off (`LostByBothQueues`).
- `k_change_priority` (ColdFire) reads through NULL for an unknown pid. The outcome `NullDereference` stands for that;
  runs exclude it as something a caller must not do.
- `timeout_queue_insert` reads through NULL when its search runs off the end of a list of two or more
  (`TimerSpec.RunsOff`). The word read is never used: `TimerHeap.TimeoutQueue.Insert` is right wherever address 0 can be
  read, and otherwise traps in exactly that case.
- `atomic(ON)` counts first and blocks the signals afterwards. A signal that arrives in between is served with the
  other signals open, and by itself is harmless (`OneInWindowIsHarmless`). What matters is a delivery while an i-process
  runs. As long as there is none, whatever arrives in the windows, no assertion fails (`RunIsSafe`); after one nothing
  returns to the i-process, and within twenty steps the program has failed the assertion in `k_i_process_enter` or has
  been terminated by SIGINT (`SignalToIProcessIsFatal`). So the assertion fails only after such a delivery
  (`FailsOnlyAfterSignalToIProcess`), which is possible exactly if a primitive or handler under the i-process was
  interrupted in its window and no handler for that signal is stacked (`IProcessIsOpen`), and a run from the start gets
  there (`AssertionCanFail`).
- The CRT i-process tests the shared flag twice in one entry. If the helper finishes between the tests and another
  message waits, the previous message is never acknowledged. That is the only way to lose an acknowledgement
  (`AckedExactlyOnce`), it happens (`OvertakingHappens`), and it is for good (`ForgottenForGood`).
- A negative delay overtakes envelopes that are due already. The lateness of an envelope is its position at its due tick
  if and only if nothing has overtaken it by then (`LateByPosition`); `ExactLateness` says when it comes for all delays.
- On ColdFire `uint32_t` is a signed type, so that the search for the head of the trace ring never ends while nothing
  has been logged, and only then (`SignedSearchEnds`).
- `rtx_sprintf` divides by zero for `%d` exactly when the number has more than nine digits and is not the smallest
  32-bit number (`DividesExactly`); that one, whose negation is itself, prints as `0-` behind its padding, or over the
  character in front of it (`SmallestPrints`). A zero without a width overwrites the character in front of it
  (`ZeroPrints`); a zero-filled negative number cannot be read back (`AtoiInvertsPrint`).
- `rtx_atoi` takes `:` for the digit ten, so that a text that is no time of day can set one (`AcceptsColon`), and it
  takes a sign inside a field, which can set the clock to what is no time of day (`AcceptsSign`). An accepted text sets a
  time of day if and only if its first field that is not zero, if any, is positive (`SetsTimeOfDay`), and always without
  a minus sign (`UnsignedSetsTimeOfDay`). What is accepted shows as it was typed if and only if all six
  characters are digits, or each field is 00 or a minus sign with one of 1 to 9 (`AcceptedIsShown`).
- The test in `proc_queue_dequeue` that would clear `tail` can never succeed; `tail` is stale in an empty queue, and
  harmless there.

## Model

| member | source | states |
|---|---|---|
| KernelPreservation.StepKeepsInv | coldfire/kern/src/k_primitives.c:10-188 | every primitive, resumption and interrupt keeps the whole invariant: queues hold exactly the processes in the matching state at their priority, one process executes, each envelope is in one place, counts agree, no wake-up is lost |
| KernelPreservation.SendKeeps | coldfire/kern/src/k_primitives.c:10-38 | a send that moves an envelope into a mailbox, and wakes its owner if it waited, keeps the invariant |
| KernelPreservation.ReleaseKeeps | coldfire/kern/src/k_primitives.c:85-108 | a release keeps the invariant; in particular the free envelopes stay no more than the processes woken for one while anyone is blocked |
| KernelPreservation.RequestKeeps | coldfire/kern/src/k_primitives.c:58-83 | a turn of the request loop keeps the invariant, also when the envelope a process was woken for has been taken by another and it blocks again |
| KernelPreservation.ChangePriorityKeeps | coldfire/kern/src/k_primitives.c:149-188 | a change of priority moves the process to its new level of the queue it is in, and keeps the invariant |
| KernelPreservation.InterruptKeeps | coldfire/kern/src/isr_handler.c:9-39 | swapping an i-process in keeps the invariant, with the interrupted process still the one that executes |
| KernelSystem.IdleIsQueuedOrRunning | coldfire/kern/src/k_scheduler.c:7-20 | a switch always finds a process: some ready queue is not empty, or the null process is the one running |
| KernelRuns.BootIsGood | coldfire/kern/src/k_process.c:69-116 | for every process table with one null process, the state after boot satisfies the invariant |
| KernelRuns.BootBlocks | coldfire/kern/src/k_process.c:79-97 | every block starts with the pid, priority and kind of its table entry, an empty mailbox and no envelopes, and ready, but for the one that executes |
| KernelRuns.BootPicks | coldfire/kern/src/k_process.c:69-116 | the first process to run is the first entry of the table among those with the best priority, i-processes aside |
| KernelRuns.RunKeepsInv | coldfire/kern/src/k_primitives.c:10-188 | every run of any length ends in a state with the invariant, over the same envelopes |
| KernelRuns.EnvelopesAddUp | coldfire/kern/src/k_primitives.c:10-108 | the two pool lengths and the sum of all env_owned are together the number of envelopes |
| KernelRuns.ResumedReceiverHasMail | coldfire/kern/src/k_primitives.c:40-55 | a process resumed in the receive loop finds a message and takes it, so the loop blocks at most once a call |
| KernelDispatch.SwitchDequeues | coldfire/kern/src/k_scheduler.c:7-20 | a switch gives the processor to exactly the process at the front of the first non-empty level |
| KernelDispatch.SwitchPicksBest | coldfire/kern/src/k_scheduler.c:7-20 | after a switch no ready process has a better priority than the one that runs |
| KernelDispatch.WaitIsBounded | coldfire/kern/src/proc_pq.c:29-59 | with i others ahead of it in its level, no better level ready at a switch and its priority unchanged, a process runs within i + 1 switches |
| KernelEffects.SendCode | coldfire/kern/src/k_primitives.c:12-37 | 0, or -1 without an envelope, or else -2 without such a process |
| KernelEffects.RefusedSend | coldfire/kern/src/k_primitives.c:12-21 | a send that is refused changes nothing |
| KernelEffects.SendAddresses | coldfire/kern/src/k_primitives.c:23-24 | the envelope sent bears the pid of the caller as its sender and that of the target as its receiver, and no other envelope's pids change |
| KernelEffects.SendDelivers | coldfire/kern/src/k_primitives.c:26-33 | it is the last in the target's mailbox, one count goes up and one down, and a target that waited for a message is ready and last at its level; nothing else changes |
| KernelEffects.ReceiveTakes | coldfire/kern/src/k_primitives.c:42-54 | the first envelope of the mailbox is taken and nothing else changes |
| KernelEffects.IProcessReceivesNull | coldfire/kern/src/k_primitives.c:44-47 | an i-process with an empty mailbox gets NULL and nothing changes |
| KernelEffects.RequestTakes | coldfire/kern/src/k_primitives.c:60-82 | a request that need not wait takes the first free envelope, or for an i-process alone the first of the system's, or NULL |
| KernelEffects.SwitchLeaves | coldfire/kern/src/k_primitives.c:48-79 | a caller that gives the processor up is in the state its call says, at the end of its level if it waits for an envelope; apart from that only the process dequeued changes, which executes |
| KernelEffects.YieldJoins | coldfire/kern/src/k_primitives.c:113 | a process that yields joins the end of its level before the switch |
| KernelEffects.ReleaseCode | coldfire/kern/src/k_primitives.c:85-108 | 0, or -1 without an envelope, which changes nothing |
| KernelEffects.SystemRelease | coldfire/kern/src/k_primitives.c:92-95 | an envelope of the system's goes to the end of its pool, one off the caller's count, and nobody is woken |
| KernelEffects.OrdinaryRelease | coldfire/kern/src/k_primitives.c:96-106 | any other goes to the end of the free pool, one off the caller's count |
| KernelEffects.ReleaseWakes | coldfire/kern/src/k_primitives.c:99-104 | of the processes waiting for an envelope the first at the best level, and no other, is taken from there and is ready and last at its level |
| KernelEffects.ReleaseWakesNobody | coldfire/kern/src/k_primitives.c:99-104 | with nobody waiting the queues and states stay |
| KernelEffects.ChangePriorityCode | coldfire/kern/src/k_primitives.c:149-188 | 0 for a legal priority and a process that is no i-process and not the null process, and otherwise -2, but for the read through NULL |
| KernelEffects.ChangePrioritySets | coldfire/kern/src/k_primitives.c:168-185 | such a call gives the target the priority, whatever state it is in, and changes no other field of it and no other block; any other call changes nothing |
| KernelEffects.ChangePriorityMoves | coldfire/kern/src/k_primitives.c:168-185 | the queue the target is in has it at the end of its new level, the others in order; otherwise the queues stay |
| KernelEffects.InterruptRuns | coldfire/kern/src/isr_handler.c:11-31 | the i-process is current, the process it interrupts is kept, and no field of any block changes |
| KernelEffects.ReturnGoesBack | coldfire/kern/src/isr_handler.c:37-38 | the process that was kept is current again and the slot is empty |
| MsgEnvQueues.MsgEnvQueue.Enqueue | coldfire/kern/src/msg_env_queue.c:48-68 | appends to the list the chain stands for; NULL changes nothing and is an error |
| MsgEnvQueues.MsgEnvQueue.Dequeue | coldfire/kern/src/msg_env_queue.c:26-45 | takes the front off the list, with next cleared, or returns NULL from an empty one |
| MsgEnvQueues.MsgEnvQueue.Size | coldfire/kern/src/msg_env_queue.c:70-85 | the loop counts the list |
| MsgEnvQueues.MsgEnvQueue.Has | coldfire/kern/src/msg_env_queue.c:87-102 | the loop finds an envelope if and only if it is in the list |
| ProcQueues.ProcQueue.Dequeue | coldfire/kern/src/proc_queue.c:30-48 | takes the front off the list and never touches tail |
| ProcQueues.ProcQueue.Enqueue | coldfire/kern/src/proc_queue.c:50-69 | appends when tail is in place; with a tail inside the list cuts off what follows it; with a tail outside the list does not change and the block is linked behind that tail |
| ProcQueues.ProcQueue.Remove | coldfire/kern/src/proc_queue.c:71-98 | takes the block out of the list wherever it is, and leaves tail in place if and only if it was not the last of several |
| ProcQueues.EnqueueAfterLostTail | coldfire/kern/src/k_primitives.c:172-180 | after the last of several has moved to the end of another queue, the block enqueued next is not in its own list but at the end of the other one, whose tail is in front of it |
| ProcQueues.LostByBothQueues | coldfire/kern/src/proc_queue.c:50-92 | the enqueue after that at the other queue restores that queue and leaves the block in neither list |
| ProcQueues.ProcPq.Dequeue | coldfire/kern/src/proc_pq.c:29-44 | the scan takes the front of the first non-empty level and leaves the other levels alone; a level it empties is stale no more |
| ProcQueues.ProcPq.Enqueue | coldfire/kern/src/proc_pq.c:46-59 | appends to the level of the block's priority if that is not stale, and otherwise leaves that level as it was and links the block behind its lost tail; reports an illegal priority and changes nothing |
| ProcQueues.ProcPq.Remove | coldfire/kern/src/proc_pq.c:66-75 | takes the block out of the level of its priority, which becomes stale if the block was the last of several |
| ProcQueues.Requeue | coldfire/kern/src/k_primitives.c:170-180 | remove, new priority and enqueue: the block comes to the end of its new level if and only if that is not stale, and the old level is stale if the block was last behind another |
| KernelHeap.Kernel.GetProcess | coldfire/kern/src/k_process.c:12-23 | of all blocks of the table the first one with the pid, and NULL if and only if none has it |
| KernelHeap.Kernel.ProcessSwitch | coldfire/kern/src/k_scheduler.c:7-20 | on the heap the switch does what its function does, whatever the tails, and keeps track of the stale levels |
| KernelHeap.Kernel.SendMessage | coldfire/kern/src/k_primitives.c:10-38 | on the heap the call does exactly what its function does, unless it readies a process at a stale level; in every case the codes and the sender and receiver written into the envelope are as stated, and no other envelope is written |
| KernelHeap.Kernel.ReceiveTurn | coldfire/kern/src/k_primitives.c:40-55 | one turn of the receive loop on the heap equals its function |
| KernelHeap.Kernel.RequestTurn | coldfire/kern/src/k_primitives.c:58-83 | one turn of the request loop on the heap equals its function, unless it enqueues the caller at a stale level |
| KernelHeap.Kernel.ReleaseMsgEnv | coldfire/kern/src/k_primitives.c:85-108 | on the heap the call equals its function, the right pool by the kind of envelope and one blocked process moved to ready, unless its level is stale |
| KernelHeap.Kernel.ReleaseProcessor | coldfire/kern/src/k_primitives.c:111-116 | on the heap the call equals its function, unless the level of the caller is stale |
| KernelHeap.Kernel.ChangePriority | coldfire/kern/src/k_primitives.c:149-188 | on the heap the call equals its function, unless the new level is stale, and the stale levels afterwards are named; in every case the target has the new priority, the other blocks theirs, and the code is as stated |
| KernelHeap.Kernel.IsrEnter | coldfire/kern/src/isr_handler.c:9-30 | source 1 runs the block with pid -2 and source 2 the one with pid -3, with the process interrupted in the slot; from another source, or without the block, nothing runs |
| KernelHeap.Kernel.IsrExit | coldfire/kern/src/isr_handler.c:37-38 | the interrupted process is current again and the slot is empty |
| KernelTails.StepLists | coldfire/kern/src/k_primitives.c:10-188 | the block that a step of the transition system enqueues is at its level after the step, also when the heap loses it |
| KernelRefinement.Execute | coldfire/kern/src/k_primitives.c:10-188 | after one call the heap stands for the state after the step if and only if the call does not enqueue at a stale level, and the stale levels afterwards are named |
| KernelRefinement.RunCalls | coldfire/kern/src/k_primitives.c:10-188 | a run of calls on the heap is a run of the transition system up to the first call that enqueues at a stale level; with that call last, the heap does not stand for the state at the end |
| KernelRefinement.HeapAddsUp | coldfire/kern/src/k_primitives.c:10-108 | the lengths of the two pool queues and the env_owned counts of the blocks are together the number of envelopes on the heap |
| KernelBoot.FillPool | coldfire/kern/src/k_ipc.c:32-48 | the loop fills a pool with that many different envelopes, each with a message |
| KernelBoot.KInit | coldfire/kern/src/k_init.c:136-193 | the boot code builds on the heap exactly the initial state of the transition system, which satisfies the invariant, over 34 envelopes, with each block filled in from its entry |
| KernelBoot.RunBooted | coldfire/kern/src/k_init.c:136-193 | after a run of calls on a booted heap in which none enqueues at a stale level, the heap stands for a state with the invariant, and pools and counts add up to the 34 envelopes |
| KernelBoot.StrandingHappens | coldfire/kern/src/k_primitives.c:168-180 | a booted system of four processes whose first process can make the call that leaves a level stale |
| KernelBoot.MissHappens | coldfire/kern/src/k_primitives.c:168-180 | its next call, which moves the block back, enqueues at that level |
| TimerSpec.InsertKeepsSorted | coldfire/kern/src/timeout_queue.c:7-47 | an insert keeps the list sorted by deadline |
| TimerSpec.InsertIsTheStableOne | coldfire/kern/src/timeout_queue.c:20-47 | of all places, the one taken is the only one that keeps the order and stands before equal deadlines |
| TimerSpec.InsertShifts | coldfire/kern/src/timeout_queue.c:30-47 | every other entry keeps its place relative to the rest, moved by one if its deadline is not earlier |
| TimerSpec.TickSends | coldfire/kern/src/timer_i_process.c:8-29 | a tick adds one to the clock, enters every request with that clock plus its delay, and sends an envelope if and only if some deadline has come: one of those with the earliest; no other entry is lost or changed |
| TimerSpec.RunsOffExactly | coldfire/kern/src/timeout_queue.c:33-42 | a tick reads through NULL if and only if one of its requests is due after everything listed and everything requested before it, and these are two or more |
| TimerSpec.WaitsUntilDue | coldfire/kern/src/timer_i_process.c:8-29 | up to its deadline an envelope stays in the list, once, with its deadline |
| TimerSpec.AdvancesOnceDue | coldfire/kern/src/timer_i_process.c:8-29 | from its deadline on it moves to the front by one place a tick and back by one for each request due no later, and is gone for good once it has been in front |
| TimerSpec.ExactLateness | coldfire/kern/src/timer_i_process.c:8-29 | for all delays: an envelope at position q after the inserts of its due tick is returned in the first tick from then on in which q and the overtakers so far equal the ticks gone by, and at no other tick of the run |
| TimerSpec.LateByPosition | coldfire/kern/src/timer_i_process.c:8-29 | it is returned q ticks after its due tick if and only if nothing has overtaken it by then |
| TimerSpec.NonNegativeDelaysDoNotOvertake | coldfire/kern/src/timeout_queue.c:10-11 | requests with delays that are not negative never overtake an envelope that is due |
| TimerSpec.NegativeDelayOvertakes | coldfire/kern/src/timeout_queue.c:23-28 | a negative delay can put a due envelope off |
| TimerHeap.TimeoutQueue.Search | coldfire/kern/src/timeout_queue.c:30-42 | the loop finds the insertion point, and reads through NULL exactly when it runs off a list of two or more |
| TimerHeap.TimeoutQueue.Insert | coldfire/kern/src/timeout_queue.c:7-47 | the linked list becomes the sorted list with the new envelope in its place, unless the read through NULL traps |
| TimerHeap.TimeoutQueue.CheckTimeout | coldfire/kern/src/timeout_queue.c:60-75 | takes the head if and only if it is due |
| TimerHeap.TimerProcess.Tick | coldfire/kern/src/timer_i_process.c:8-27 | an interrupt on the heap, up to the send, is one tick of the timer's function: clock, drained mailbox, list and the envelope to be sent back; it is to go to the process that sent it, and no envelope that waits changes its sender |
| Masking.NextKeepsSound | unix/kern/src/k_signal_handler.c:49-141 | with signals in the windows allowed, every step but a delivery to an i-process keeps masks, saved masks, counts and stacks in order and fails no assertion |
| Masking.NextKeepsGood | unix/kern/src/k_signal_handler.c:49-141 | without a signal in the window, moreover, no frame is ever interrupted in its window and no i-process is interrupted |
| Masking.OnlyTheWindowIsBad | unix/kern/src/k_atomic.c:22-33 | a step leaves the states without an interrupted window if and only if it delivers a signal between the count and the sigprocmask call |
| Masking.BootIsGood | unix/kern/src/k_process.c:105-126 | the state after the first atomic(OFF) is good: the others will start with theirs, at count 1 |
| Masking.RunIsSafe | unix/kern/src/k_signal_handler.c:96-141 | in every run in which no signal is delivered while an i-process runs, no assertion fails, i-processes never nest, and flag and slot are free when one is entered |
| Masking.SignalToIProcessIsFatal | unix/kern/src/k_signal_handler.c:97-121 | after a signal delivered while an i-process runs, the i-process never goes on: every run ends within twenty steps, in the failed assertion or in the SIGINT exit |
| Masking.FailsOnlyAfterSignalToIProcess | unix/kern/src/k_signal_handler.c:97-100 | in every run that fails the assertion a signal was delivered before while an i-process ran |
| Masking.IProcessIsOpen | unix/kern/src/k_atomic.c:22-33 | a signal can be delivered while an i-process runs if and only if a frame below it was interrupted in its window and no handler for the signal is stacked |
| Masking.WindowsComeFirst | unix/kern/src/k_atomic.c:22-33 | in a run without a signal in a window none is delivered to an i-process |
| Masking.CountTellsMask | unix/kern/src/k_atomic.c:20-43 | a signal is blocked if and only if the count of the running process is positive or a handler for it has not returned, with the difference at the two points between a count and its sigprocmask call spelt out; waiting processes have count exactly 1 |
| Masking.IProcessIsAlone | unix/kern/src/k_signal_handler.c:97-141 | without an interrupted window nothing can happen to an i-process but its own steps, and its exit returns to the process in the slot |
| Masking.IntTerminates | unix/kern/src/k_signal_handler.c:49-76 | from every state in which SIGINT is not blocked, its handler terminates the program |
| Masking.OnlyIntTerminates | unix/kern/src/k_signal_handler.c:57-93 | no other step does |
| Masking.SignalRunsItsIProcess | unix/kern/src/k_signal_handler.c:77-85 | the handler of each other signal enters that signal's own i-process |
| Masking.StacksAreShallow | unix/kern/src/k_signal_handler.c:49-94 | in every run without a signal to an i-process at most five frames are stacked, and no two handlers for the same signal |
| Masking.OneInWindowIsHarmless | unix/kern/src/k_atomic.c:24-33 | a signal that gets through a positive count is served and leaves the state as it was |
| Masking.TwoInWindowFail | unix/kern/src/k_signal_handler.c:97-100 | a second one while the i-process of the first runs fails the assertion on flag |
| Masking.AssertionCanFail | unix/kern/src/k_signal_handler.c:97-100 | a run from the start that fails it |
| Masking.Machine.BlockSignals | unix/kern/src/k_atomic.c:25-33 | the first atomic(ON) saves the mask and blocks the four signals, a nested one does nothing |
| Masking.Machine.EnterIProcess | unix/kern/src/k_signal_handler.c:97-121 | fails if flag is set, otherwise the i-process runs and the slot names the interrupted process |
| Masking.Machine.ExitIProcess | unix/kern/src/k_signal_handler.c:123-141 | the process in the slot goes on behind its handler's call |
| Masking.Machine.Advance | unix/kern/src/k_signal_handler.c:49-94 | each machine step in place is the step of the transition system |
| Masking.Machine.Deliver | unix/kern/src/k_signal_handler.c:49-94 | a signal in place starts its handler over what runs, with its own signal blocked and the mask saved |
| Masking.Machine.SwitchTo | unix/kern/src/k_scheduler.c:17-30 | a process switch in place is that of the transition system: the current process changes, mask and counts stay |
| Crt.NextKeepsInv | unix/kern/src/crt_i_process.c:18-45 | every step of either side, and every message sent, keeps the invariant of the handshake |
| Crt.NeverBothInBuffer | unix/crt/src/main.c:56-71 | the two sides are never in the buffer together, and neither leaves it |
| Crt.PrintedIsPrefix | unix/crt/src/main.c:58-65 | what is printed is at every moment a prefix of all messages in send order |
| Crt.AckFollowsPrint | unix/kern/src/crt_i_process.c:20-25 | an acknowledged message has been printed to its end |
| Crt.AckedExactlyOnce | unix/kern/src/crt_i_process.c:20-43 | in every run, each message that is done with was acknowledged exactly once if and only if no entry was overtaken between its two tests |
| Crt.StableNeverForgets | unix/kern/src/crt_i_process.c:20-30 | if the flag is the same at both tests of every entry, all are acknowledged |
| Crt.ForgottenForGood | unix/kern/src/crt_i_process.c:30-43 | a message that is overtaken is never acknowledged later |
| Crt.OvertakingHappens | unix/kern/src/crt_i_process.c:20-30 | a run in which it happens |
| Crt.RoundServes | unix/kern/src/crt_i_process.c:18-45 | a signal, the entry it causes and the helper's turn, undisturbed, acknowledge the message before, take the first one waiting and print it |
| Crt.RoundsServeAll | unix/crt/src/main.c:56-71 | with n messages not shown, n + 1 such rounds print every text ever sent, acknowledge every message not forgotten before, and forget none |
| Crt.Terminal.StepIProcess | unix/kern/src/crt_i_process.c:18-45 | the i-process in place takes the steps of the model |
| Crt.Terminal.StepHelper | unix/crt/src/main.c:56-71 | the helper in place takes the steps of the model |
| Uart.StreamIsKept | coldfire/kern/src/uart_i_process.c:81-149 | in every run the characters written, the rest of the buffer and the texts in the mailbox are all that was sent, in order; envelopes fetched were released or acknowledged |
| Uart.DisposedOnce | coldfire/kern/src/uart_i_process.c:96-104 | each fetched envelope is released or acknowledged, by its type, and not both |
| Uart.InterruptWrites | coldfire/kern/src/uart_i_process.c:83-147 | which character an interrupt writes, if any |
| Uart.InterruptMoves | coldfire/kern/src/uart_i_process.c:83-147 | what is left of the text and the mailbox: at the end of a text the next message is fetched in the same interrupt, but not begun |
| Uart.DrainsInTime | coldfire/kern/src/uart_i_process.c:81-149 | with nothing more sent, one interrupt a character and two a message are enough to write everything |
| Uart.Transmitter.Copy | coldfire/kern/src/uart_i_process.c:88-94 | the loop copies the text up to its NUL, whatever the buffer held before |
| Uart.Transmitter.TransmitInterrupt | coldfire/kern/src/uart_i_process.c:81-149 | the interrupt over the real buffer and index is the interrupt of the model |
| TraceRing.TraceBuf.LogMsgEvent | unix/kern/src/k_ipc.c:110-117 | the ring goes on standing for the history, with the new event at its end |
| TraceRing.TraceBuf.FindHead | unix/kern/src/k_ipc.c:99-108 | the search ends at the first entry from tail on that is not empty, or at the one before tail |
| TraceRing.DumpIsHistory | unix/kern/src/k_ipc.c:80-95 | a dump that starts at that head is the last 16 events, oldest first, then empty entries |
| TraceRing.GetTraceBuffers | unix/kern/src/k_ipc.c:68-97 | both dumps are the last 16 events of their histories |
| TraceRing.SignedSearchEnds | coldfire/kern/src/k_ipc.c:63-72 | with signed indices the search goes on for ever if nothing has been logged, and otherwise finds the same head |
| Stash.HandledInOrder | coldfire/util/src/utils.c:326-344 | under every order of arrivals and waits the main loop gets exactly the messages that were not waited for, in arrival order |
| Stash.AwaitMessage | coldfire/util/src/utils.c:331-342 | the loop returns the first message of the type and appends all before it to the queue |
| Pipeline.CountsInOrder | coldfire/user/src/c.c:12-73 | under every schedule C takes 0, 1, 2 and so on, none skipped or repeated, and prints for exactly 0, 20, 40 and so on among them |
| Numbers.NumberPrints | coldfire/util/src/utils.c:65-127 | below a billion: padding, sign and the decimal digits of the number |
| Numbers.ZeroPrints | coldfire/util/src/utils.c:104-109 | zero needs a width; without one it overwrites what is in front of it |
| Numbers.LargeDividesByZero | coldfire/util/src/utils.c:80-85 | from a billion on, both signs, except for the smallest 32-bit number, div leaves the 32-bit range and the last loop divides by zero |
| Numbers.SmallestPrints | coldfire/util/src/utils.c:65-127 | what the smallest 32-bit number prints as, for every width |
| Numbers.DividesExactly | coldfire/util/src/utils.c:117-125 | of all 32-bit numbers, exactly those of more than nine digits other than the smallest divide by zero |
| Numbers.AtoiReads | coldfire/util/src/utils.c:217-257 | blanks, a sign and up to nine digits are read as the number they stand for |
| Numbers.AtoiExactly | coldfire/util/src/utils.c:217-257 | the whole function: behind blanks and a sign at least one character, all digits or colons, is accepted, and the number is their value with its sign in 32 bits; anything else is refused |
| Numbers.AtoiInvertsPrint | coldfire/util/src/utils.c:217-257 | rtx_atoi inverts %d below a billion for every width from 1 to 9, except for zeros in front of a minus sign |
| Numbers.PrintNumber | coldfire/util/src/utils.c:65-127 | the loops of the conversion write what the function says into the buffer |
| Numbers.AtoiOf | coldfire/util/src/utils.c:217-257 | the loops of rtx_atoi compute the function |
| Printf.Sprintf | coldfire/util/src/utils.c:8-151 | the main loop writes what the function says, with its NUL, for all conversions, widths and missing parameters; the laws below say what that is |
| Printf.StringPrints | coldfire/util/src/utils.c:46-64 | %s prints the whole string and then as many blanks as the width says |
| Printf.CharPrints | coldfire/util/src/utils.c:29-45 | %c prints the first character, filled up to the width with blanks in front |
| Printf.NumberIsPrinted | coldfire/util/src/utils.c:65-127 | %i and %u print what %d does |
| Printf.OtherLetterPrints | coldfire/util/src/utils.c:128-135 | with any other letter the percent sign and the letter are printed and no parameter is used up |
| Printf.NullEndsIt | coldfire/util/src/utils.c:137-140 | a NULL parameter ends it with NULL |
| Printf.CharacterIsCopied | coldfire/util/src/utils.c:142-147 | everything outside a conversion is copied |
| WallClock.ClockIsPrinted | coldfire/user/src/wallclock.c:76-91 | for every time of day the clock format prints eight characters, two digits a field |
| WallClock.AcceptsTimesOfDay | coldfire/user/src/wallclock.c:134-169 | where the characters are digits, the documented times are accepted and nothing else |
| WallClock.ClockRoundTrip | coldfire/user/src/wallclock.c:134-169 | the text of every time of day sets the clock to that time |
| WallClock.AcceptedIsShown | coldfire/user/src/wallclock.c:76-166 | an accepted text is what rtx_sprintf then shows if and only if it has digits in all six places, or in each field 00 or a minus sign with one of 1 to 9 |
| WallClock.AcceptsExactly | coldfire/user/src/wallclock.c:134-169 | the whole of the parser: exactly which texts are accepted, character by character, the offset each sets, and which of the two errors the others get |
| WallClock.SettingBounds | coldfire/user/src/wallclock.c:154-166 | whatever is accepted sets an offset of more than minus a day and less than a day |
| WallClock.AcceptsColon | coldfire/util/src/utils.c:245-249 | an accepted text with a colon for a digit, and the time of day it sets |
| WallClock.AcceptsSign | coldfire/user/src/wallclock.c:160-166 | an accepted text that sets a negative offset |
| WallClock.SetsTimeOfDay | coldfire/user/src/wallclock.c:154-166 | an accepted text sets a time of day if and only if its first field that is not zero is positive, or all are zero |
| WallClock.UnsignedSetsTimeOfDay | coldfire/user/src/wallclock.c:154-166 | an accepted text without a minus sign sets a time of day |
| WallClock.ClockRuns | coldfire/user/src/wallclock.c:76-77 | for every offset above minus a day the time shown goes on by a second for every hundred ticks, from below zero through midnight and then modulo a day |
| WallClock.Clock.SetWallClock | coldfire/user/src/wallclock.c:134-169 | sets offset and reference when the text is accepted, and nothing otherwise |
| Tokeniser.SpansAreMaximal | coldfire/util/src/utils.c:202-214 | the tokens are exactly the maximal runs without delimiters, from left to right |
| Tokeniser.CallsReturnTokens | coldfire/util/src/utils.c:189-215 | call number n returns token number n, and the empty string for ever after the last |
| Tokeniser.FindChar | coldfire/util/src/utils.c:259-276 | 1 if and only if the character is in the string, -1 for NULL |
| Tokeniser.Strcpy | coldfire/util/src/utils.c:153-172 | copies one character more than the size it is given, and a NUL |
| Tokeniser.Saved.Strtok | coldfire/util/src/utils.c:189-215 | one call over the static copy and index: the token, and the index at its end; a NULL set of delimiters gives an empty token |
| Tokeniser.Saved.Tokens | coldfire/util/src/utils.c:189-215 | a call with a string and n - 1 calls with NULL leave the first n tokens of the string, cut to 101 characters, in the buffer one after the other |

## Left out

- Ownership and the null process: callers pass only envelopes they hold, and the null process only yields. The code
  checks neither; both are part of when a step can happen (`KernelSystem.Enabled`).
- Interrupts inside primitives: on ColdFire the trap entry raises the interrupt level (`coldfire/kern/src/isr_entries.s`),
  so an interrupt finds a process in its own code. Nested interrupts are excluded for the same reason.
- Registers, stack frames, setjmp and longjmp: a context switch is a change of the current process and of where each
  process goes on.
- The Unix kernel's send, receive and storage functions: the same logic with one pool and without env_owned.
- Logging inside the primitives: the trace ring is modelled by itself.
- The tests for a NULL queue in the queue functions: a queue object always exists here.
- k_request_delay, k_send_console_chars and the wrappers of the primitives: they set a type or a word and call
  k_send_message.
- k_request_process_status, hotkeys, the UART receive half, the keyboard i-process and its helper, the command
  interpreter, Pong and the trace printing: input and user interface.
- Clock wrap-around: clocks, deadlines and the counter of process A are unbounded integers. `Numbers.dfy` does model the
  32-bit arithmetic of its functions.
- Device registers, memory mapping, forking and signal registration, and the transmit-interrupt enable bit; the
  signals that only terminate the Unix kernel, apart from SIGINT.
- Signals before the first process has left its first atomic(OFF): the state after it is where runs of `Masking.dfy` start.
- Printf.Sprintf: the buffer is required to be large enough.
- Numbers.NumberPrints: stops below a billion; `LargeDividesByZero` and `SmallestPrints` say what the other numbers do.
- KernelRefinement.RunCalls: a run on the heap ends with the first call that enqueues at a stale level. Which list the
  block comes to then depends on where the lost tail is (`ProcQueues.ProcPq.Enqueue`, `ProcQueues.PutInto`); runs from
  there on are not modelled.
- KernelBoot.RunBooted: ends where RunCalls ends.
- TimerHeap.TimerProcess.Tick: the timer is not a process of the transition system. The send of line 27, which writes
  the timer's pid into the envelope that goes back, is `KernelHeap.Kernel.SendMessage`; the tick ends with its arguments.
- Crt.NextKeepsInv: starts after line 17, which sets the flag; what an older file left in the flag before is not modelled.
- TraceRing.GetTraceBuffers: for clock values other than the one that marks empty entries.
- Tokeniser.Saved.Strtok: the buffer for the token has room for the longest one.
- Pipeline.CountsInOrder: processes B and C get messages from A, B and the timer only, and blocking for an envelope
  is left to the schedule.
- Stash.AwaitMessage: the messages that receive_message will return are given as a sequence.
