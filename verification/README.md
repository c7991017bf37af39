# A model of the nOS-V runtime and its proofs

The repository is an asynchronous runtime on top of nOS-V. Its correctness rests on hand-written
protocols between threads, two driver tasks and the kernel. This project models those protocols in
Dafny and proves what they promise: over every run, not for chosen schedules.

`dafny verify dfyconfig.toml` checks everything.

## What is modelled

**The io_uring driver** (`src/io_uring.rs`). `Ledger` holds its data and its atomic steps: one step
is one critical section, or one iteration of a loop inside one. Admitters, cancellers, enqueuers, the
run loop, the shutting-down thread and the kernel take steps in any order. The kernel accepts SQEs
oldest first, whenever it likes; it posts any number of MORE CQEs for a raw original and then one
final CQE, and exactly one CQE for everything else; the allocator hands out any non-zero address that
no live box occupies. Every `invariant_abort` is an `Abort` outcome of a step.

The invariant is built in layers. `Slots` is the life of one address against the kernel, `Pairs` the
relation of originals and cancellations; `Shape` projects the three context maps onto both, and
`RingSteps` and `CoreSteps` show that every step keeps the projection. `Accounts` and `BookSteps` do
the counters, the order of admission and the arrivals of each submission, `Operations` the whereabouts
of owned operations, `Safety` the whole. `Submission` holds the sections of one submission's state.
`Delivery` and `Promises` read off what callers are promised, `Results` that they get exactly what the
kernel posted for them, `Streams` what closing, detaching and the end of a stream mean, `Shutdown` that
shutdown makes progress, ends, and that its end is final.
`Exceptions` holds the runs that show where those promises end.

`Driver` is the same driver as an object with the loops of the source, each proved to take steps of
the ledger and nothing else; `DriverRuns` puts whole passes and the shutdown sweep together.
`DriverLoop` adds the run loop, its native waits and the threads that owe it a notification;
`LoopExceptions` says whom it leaves behind when it stops.
`ParkGate` is the park/notify gate that this driver and the timer share.

**Owned operation futures** (`src/io.rs`): `OwnedFuture`.

**Timers** (`src/time.rs`): `Timer` for the protocol, `TimerDriver` for the loops.

**Tasks and the runtime** (`src/task.rs`, `src/runtime.rs`): `Task` for one task's gate, callbacks and
join cell, `TaskRunner` for the run callback with other threads in between, `Runtime` for lifecycle,
registry and shutdown over all tasks, `RuntimeOwner` for the abort loop, `Parker` for `block_on`.

**Retry loops and framing** (`src/fs.rs`, `src/net.rs`, `examples/net_io_poc.rs`): `BufferedIo` and
`TcpFraming`, against a kernel that transfers as little as it likes: each operation draws a reply, and
`BufferedIo.AnyCount` says that no count the kernel may choose is missing.

## Where the code promises less than its documentation suggests

Each point names a run from the start that shows it, and the theorem that says when it can happen.

- The timer loop can end without cancelling what is registered, when shutdown is requested between its
  two looks at the flag: `Timer.LeftBehind`. `Timer.ShutdownLeaves` says that this window decides it, for
  every future that was live when shutdown was requested.
- A timer can be late by any amount, because the wait is relative and starts after the pass:
  `Timer.LateBy`. `Timer.LateExactly` says that the amount is the time from the look at the heap to the
  native wait, so that the timer is late if and only if that took any.
- An abort that returned true need not make the result cancelled: a failing suspend
  (`Task.AbortOvertaken`) or a runtime core that is already gone (`Task.AbortLost`) decides instead.
  `Task.AlwaysPromised` states the equivalence.
- `None` from a completion stream proves that everything is terminal only while delivery is open. After
  an overflow has been reported (`Exceptions.NoneAfterOverflow`), and after shutdown has detached a live
  stream (`Exceptions.NoneAfterDetach`), it comes with originals still in the kernel. `Streams.NoneMeans`
  says when originals are alive in every reachable state, `Promises.StreamEndsAlways` the rest for open
  delivery.
- A task that waits for a completion (`Exceptions.NoneAfterDetach`) or for a cancellation CQE
  (`Exceptions.CancelAfterDetach`) is not woken when shutdown detaches its submission.
  `Streams.DetachLosesExactly` says that no other step loses a waker.
- A submitting future that is polled outside the runtime can be left waiting for admission by the last
  pass of the driver: `LoopExceptions.AdmissionStranded`. `LoopExceptions.InTimeAlways` says that nobody is
  for whom a look of the driver is still to come, `LoopExceptions.TooLate` that whoever registers later is,
  unless another pass begins or something else wakes him, and `LoopExceptions.StrandedExactly` puts both
  into one condition. A driver that sleeps leaves nobody waiting unless a notification is owed
  (`DriverLoop.NoLostWakeup`).
- A positioned read or write at offset `u64::MAX` works at the file's cursor, because the kernel takes
  that offset as a sentinel. `BufferedIo.SentinelReads` is a read that succeeds;
  `BufferedIo.File.ReadExactAt` says exactly when one does, and `BufferedIo.SentinelMisses` that it is never
  what the file holds there. The other promises of the loops are stated for every other offset, and for
  the sentinel with the cursor in its place.
- Overflow of the original buffer is reported once (`Promises.RawAlways`). Overflow of the cancellation
  buffer is reported again when it happens again (`Exceptions.CancelOverflowRepeats`), several overflows
  between two reports counting as one (`Streams.CancelOverflowExactly`).

History that no decision reads (arrivals, results stored, operations accepted and finished, tasks asleep,
threads that owe a notification, the entry a timer wait was chosen for) is kept beside the state so that promises about whole runs can be stated.

## Model

| member | source | states |
|---|---|---|
| Slots.Kept | src/io_uring.rs:393-442 | The life of a `user_data` address (staged, submitted, terminal, forgotten) against a kernel that accepts prefixes and posts MORE and final CQEs in any order |
| Pairs.Kept | src/io_uring.rs:1512-1549 | Original and cancellation retire in either order; an original stays registered until both CQEs are seen, and is targeted at most once |
| Pairs.NothingRetained | src/io_uring.rs:1626-1675 | With no command and no cancellation left, no terminal context is left behind |
| CoreSteps.DispatchCore | src/io_uring.rs:1494-1555 | Every CQE the kernel can post finds exactly one context, in phase submitted, of the kind its flags allow; every cancellation CQE finds its target still registered |
| CoreSteps.AcceptCore | src/io_uring.rs:1931-1985 | Every entry of the accepted prefix of the SQ names a context that is registered and in phase staged, so it is submitted exactly once |
| Safety.Kept | src/io_uring.rs:1494-1680 | No step of any thread, of the run loop or of the kernel reaches an `invariant_abort`, and each keeps the whole invariant of the driver: ring, contexts, counters, owned operations, flags |
| Safety.Runs | src/io_uring.rs:1781-1991 | The invariant holds at the end of every run of interleaved steps, and no step possible there aborts |
| Promises.NothingAborts | src/io_uring.rs:1165-1252 | From the initial state, over every run and for every next step, no abort of admission, staging, submission or dispatch is reachable |
| Promises.RetainedAlways | src/io_uring.rs:1824-1910 | Every address in the SQ, the kernel or an undispatched CQE is the key of exactly one of the three maps; an in-flight owned original still holds its handler; an in-flight cancellation aims at an original that waits for it alone |
| Promises.RawAlways | src/io_uring.rs:333-364 | Over every run: consumed followed by buffered is a prefix of the arrivals (all of them while open), buffers keep the limit, original overflow is reported at most once, a registered drain waker means not drained, and an admission waker of a finished iterator means an entry not yet taken |
| Promises.OwnedAlways | src/io_uring.rs:1850-1923 | Over every run: conservation, at most one end per operation, failures only for a reason that holds, and no dropped operation reaching the kernel without a cancellation |
| Promises.CancelStaysAlways | src/io_uring.rs:1665-1674 | Over every run: while a cancellation is in the SQ or in the kernel, each step keeps its box, its target's box and what both stand for, or is the dispatch of its own CQE; so it never hits another operation |
| Promises.CountersAlways | src/io_uring.rs:333-364 | Over every run: originals − accepted = staged contexts, accepted − terminal = submitted contexts, cancels − cancel terminal = queued commands + cancellation contexts, and what waits in the SQ is the missing range of indices in order |
| Promises.DrainStaysAlways | src/io_uring.rs:2049-2055 | Once the submitting future is gone, a drained submission stays drained along every continuation |
| Promises.AcceptsInOrderAlways | src/io_uring.rs:1931-1957 | Over every run: the kernel takes the entries of an iterator in order without a gap, across any number of SQ-full retries, each with its own user data |
| Promises.AdmissionAlways | src/io_uring.rs:764-798 | Overflow is reported exactly if delivery overflowed, a closed runtime exactly if delivery was cancelled or detached or the future was made too late; success means the whole iterator taken by the kernel, with every arrival still in the stream; still waiting means an entry is not yet yielded or not yet taken |
| Promises.StreamEndsAlways | src/io_uring.rs:894-913 | Over every run: `None` from an open stream means all that ever arrived was consumed, every entry has its final completion among it, each with its own user data, and no original of it is alive |
| Promises.SweptAlways | src/io_uring.rs:1703-1712 | When the shutting-down thread has worked through its lists, every context that can still complete has a cancellation queued, boxed, or already seen |
| Promises.ShutdownBounded | src/io_uring.rs:1687-1720 | No continuation after shutdown has more progress steps than its first state has work, plus four for each MORE CQE |
| Promises.ShutdownGoesOn | src/io_uring.rs:1417-1491 | While work is left after shutdown, a step that takes some away can run: shutdown never gets stuck |
| Promises.StopAlways | src/io_uring.rs:1374-1379 | `decide` answers stop exactly when shutdown was requested and no work is left; then, along every continuation, ring, maps and queues are empty, every owned operation ever accepted has ended exactly once, every submission is drained |
| Promises.SupportedAlways | src/io_uring.rs:1872-1875 | Over every run: no operation with an unsupported opcode is boxed, in the SQ or in the kernel |
| Promises.PopExactly | src/io_uring.rs:1858-1880 | The operation at the front of the line fails as closed exactly after shutdown, otherwise as cancelled exactly if flagged, otherwise as unsupported exactly if the ring does not support it, and otherwise goes to the driver; the line behind it is unchanged |
| Results.ResultsAlways | src/io_uring.rs:1566-1680 | Over every run, for the stream and the cancellation handle of every submission and for every owned operation: what has arrived, followed by what waits in the CQ, is exactly what the kernel posted for it, in the order of posting, each with its own result: nothing is lost, doubled, misdirected or changed |
| Results.StreamResults | src/io_uring.rs:1595-1612 | Over every run: what a stream has handed over and buffered is a prefix of what the kernel posted for it |
| Results.CancelResults | src/io_uring.rs:1643-1655 | Over every run: cancellation CQEs are handed over in the order of posting, with none missing until one finds the buffer full or the submission is detached |
| Results.OwnedResults | src/io_uring.rs:1533-1553 | Over every run: a completed operation got the result of the one CQE that the kernel posted for it |
| Streams.ClosedStays | src/io_uring.rs:1259-1271 | From any reachable state along every continuation: closed delivery never opens again, only a detach changes how it is closed, and a detached submission buffers nothing |
| Streams.DetachLosesExactly | src/io_uring.rs:1265-1270 | For every step possible in a reachable state: a task waiting for a completion or a cancellation CQE loses its waker without being woken exactly if the step detaches its submission |
| Streams.LostAlways | src/io_uring.rs:1265-1270 | Over every run: a task asleep without a waker belongs to a detached submission, and the stream it sleeps on would answer a poll |
| Streams.CancelOverflowExactly | src/io_uring.rs:1643-1655 | For every step possible in a reachable state: afterwards the overflow mark of the cancellations is set exactly if the step found their buffer full, or the mark was set and the step is not its report; so overflows between two reports count as one |
| Streams.NoneMeans | src/io_uring.rs:898-913 | In every reachable state some original is alive exactly if fewer have ended than were staged, and an open stream answers `None` only if none is |
| Exceptions.CancelOverflowRepeats | src/io_uring.rs:1643-1655 | For every configuration with room for a CQE and an SQE: a run from the start in which overflow of the cancellations is reported, and a continuation in which the buffer overflows and is reported again |
| Exceptions.NoneAfterOverflow | src/io_uring.rs:1598-1611 | For every such configuration: a run from the start after which an overflowed stream, read to the report, answers `None` with its original still in the kernel |
| Exceptions.NoneAfterDetach | src/io_uring.rs:1687-1708 | For every such configuration: a run from the start in which shutdown detaches a stream whose task sleeps: the task is not woken, a poll would answer `None`, and the original is still in the kernel |
| Exceptions.CancelAfterDetach | src/io_uring.rs:1687-1708 | For every such configuration: a run from the start in which shutdown detaches a submission whose task waits for a cancellation CQE; the CQE has come and a poll would answer, but nobody woke the task |
| Submission.OnOriginalOk | src/io_uring.rs:1587-1624 | The original branch of dispatch keeps delivery order, buffer limit, overflow-once and every waiter's reason to wait; it closes delivery and marks the overflow exactly when the buffer is first found full |
| Submission.OnCancelOk | src/io_uring.rs:1644-1663 | The cancellation branch keeps the same promises: CQEs are buffered in order and only those that find the buffer full are missing |
| Submission.PollNextOk | src/io_uring.rs:898-913 | Polling the stream keeps the promises; pending means registered with everything delivered, and neither `None` nor the overflow report comes before what is buffered |
| Submission.RequestDeliveryOk | src/io_uring.rs:1259-1271 | Closing delivery keeps the promises and always leaves it closed |
| SubmissionState.SubmissionState.NextCompletion | src/io_uring.rs:894-913 | The stream poll as a method: next arrival in order, then the one overflow report, then a truthful `None`, or a registered waiter |
| SubmissionState.SubmissionState.NextCancellation | src/io_uring.rs:991-1004 | The cancellation poll: oldest buffered CQE, then the overflow report, then a truthful `None`, or a registered waiter |
| SubmissionState.SubmissionState.WaitDrained | src/io_uring.rs:1022-1030 | Ready exactly when drained, otherwise registered |
| BookSteps.StageOriginalBooked | src/io_uring.rs:1180-1244 | Staging an original keeps, for every submission, originals − accepted = staged contexts, accepted − terminal = submitted contexts, cancels − cancel terminal = commands + cancellation contexts, and the order of admission |
| BookSteps.QueueCancelBooked | src/io_uring.rs:1273-1302 | Queueing a cancellation keeps the counters and copies identity and user data of its original |
| BookSteps.StageCancelBooked | src/io_uring.rs:1785-1808 | Turning a command into an SQE keeps the counters of every submission |
| BookSteps.AcceptRawBooked | src/io_uring.rs:1945-1962 | Acceptance of an entry moves it from staged to submitted in the books and nowhere else |
| BookSteps.DispatchOriginalBooked | src/io_uring.rs:1583-1633 | A CQE of an original reaches its own submission, at the end of the buffer if there is room, with its own index and user data and the result and MORE flag of the kernel; it counts once when final, and nothing follows the final one |
| BookSteps.DispatchCancelBooked | src/io_uring.rs:1635-1677 | A cancellation CQE reaches the submission of its target, at the end of the buffer if there is room, with the index and user data of the target and the result of the kernel; it counts once and retires command, context and target consistently |
| Delivery.SameIdentity | src/io_uring.rs:1212-1217 | No step makes an address that stays boxed stand for a different entry or operation |
| Operations.Conserved | src/io_uring.rs:1505-1555 | An accepted owned operation is in exactly one of queue, pending slot, hands of the driver, live box, held batch or finished, and one not accepted in none |
| Operations.NeverMissed | src/io.rs:453-460 | Once the drop of its future has returned, an operation is unstaged with its flag set, boxed with its cancellation queued, or ending |
| Operations.DispatchPlaces | src/io_uring.rs:1512-1553 | A completed owned operation leaves its box with its handler and is held for exactly one end; which result it gets is `Results.OwnedResults` |
| Operations.PopPlaces | src/io_uring.rs:1858-1880 | A popped operation is either in the driver's hands or failed, never both and never lost; which of them is `Promises.PopExactly` |
| Operations.PushBackPlaces | src/io_uring.rs:1892-1898 | An operation that finds the SQ full returns to the front and is in one place still |
| OwnedFuture.AlwaysPromised | src/io.rs:395-460 | Over every interleaving of poll, drop and publish: no panic, result stored and delivered at most once and unchanged, a parked task is woken by completion, a never-polled future leaves no trace, a dropped queued one has its flag set |
| OwnedFuture.Kept | src/io.rs:262-331 | Each access of future or handler keeps result, place and waker invariants and never finds a published result missing |
| OwnedFuture.OwnedOp.PollOnce | src/io.rs:398-450 | One poll, with the handler running any number of steps between its accesses, returns the one result or leaves the task registered or already woken |
| OwnedFuture.OwnedOp.Drop | src/io.rs:453-460 | Drop asks the driver to cancel exactly for queued unfinished work, after setting the flag |
| Shutdown.Shrinks | src/io_uring.rs:1687-1720 | After the shutdown flag every driver, kernel and sweep step takes work away and no other step adds any, except that a MORE CQE adds its own dispatch |
| Shutdown.CanStop | src/io_uring.rs:1687-1720 | From every state after shutdown some run of at most `Work` steps leads to stop |
| Shutdown.DecideExactly | src/io_uring.rs:2007-2036 | Each decision exactly: yield for a backlog or for anything still to be staged or submitted, wait if only boxes are left, pause if nothing exists, stop if nothing exists after shutdown |
| Driver.IoUringDriver.StageCancellations | src/io_uring.rs:1781-1810 | Loop: commands get SQ slots oldest first until queue empty or SQ full, as a run of ledger steps |
| Driver.IoUringDriver.StageOwnedCancellations | src/io_uring.rs:1824-1847 | Loop: the same for owned cancellation commands |
| Driver.IoUringDriver.StageNextOwned | src/io_uring.rs:1857-1902 | One turn: exactly one operation leaves the front of the line, failing as closed, cancelled or unsupported in exactly these cases, and otherwise asked for by the newest SQE; or none leaves because the line or the SQ ended |
| Driver.IoUringDriver.StageOwnedOps | src/io_uring.rs:1850-1902 | Loop: a FIFO prefix of at most the budget leaves the line, shorter only if line or SQ ends |
| Driver.IoUringDriver.AcceptEntry | src/io_uring.rs:1941-1983 | One accepted entry: the imperative update equals the ledger step, including when it would abort |
| Driver.IoUringDriver.SubmitStaged | src/io_uring.rs:1931-1991 | Loop: exactly the accepted prefix becomes submitted; a retryable error changes nothing |
| Driver.IoUringDriver.AdmitAll | src/io_uring.rs:1192-1240 | Loop: ends with the iterator finished or with the SQ full and one item in hand; notifies if it staged anything |
| Driver.IoUringDriver.Admit | src/io_uring.rs:1165-1252 | Closed: delivery closes and all live originals get commands. Owned work waiting: nothing changes but the notification. Otherwise the iterator ends or the SQ was filled with one item in hand. Whenever the driver was given work it is notified |
| Driver.IoUringDriver.RequestCancel | src/io_uring.rs:1259-1303 | Delivery closes as asked, and no live original of the submission is left without a command; one command each |
| Driver.IoUringDriver.RequestOwnedCancel | src/io_uring.rs:1306-1326 | The one live box of the operation gets a command and none is left without |
| Driver.IoUringDriver.EnqueueOp | src/io_uring.rs:1749-1758 | Refused exactly when owned admission is closed, otherwise appended |
| Driver.IoUringDriver.EnqueueBatch | src/io_uring.rs:1760-1769 | The whole batch in order, or nothing |
| Driver.IoUringDriver.DeliverOriginal | src/io_uring.rs:1585-1624 | The branch-by-branch update of a submission equals its specification and reports overflow exactly when it first happens |
| Driver.IoUringDriver.DeliverCancel | src/io_uring.rs:1643-1663 | The same for a cancellation CQE |
| Driver.IoUringDriver.DispatchRawCqe | src/io_uring.rs:1566-1680 | Imperative dispatch of a raw CQE equals the ledger step, abort cases included, and hands over the kernel's result under the identity of the box |
| Driver.IoUringDriver.DispatchOwnedCqe | src/io_uring.rs:1506-1549 | Imperative dispatch of an owned CQE equals the ledger step, abort cases included, and completes the handler of the box with the kernel's result |
| Driver.IoUringDriver.DispatchAll | src/io_uring.rs:1480-1485 | Loop: every reaped CQE is dispatched oldest first and every released handler completed |
| Driver.IoUringDriver.FinishAll | src/io_uring.rs:1912-1923 | Loop: everything taken out ends, in order, once |
| DriverRuns.BeginShutdown | src/io_uring.rs:1687-1712 | The sweep as a method: closes admission before the flags, leaves nothing uncancelled, keeps the invariant, takes only steps of the ledger |
| DriverRuns.NeverStuck | src/io_uring.rs:1931-1991 | Under the invariant neither acceptance nor dispatch can hit an abort |
| DriverRuns.Pass | src/io_uring.rs:1417-1491 | A whole pass takes only ledger steps and reaches no abort; it stages and submits what it can, wakes those who wait for admission unless owned work waits, reaps exactly the oldest entries, dispatches all of them, reports backlog truthfully, and leaves no original of a submission that overflowed without a cancellation |
| DriverRuns.StageAndSubmit | src/io_uring.rs:1420-1448 | Unless the SQ was full, every cancellation command got its slot and the line of owned operations is empty or gave up the budget; streams and completion queue are untouched |
| DriverRuns.CancelOverflowing | src/io_uring.rs:1487-1490 | Loop: every submission named as overflowing is closed and none of its live originals is left without a command; no other delivery changes |
| DriverRuns.WakeAdmissions | src/io_uring.rs:1450-1461 | Every registered submission whose iterator is unfinished has its admission waiter woken |
| ParkGate.NotifyOk | src/io_uring.rs:1333-1358 | `notify` never aborts, marks the gate, and puts exactly one token before a driver that is paused without one |
| ParkGate.TryParkOk | src/io_uring.rs:1380-1397 | A driver blocks only if nothing was announced since it last cleared the mark |
| ParkGate.DriverGate.NotifyDriver | src/io_uring.rs:1333-1358 | The method keeps phase, mark and tokens consistent and is silent after the end |
| ParkGate.DriverGate.RetireDriver | src/io_uring.rs:1726-1741 | Retirement finds the terminal phase and the descriptor it needs |
| ParkGate.DriverGate.TryBlock | src/io_uring.rs:1380-1397 | The section before a native wait blocks exactly if nothing was announced, and always leaves the mark cleared |
| ParkGate.DriverGate.Resume | src/io_uring.rs:1399-1409 | A native wait that returns leaves the driver running with its pause token used up and later notifications still marked |
| DriverLoop.LoopKept | src/io_uring.rs:1363-1410 | No step of loop, producer, kernel or retirement aborts (ring missing, descriptor missing, early completion), and each keeps the loop invariant |
| DriverLoop.NoLostWakeup | src/io_uring.rs:1333-1410 | Over every run: a driver in `pause` without a token has every queue and map empty, no shutdown, and no live future waiting for admission, or some thread that gave it work has yet to notify; never two pause tokens; a timed wait has nothing unstaged and nobody waiting for admission |
| DriverLoop.NotifyWakes | src/io_uring.rs:1333-1358 | The notification of such a thread lets the paused driver resume |
| DriverLoop.NotifyStopsParking | src/io_uring.rs:1380-1398 | A notification between decision and gate makes the driver look again |
| DriverLoop.LoopNeverAborts | src/io_uring.rs:1363-1410 | From the start, no abort of run loop, admission, notification or retirement is reachable: ring missing, descriptor missing, early completion included |
| DriverLoop.TerminalAlways | src/io_uring.rs:1374-1379 | From the start: after terminal no native submit ever follows, the ring is gone and empty, and neither admission nor enqueue is open |
| LoopExceptions.AdmissionStranded | src/io_uring.rs:1687-1719 | For every configuration: a run of the loop from the start that ends with the driver stopped, every notification made, and a submitting future still waiting for admission |
| LoopExceptions.WaitsForeverAlways | src/io_uring.rs:1374-1379 | The end is final for those left behind: whoever waits for admission when the driver has stopped waits along every continuation, unless he gives up the future himself |
| LoopExceptions.StoppedUnfinished | src/io_uring.rs:1374-1379 | Over every run: whoever waits for admission when the driver has stopped had not finished his iterator; those who had were woken |
| LoopExceptions.InTimeAlways | src/io_uring.rs:1450-1461 | From every reachable state in which a submission does not wait for room or a look of the driver at it is still to come, along every continuation to the end of the driver without a new registration: it does not wait at the end |
| LoopExceptions.TooLate | src/io_uring.rs:1450-1461 | From every state in which a submission waits for room and the driver has passed it, along every continuation without a new pass, an own entry taken or completed, or an end of its iterator or future: it still waits |
| LoopExceptions.StrandedExactly | src/io_uring.rs:1374-1461 | The exact condition: along every such continuation from a reachable state to the end of the driver, who waited for room is left behind if and only if no look of the driver at it was still to come |
| Timer.BeforeIsChronological | src/time.rs:57-66 | The reversed comparison makes the heap give up earlier deadlines first and equal ones by identifier; it is a total order |
| Timer.InsertSorted | src/time.rs:197-220 | Registration keeps the heap in its order |
| Timer.Kept | src/time.rs:260-341 | Every step of loop, polls, drops and registrations keeps the invariant; the only abort is the exhausted identifier, exactly when the last one was handed out; when a poll is ready is `Timer.PollsExactly` |
| Timer.AlwaysPunctual | src/time.rs:226-341 | Over every run: fired implies the deadline has come; while the driver sleeps with no wake on its way and no notification owed, its wait ends no later after the deadline of any live timer than it parked after it looked at the heap, and no shutdown is pending; never two pause tokens |
| Timer.LeavesByFiring | src/time.rs:275-301 | Outside shutdown an entry leaves the heap only by firing, unless its future was cancelled, which then stays as it is |
| Timer.LeftBehind | src/time.rs:304-311 | A concrete run in which shutdown comes between the two looks at the flag, and the driver ends with a registered future neither fired nor cancelled and its task asleep |
| Timer.AfterTheEnd | src/time.rs:226-252 | After the end nothing fires a future and no notification makes a native call |
| Timer.NeverAbortsAlways | src/time.rs:197-208 | From the start, the one abort is the exhausted identifier, exactly when the last one was handed out |
| Timer.WakesAlways | src/time.rs:275-306 | From the start: a waiting future that fired has had its task woken once the pass is over, and a pass collects waiters by deadline and, among equals, by identifier |
| Timer.ShutdownLeaves | src/time.rs:260-311 | From every reachable state in which shutdown is requested, along every continuation to the end of the driver: a future that could fire then, and that nobody polls or drops, can still fire at the end exactly if the request came between the two looks of a pass; otherwise it was cancelled |
| Timer.LateExactly | src/time.rs:296-341 | Over every run: the native wait ends after the deadline it was chosen for by exactly the time from the look at the heap to the call, so it is late if and only if that took any; asleep with nothing owed, no live future is due before that deadline |
| Timer.LateBy | src/time.rs:296-341 | For every amount: a run from the start in which the driver sleeps past the deadline of a live future by that much |
| Timer.PollsExactly | src/time.rs:497-523 | In every reachable state a poll is ready exactly if the deadline has come, whatever the driver did; a ready one leaves the future fired, a pending one registered, and neither touches anything else |
| Timer.DueForever | src/time.rs:497-523 | From its deadline on, along every continuation, every poll is ready, also after a cancellation by shutdown and after the end of the driver |
| Timer.DropsAlways | src/time.rs:531-549 | Over every run: a dropped future is cancelled with no waiter left, and the drop of a registered one owes the driver a notification |
| TimerDriver.TimerDriver.Register | src/time.rs:197-220 | Registration inserts one entry with the next identifier, or cancels the future after shutdown |
| TimerDriver.TimerDriver.FireExpired | src/time.rs:275-290 | Loop: exactly the due prefix of the heap leaves it |
| TimerDriver.TimerDriver.SkipCancelled | src/time.rs:291-301 | Loop: exactly the cancelled prefix leaves; states are untouched |
| TimerDriver.TimerDriver.Service | src/time.rs:260-303 | The first section: the relative wait lasts to the deadline of the first entry that remains, which is neither due nor cancelled |
| Task.Kept | src/task.rs:128-276 | Every transition of gate, callbacks and join cell keeps the invariant and none reaches an abort |
| Task.AlwaysPromised | src/task.rs:128-384 | Over every run: wakes coalesce without loss, one abort wins at most, one result, seen only after destruction |
| Task.StormSubmitsOnce | src/task.rs:128-152 | Any storm of wakes in one poll epoch submits the task once |
| Task.AbortOvertaken | src/task.rs:477-481 | A concrete run in which an abort wins and a failing suspend makes the result a runtime error |
| Task.LateAlways | src/task.rs:266-285 | From any reachable state in which the task is terminal, along every continuation: it is never submitted, entered or polled again, no abort wins any more, and a stored result is never replaced |
| Task.AbortLost | src/task.rs:443-449 | A run from the start in which an abort wins after the callback began, the runtime core is gone, and the result is a runtime error |
| TaskRunner.TaskRunner.RunOnce | src/task.rs:441-502 | One callback with other threads at every unlocked point: suspends with the future in place, which an abort before the poll is closed rules out, or ends with the future dropped and exactly the result the race decides |
| TaskRunner.TaskRunner.End | src/task.rs:414-428 | The future is dropped before the result is stored; a destructor panic replaces a value only |
| TaskRunner.TaskRunner.Complete | src/task.rs:847-872 | The descriptor is destroyed before the result is published, and a waiting joiner is woken |
| Runtime.Kept | src/runtime.rs:574-620 | Every step of spawns, tasks, drivers and owner thread keeps: registry = submitted tasks not yet completed; after closing, everyone live has been asked to stop or is on the list |
| Runtime.DrainGoesOn | src/runtime.rs:595-600 | While shutdown waits, each registered task has a callback step to take that brings it nearer to its removal |
| Runtime.GoesOn | src/runtime.rs:595-600 | A task asked to stop is at most fourteen callback steps from removal, whatever its future does |
| Runtime.KeptSpawn | src/task.rs:708-794 | A spawn puts one task into the registry, under an identifier never used before, exactly if the runtime is running and the native layer took the task; otherwise the registry is unchanged, and no other task is ever touched |
| Runtime.RuntimeAlways | src/runtime.rs:574-595 | From the start: no fatal step, the lifecycle only moves from running to closing to closed, and only a running runtime takes in tasks |
| Runtime.DrainedAlways | src/runtime.rs:574-620 | From the start: at native shutdown every task whose spawn succeeded is destroyed with its one result published, both drivers are destroyed, and no later wake, abort, join, spawn, notification or repeated shutdown makes a native call |
| Runtime.DrainBounded | src/runtime.rs:595-600 | Over every run: once shutdown waits, every continuation holds at most fourteen callback steps for each registered task, all tasks together, whatever else happens; and no step is left exactly when the registry is empty |
| Runtime.DrainEndsAlways | src/runtime.rs:595-600 | From every reachable state in which shutdown waits, at most that many callback steps empty the registry, whatever the futures do |
| RuntimeOwner.RuntimeCore.CloseAndAbort | src/runtime.rs:574-593 | The loop aborts each registered task once; afterwards nobody live is left unasked |
| Parker.RootNeverOversleeps | src/runtime.rs:770-825 | Over every run: a paused root thread can resume exactly if a wake came in this epoch; wakes after the close do nothing |
| Parker.ParkerGate.Storm | src/runtime.rs:808-825 | Any number of wakes submits the thread once per epoch and never after the close |
| Parker.ParkerGate.Epoch | src/runtime.rs:780-825 | The wakes of one poll epoch submit the thread once if any came while the gate was live |
| BufferedIo.CheckedReply | src/io.rs:463-469 | A CQE counts as success exactly if it is neither negative nor larger than asked for |
| BufferedIo.Buffer.SetInit | src/io.rs:87-93 | Only bytes that were really written are ever published as initialized, within capacity |
| BufferedIo.File.ReadAtOffset | src/fs.rs:324-351 | One read: exactly the reported bytes are transferred and published and the cursor moves only at the sentinel; it fails exactly if the length exceeds u32 or the reply is an error or oversized, with the error that belongs to it |
| BufferedIo.File.ReadExactAt | src/fs.rs:163-191 | Loop: success means the buffer equals the file range, failure exactly the reported prefix; the error is the one of the last reply, or unexpected end if that was honest, and certainly so if the file ends first; at the sentinel a success exactly if one operation fills the buffer |
| BufferedIo.File.WriteAtOffset | src/fs.rs:354-381 | One write: the file is the old one with the reported bytes spliced in, and the cursor moves only at the sentinel and in append mode; it fails exactly if the length exceeds u32 or the reply is an error or oversized, with the error that belongs to it |
| BufferedIo.File.WriteAllAt | src/fs.rs:225-258 | Loop: success means the file is the old one with the whole range spliced in, failure exactly the written prefix; the error is the one of the last reply, or write-zero if that was honest and nothing more fits; append files are refused |
| BufferedIo.File.Append | src/fs.rs:271-283 | One write at the end of a file in append mode, refused in any other mode, with the error that belongs to the reply |
| BufferedIo.SpliceSplit | src/fs.rs:240-256 | Writing two pieces one behind the other writes their concatenation |
| BufferedIo.ReadBack | src/fs.rs:163-258 | What is read back where something was written is what was written, and everything else is unchanged |
| BufferedIo.SentinelReads | src/fs.rs:163-191 | An instance of a read at the sentinel that succeeds |
| BufferedIo.AnyCount | src/fs.rs:193-196 | The kernel of the model is unrestricted: every count a read or write may report is the count of some reply |
| BufferedIo.SentinelMisses | src/fs.rs:163-191 | No file has bytes at the sentinel, so no nonempty read there delivers what the file holds at that offset |
| TcpFraming.TcpStream.RecvOffset | src/net.rs:347-368 | One receive takes exactly the reported bytes off the stream and publishes them |
| TcpFraming.TcpStream.RecvExact | src/net.rs:210-232 | Loop: success fills the buffer with the next bytes of the stream, failure with exactly a prefix, and the stream advances by that; the error is the one of the last reply, or unexpected end if that was honest, and certainly so if the peer closes first |
| TcpFraming.TcpStream.SendOffset | src/net.rs:371-393 | One send appends exactly the reported bytes |
| TcpFraming.TcpStream.SendAll | src/net.rs:256-274 | Loop: what was sent is a prefix of the initialized bytes, and all of them exactly on success; the error is the one of the last reply |
| TcpFraming.LengthRoundTrip | examples/net_io_poc.rs:173-194 | Exactly the lengths within the limit have a header, and it decodes to that length |
| TcpFraming.HeaderRoundTrip | examples/net_io_poc.rs:185-194 | A header that decodes is the header of the length it decodes to |
| TcpFraming.FramesUnique | examples/net_io_poc.rs:155-171 | Frames are self-delimiting: a byte stream starts with at most one list of a given number of frames |
| TcpFraming.SendFrame | examples/net_io_poc.rs:155-159 | The whole frame, a proper prefix of it on failure with an error of one of its replies, or nothing and invalid input if it is too long |
| TcpFraming.RecvFrame | examples/net_io_poc.rs:161-171 | Exactly one frame is taken off the stream, and a stream that starts with one yields it; with a kernel that does not fail, a stream that ends inside a frame is an unexpected end and a length over the limit is invalid data |
| TcpFraming.Exchange | examples/net_io_poc.rs:155-171 | Any list of payloads is recovered for all short counts of both kernels, and with kernels that do not fail both sides succeed on every list within the limit |

## Left out

- Native calls, callback ABI and fork checks of `src/ffi.rs`: a submission is a token, a pause consumes one, destroying ends a descriptor. That a native wait returns by a timeout at any moment is allowed; leftover deadline wakes are not bounded.
- Memory ordering and poisoned mutexes: critical sections and atomic accesses are sequentially consistent steps.
- Reference counting: a submission, a control block or a future is known by an identifier, and `Weak::upgrade` succeeds whenever something that holds a strong reference exists.
- Integer widths of counters and indices (`usize`, `u64` submission counters, task identifiers) are unbounded, except for timer identifiers, byte counts, file offsets and frame lengths, whose limits are modelled.
- Waker identity and what wakers run: a registered waker is a flag, and taking it is waking it. Panics in wakers, and a panic that escapes the run callback, are not modelled.
- Unrecoverable `io_uring_enter` errors: the driver aborts the process by design, and the model's kernel either takes entries or asks to retry.
- The choice of `admit` to yield to queued owned work, and fairness between raw and owned work: the ledger allows admission at any time, which covers the source's choices.
- Opcode encoding, entry widths, probing, socket set-up, `accept`, `connect`, file opening, sync, and the Tokio readiness lanes.
- Configuration checks, error texts, affinity, topology and memory statistics: single-branch checks and lookups.
- Timeouts around futures and the far-future fallback of `sleep` in `src/time.rs`.
- The objects run their methods one after the other; interleavings are the business of the ledger and of the state machines, to whose steps the methods are tied.
- The fields of the driver object are grouped in records (contexts with their queue, ring, operations, flags) rather than listed one by one.
- Driver.IoUringDriver.AcceptEntry: admission counters are updated for a submission that exists, which the invariant guarantees for every context.
- BufferedIo.File.WriteAtOffset: a write beyond the largest file position makes no progress instead of choosing among error codes, because the loops treat both as failure. A reply that claims more than was offered is taken to have written nothing.
- TcpFraming.TcpStream.RecvOffset: a reply that claims more than was asked for, which the source rejects as invalid data, is taken to have moved no bytes of the stream.
- TcpFraming.TcpStream.SendOffset: likewise for a send whose reply claims more than was offered.
- BufferedIo.File.ReadAtOffset: likewise, such a reply does not move the cursor; what it scribbled into the buffer is modelled.
- Concurrent writers of a file during a read loop, and a peer that sends while a receive loop runs: the bytes a stream will deliver are fixed in advance, their division is not.
