# Preparation control plane

A model of the I5 preparation control plane: the cooperating processes that renew a
lease, admit one worker, create and remove kernel objects, and leave a record that their
own validators must accept.

| module | models |
|---|---|
| `LeaseChain` | the four-hop lease protocol as a step relation over owner, watchdog, transport and guest, with FIFO pipes and two slots that can be torn |
| `LeaseRuns` | the lease object: buffering, acceptance, silence and cancellation |
| `Mailbox` | the 1024-byte slot, its codec, torn overwrites and the guest's reader |
| `Owner`, `Diagnostics`, `Budget` | the lifecycle owner with its failure exits and freeze, its bounded error texts, its schedule of reserves |
| `PidTicket` | the retirement handshake between the invocation parent and the native owner |
| `Registration`, `NativeTree`, `NativeObjects` | the nine native objects: the parent's automaton, an inode tree, and creation and cleanup under faults and interference |
| `Seccomp` | a classic BPF interpreter and the filter generator |
| `Supervision`, `Export` | the supervisor of the worker, the packet it exports, and both validators |
| `Evidence` | crash-consistent publication over a disk with pending directory changes |
| `Capacity`, `HostCoverage`, `MountCoverage` | the capacity ledger, its physical coverage, and longest-prefix mount coverage |
| `Recovery` | the bounded stop of a VM |

Objects that the source updates in place are classes whose methods follow the source's
branches; protocols of several processes are step relations with a global invariant; the
validators are methods proved equal to a declarative condition. Whatever the outside can
do (adapters, children, signals, crashes, other processes, clocks) is an argument or a
nondeterministic choice, so every result is about all of it. Clocks are reals, integers
are unbounded as in Python, and Python exceptions are results that carry their text.

## Where the code's promises have a condition

These promises hold only under a condition; each is proved with exactly that condition.

- The transport's work window: `run_transport` reads the clock again after its budget was
  computed, so work, closing and output fit the active window exactly if that reading is
  not late or the 594 second cut leaves room (`Budget.TransportFits`,
  `Budget.TransportOverrun`).
- The owner's final facts satisfy `validate_lifecycle` exactly if a passing host report
  implies a registered transport. The owner does not check that for the bytes it is given;
  it holds of the attached watchdog's report, because that transport exits with 0 only
  behind a permit that the owner writes after the registration
  (`Owner.LifecycleOwner.Run`).
- `supervise` computes `passed` from "attached", its validator from "released". The report
  fails its validator exactly if its texts do not fit, or a call between the two raises an
  exception without a text and cleanup then finds no error and a worker that exited with 0
  (`Supervision.Supervisor.Supervise`; `Supervision.SlippingRun` is such a script). A
  `ForkWorker` never gets to the second case: behind a closed gate it exits with 2
  (`Supervision.GatedNeverSlips`), and an error of closing a gate that was written has a text.
- The packet of a valid report is unacceptable to the host exactly if the first name that
  raises during collection does so without a text (`Export.Collect`, `Export.HaltFirst`;
  `Export.CollectSilent` is such a directory).
- The native owner's `safe` decision is wrong exactly if a signal's exception arrives while
  neither a variable nor an exception holds the supervisor's PID
  (`PidTicket.CleanupDecision`). That is so right after `fork`
  (`PidTicket.LostSupervisor`), from the gate write to the assignment of the PID, when the
  supervisor has been admitted (`PidTicket.LostAdmitted`), and while a failed start is
  raised and handled outside the guarded part.
- The parent never signals a PID that was waited for while the owner lives. Once the owner
  is dead, its supervisor can be adopted and reaped by others, and a signal under a ticket
  that was not retired then comes too late; there is no other way
  (`PidTicket.NoLateSignal`, `PidTicket.LateAfterAdoption`).

## Model

| member | source | states |
|---|---|---|
| LeaseChain.OwnerKeeps | scripts/sw_i5_preparation_lifecycle.py:495-509 | each owner step keeps the global invariant and trips no protocol check |
| LeaseChain.WatchdogKeeps | scripts/sw_i5_preparation_channels.py:506-536 | each watchdog and relay step keeps the global invariant and trips no protocol check |
| LeaseChain.TransportKeeps | scripts/sw_i5_preparation_transport.py:213-253 | each transport step, slot writes that tear or land after the transport stopped included, keeps the global invariant and trips no protocol check |
| LeaseChain.GuestKeeps | scripts/sw_i5_preparation_transport.py:98-108 | each guest mailbox and lease step, ACK writes that tear or land late included, keeps the global invariant and trips no protocol check |
| LeaseChain.NextKeeps | scripts/sw_i5_preparation_lifecycle.py:446-449 | any step of any process, a stop included, keeps the invariant |
| LeaseChain.RunSafety | scripts/sw_i5_preparation_channels.py:506-536 | in every interleaving, with any process stopping anywhere, no check fires, the eight counters stay in the order host ACK <= relayed <= transport ACK <= guest lease <= transport lease <= watchdog lease <= last frame written <= host ACK + 1, and a host ACK n means the guest accepted n |
| LeaseChain.StepMonotone | scripts/sw_i5_preparation_supervisor.py:40-69 | no counter goes back, the guest accepts one number at a time, and only an owner's renewal moves the last frame written |
| LeaseChain.AtMostOneMore | scripts/sw_i5_preparation_lifecycle.py:446-449 | once the owner has stopped, or only stops writing, the guest accepts at most one more renewal, and never one that was not written |
| LeaseChain.RoundOut | scripts/sw_i5_preparation_transport.py:213-253 | from any settled state one renewal travels all four hops and is accepted by the guest |
| LeaseChain.RoundBack | scripts/sw_i5_preparation_channels.py:506-536 | its acknowledgement travels back and leaves a settled state with the next number |
| LeaseChain.RenewalsComplete | scripts/sw_i5_preparation_lifecycle.py:495-509 | so any number of renewals can complete, one after another |
| LeaseRuns.Lease.Check | scripts/sw_i5_preparation_supervisor.py:64-69 | a check passes exactly if the clock did not go back, the lease is not cancelled, both windows are open and, when asked, a renewal was accepted |
| LeaseRuns.Lease.Feed | scripts/sw_i5_preparation_supervisor.py:40-62 | feeding changes the lease as the pure step says, also when it raises part of the way, acknowledges exactly an accepted renewal, and leaves the lease cancelled exactly if it was or the read completes an acceptable cancel frame, and then raises |
| LeaseRuns.MovedByLine | scripts/sw_i5_preparation_supervisor.py:43-51 | a read moves the lease only if it completes a line |
| LeaseRuns.ChunkedFrame | scripts/sw_i5_preparation_supervisor.py:40-62 | however a renewal is cut into reads inside the live window, it is accepted and acknowledged exactly once, at the last read's time, and no earlier read changes anything but the buffer |
| LeaseRuns.ChunkedCancel | scripts/sw_i5_preparation_supervisor.py:60-62 | however a cancel frame is cut into reads inside the live window, the last read raises, nothing is acknowledged and the lease is cancelled |
| LeaseRuns.CancelledExactly | scripts/sw_i5_preparation_supervisor.py:54-61 | a run ends cancelled exactly if one of its reads completed an acceptable cancel frame |
| LeaseRuns.CancelledForGood | scripts/sw_i5_preparation_supervisor.py:60-66 | whatever a cancelled lease reads later, it acknowledges nothing more and no check passes |
| LeaseRuns.RunCounts | scripts/sw_i5_preparation_supervisor.py:54-62 | over any reads the accepted numbers count up by one, acceptance times do not go back, and silence is counted from the last of them |
| LeaseRuns.CancelPermanent | scripts/sw_i5_preparation_supervisor.py:60-66 | a cancelled lease never accepts again |
| LeaseRuns.PassingCheck | scripts/sw_i5_preparation_supervisor.py:64-69 | a passing check at t, after any reads, means t < started + total, t - last acceptance < silence, accepted numbers exactly 0..n, and no cancellation |
| Mailbox.PackUnpack | scripts/sw_i5_preparation_transport.py:26-41 | unpacking a packed legal frame gives the frame |
| Mailbox.UnpackPack | scripts/sw_i5_preparation_transport.py:32-41 | a slot that yields a frame is byte for byte the packing of that frame |
| Mailbox.SizeRoundTrip | scripts/sw_i5_preparation_transport.py:28 | the four length bytes decode to the length |
| Mailbox.SizeBytes | scripts/sw_i5_preparation_transport.py:35 | the decoded length encodes to the same four bytes |
| Mailbox.TornRenewal | scripts/sw_i5_preparation_transport.py:35-41 | without a hash collision, a slot torn between two newline-terminated frames yields no line other than one of the two |
| Mailbox.TornFirst | scripts/sw_i5_preparation_transport.py:35-41 | the same for the first write over a blank slot |
| Mailbox.TornFeed | scripts/sw_i5_preparation_transport.py:98-104 | a lease fed from a torn slot moves only for a frame that was written |
| Mailbox.TornMonotone | scripts/sw_i5_preparation_transport.py:79-83 | over the growing prefix of an overwrite, a reader that left the old slot does not see it again, and one that saw the new slot keeps seeing it |
| Mailbox.GuestMailbox.ReadPending | scripts/sw_i5_preparation_transport.py:98-104 | a frame is given exactly if the slot holds its packing and it is not the frame given last; anything else leaves the reader as it was |
| Budget.WorstCase | scripts/sw_i5_preparation_lifecycle.py:33-60 | the initialization cap plus its tail is the worst case, and the worst case is within the total |
| Budget.RebuildIsIdentity | scripts/sw_i5_preparation_lifecycle.py:663-673 | taking an accepted budget apart and building it again gives the same budget |
| Budget.FullCap | scripts/sw_i5_preparation_lifecycle.py:49-60 | whatever earlier stages did within their deadlines, every stage still gets its full cap and leaves its tail untouched |
| Budget.EndsInTime | scripts/sw_i5_preparation_lifecycle.py:182-185 | and the last stage ends by the absolute deadline |
| Budget.PhaseUntilSecond | scripts/sw_i5_preparation_lifecycle.py:401-404 | the first operand of the host phase limit never binds, and the shutdown reserve is kept |
| Budget.TransportFits | scripts/sw_i5_preparation_lifecycle.py:412-415 | transport work + 4 + 2 seconds fits the active window exactly if the transport's own clock reading is not later than the adapter's, or the 594 second cut leaves that much slack; the overrun is at most the delay |
| Budget.TransportOverrun | scripts/sw_i5_preparation_lifecycle.py:412-415 | an instance in which the delayed reading overruns the window |
| Diagnostics.BoundedText | scripts/sw_i5_preparation_lifecycle.py:63-71 | the binary search computes the specified cut |
| Diagnostics.BoundedLongest | scripts/sw_i5_preparation_lifecycle.py:63-71 | the cut fits whenever the text does or the limit holds the suffix, keeps a prefix of the text before the suffix, and no longer prefix fits |
| Diagnostics.FailedWithin | scripts/sw_i5_preparation_lifecycle.py:153-156 | recording a failure keeps both encoded limits and never replaces the first failure |
| Diagnostics.CleanupWithin | scripts/sw_i5_preparation_lifecycle.py:158-170 | recording a cleanup error keeps both encoded limits and unsets the reaped flag |
| Diagnostics.Kept | scripts/sw_i5_preparation_lifecycle.py:153-170 | what is recorded is what was reported: a reason that fits is kept as it is, a longer one as a prefix, and a cleanup error is kept while the list has room and counted as truncated otherwise |
| Diagnostics.AnyCalls | scripts/sw_i5_preparation_lifecycle.py:153-170 | after any calls the encoded errors are within 1536 and 768 bytes, and sessions count as reaped exactly if no cleanup error was kept or truncated |
| Owner.FactsFit | scripts/sw_i5_preparation_evidence.py:93-97 | sound facts always fit the record limit |
| Owner.Concluded | scripts/sw_i5_preparation_evidence.py:98-116 | the verdict computed at the freeze makes the facts valid exactly if a passing report implies a registered transport |
| Owner.LifecycleOwner.Fail | scripts/sw_i5_preparation_lifecycle.py:153-156 | the first failure is kept, later ones are bounded |
| Owner.LifecycleOwner.CleanupError | scripts/sw_i5_preparation_lifecycle.py:158-170 | a cleanup error is kept or counted as truncated, and sessions no longer count as reaped |
| Owner.LifecycleOwner.Checkpoint | scripts/sw_i5_preparation_lifecycle.py:172-180 | a checkpoint raises exactly on a signal, a closed controller or a passed deadline, and records nothing else |
| Owner.LifecycleOwner.Call | scripts/sw_i5_preparation_lifecycle.py:313-355 | an adapter call gives a result exactly if it was made, every checkpoint of its wait passed and the answer is a bound and well formed action result; if it raises, a first failure is on record unless it raised before its guarded part, which leaves the facts alone |
| Owner.LifecycleOwner.EvidenceStart | scripts/sw_i5_preparation_lifecycle.py:357-398 | the attempt is ready exactly if the evidence child was forked, every checkpoint passed and it answered well |
| Owner.LifecycleOwner.Watch | scripts/sw_i5_preparation_lifecycle.py:430-516 | a host loop that ends well has registered a transport for every registration event |
| Owner.LifecycleOwner.Round | scripts/sw_i5_preparation_lifecycle.py:432-494 | a round goes on exactly if it is not late and, at a registration, nothing broke; the permit is written exactly after a registration was recorded, while the watchdog runs and no failure is on record |
| Owner.LifecycleOwner.Conclude | scripts/sw_i5_preparation_lifecycle.py:517-521 | the owner passes the host exactly on a valid passing report with a matching exit |
| Owner.LifecycleOwner.Host | scripts/sw_i5_preparation_lifecycle.py:400-548 | a host phase passes the owner only with a passing persisted report, and does so when nothing goes wrong |
| Owner.LifecycleOwner.Stop | scripts/sw_i5_preparation_lifecycle.py:597-624 | shutdown is called exactly once if a start was attempted and never otherwise, normally only after a pass without errors |
| Owner.LifecycleOwner.Freeze | scripts/sw_i5_preparation_lifecycle.py:627-634 | the freeze computes the verdict and closes the facts |
| Owner.LifecycleOwner.Deliver | scripts/sw_i5_preparation_lifecycle.py:635-660 | nothing after the freeze changes the facts; the owner reports success exactly if the facts passed, the commit went through, the evidence child exited with 0, the receipt matches and nothing was reported while settling |
| Owner.LifecycleOwner.Run | scripts/sw_i5_preparation_lifecycle.py:572-660 | for every outcome of every call, signal and controller end: the frozen facts satisfy the validator exactly if a passing report implies a registered transport, and always when the report is the attached watchdog's, whose transport waits for the owner's permit; calls come in order, start at most once, shutdown at most once, and none of the work with a failure on record; the owner reports success exactly if the facts passed and the commit met nothing untoward; and a run without trouble passes |
| PidTicket.OwnerKeeps | scripts/sw_i5_preparation_native_lifecycle.py:115-212 | each step of the native owner keeps the joint invariant of tickets, reports and held PIDs |
| PidTicket.ParentKeeps | scripts/sw_i5_preparation_native_lifecycle.py:363-447 | each step of the parent keeps the joint invariant |
| PidTicket.NoLateSignal | scripts/sw_i5_preparation_native_lifecycle.py:363-388 | in every run, with lost and stale answers, interrupts and failures, the owner waits for the supervisor only after the parent retired its ticket; the parent signals a PID that was waited for exactly in the runs in which the owner is dead, its supervisor was adopted and reaped, and the ticket is not retired |
| PidTicket.LateAfterAdoption | scripts/sw_i5_preparation_native_lifecycle.py:419-437 | such a run: the owner dies after registration, the orphan is adopted and reaped, and the parent signals its PID |
| PidTicket.RetiredForGood | scripts/sw_i5_preparation_native_lifecycle.py:374-376 | after retirement the parent signals nothing, whatever happens |
| PidTicket.CleanupDecision | scripts/sw_i5_preparation_native_lifecycle.py:139-212 | the owner takes cleanup for safe wrongly exactly in the runs in which an interrupt hits it while neither a variable nor an exception holds the PID: right after the fork, from the gate write to the assignment, at the head of the failed start's handler, while it waits for a failed supervisor or raises, and before `_owner` reads the exception; in all others the supervisor was never forked or was reaped after a clean report |
| PidTicket.LostSupervisor | scripts/sw_i5_preparation_supervisor.py:412-458 | such a run with the gate closed: interrupted right after the fork, cleanup is taken for safe beside a live supervisor |
| PidTicket.LostAdmitted | scripts/sw_i5_preparation_supervisor.py:415-463 | such a run with the gate open: interrupted between the gate write and the assignment of the PID, cleanup is taken for safe beside an admitted supervisor |
| PidTicket.StopAsked | scripts/sw_i5_preparation_native_lifecycle.py:189-206 | in every run the owner ends with a supervisor it knows and has not reaped only if the parent retired the ticket, or a stop or retirement that the owner asked for at the end was refused or not answered; it ends unretired exactly in the latter runs |
| PidTicket.FailedRunStops | scripts/sw_i5_preparation_native_lifecycle.py:189-206 | whenever the run of a task fails while the parent serves, the next two answered requests signal and stop the task and retire its ticket, and the owner then waits for the supervisor |
| PidTicket.ReportedRunEnds | scripts/sw_i5_preparation_native_lifecycle.py:157-172 | a run that reports and exits, with every request answered, ends with the supervisor reaped, the task stopped before exactly if the report was not clean, and cleanup authorized exactly if it was |
| PidTicket.FailedStartStops | scripts/sw_i5_preparation_native_lifecycle.py:121-126 | a task whose gate cannot be opened is stopped and retired by the next three answered requests |
| Registration.Registry.Register | scripts/sw_i5_preparation_channels.py:610-633 | an event is recorded exactly if it is legal, whatever the count, and a refused event changes nothing |
| Registration.AcceptedShaped | scripts/sw_i5_preparation_channels.py:610-633 | in an accepted trace the intents are a prefix of the create order, cleaned roles are in clean order, each intended role is pending or cleaned and not both, only the newest intent may be unbound, and the number of events follows |
| Registration.InCleanOrder | scripts/sw_i5_preparation_channels.py:627-630 | the list comparison of the code holds exactly of lists in strict clean order |
| Registration.CapNeverBinds | scripts/sw_i5_preparation_channels.py:626 | the bound of 27 events never refuses an otherwise legal event |
| Registration.IntentAccepted | scripts/sw_i5_preparation_native.py:354-355 | with exactly the earlier roles bound, the next intent is accepted |
| Registration.CleanAccepted | scripts/sw_i5_preparation_native.py:482-485 | a bound role below every cleaned one may be cleaned |
| NativeTree.MadeShape | scripts/sw_i5_preparation_native.py:359-363 | making a role's name adds exactly that object to the namespace |
| NativeTree.RemovedShape | scripts/sw_i5_preparation_native.py:479-480 | removing an object without children takes exactly that object away |
| NativeTree.LookupPresent | scripts/sw_i5_preparation_native.py:182-199 | an object that is there is found at its path with its identity |
| NativeTree.ContainedFaithful | scripts/sw_i5_preparation_native.py:442-446 | what others do inside the objects leaves the namespace as it is |
| NativeObjects.Initialization.Make | scripts/sw_i5_preparation_native.py:357-363 | the new object is a fresh inode under a name that was free, and the only change |
| NativeObjects.Initialization.Create | scripts/sw_i5_preparation_native.py:346-382 | however far a creation gets, its events are accepted by the parent, entries equal the registry, and an undisturbed creation succeeds |
| NativeObjects.Initialization.Initialize | scripts/sw_i5_preparation_native.py:408-417 | single use; on success all nine roles are bound and pinned; without failure or interference it succeeds |
| NativeObjects.Initialization.OpenRole | scripts/sw_i5_preparation_native.py:182-199 | an opened role is found at its path, pinned, and of the recorded identity |
| NativeObjects.Initialization.Barrier | scripts/sw_i5_preparation_native.py:447-461 | cleanup goes on only if every owned cgroup is bound and, in a look at the tree as it was at that moment, whatever others did before or after, was unpopulated and held exactly its known children; left alone it goes on exactly if every owned cgroup is found so |
| NativeObjects.Initialization.Discard | scripts/sw_i5_preparation_native.py:476-480 | a removal happens exactly if the name still holds the bound identity and the object is empty, and takes away that name only |
| NativeObjects.Initialization.CleanRole | scripts/sw_i5_preparation_native.py:462-488 | one turn drops the entry exactly with its event; a failing descriptor after the removal keeps the entry pending; at most one justified removal; left alone, it removes exactly an object that is bound, as it was made and holds nothing of ours |
| NativeObjects.Initialization.Sweep | scripts/sw_i5_preparation_native.py:462-488 | every pending role gets one turn, newest first, whatever came of the others, and each undisturbed turn removes an object that is ready; at least one error for each entry left; left alone, exactly the clear roles go, with one error for each other |
| NativeObjects.Initialization.Cleanup | scripts/sw_i5_preparation_native.py:442-489 | without errors nothing is pending and, if others left the names alone, the tree is the original; every removed object was bound in this run and empty, newest first; before the first removal every owned cgroup was looked at and found bound, unpopulated and with exactly its known children; behind the barrier every pending role gets its turn; left alone, exactly the roles go whose objects and all in them are as they were made |
| NativeObjects.ReadyClear | scripts/sw_i5_preparation_native.py:462-488 | once the clear objects in it are gone, an object is ready exactly if it was clear, whatever else is stuck |
| NativeObjects.PartialClear | scripts/sw_i5_preparation_native.py:346-363 | after a creation that broke off, a complete object is clear exactly if it is not above one that was left half made |
| NativeObjects.BrokenOff | scripts/sw_i5_preparation_native.py:442-488 | an undisturbed cleanup of a partial creation: nothing goes if a cgroup has no identity; else exactly the complete objects that are not above a half made one, with one error for each entry left, and the tree is the original if no half made object is there |
| NativeObjects.Lifecycle | scripts/sw_i5_preparation_native.py:408-489 | a whole life under any failure and interference: every event is accepted and the parent's registry is what is pending; what is left of the objects is pending; an error-free life restores the tree; an undisturbed one has no errors; a creation that broke off anywhere is taken back by an undisturbed cleanup but for an object cut short, with those above it |
| Seccomp.Generate | scripts/sw_i5_preparation_isolation.py:47-52 | the emitted list equals the policy on every call, for any deny list, and is loadable exactly if that list has at most 2042 numbers |
| Seccomp.SeccompProgram | scripts/sw_i5_preparation_isolation.py:35-52 | both machines get a correct and loadable filter, any other is refused |
| Seccomp.TableRows | scripts/sw_i5_preparation_isolation.py:35-41 | each row has the audit word of its machine and lists exactly the numbers of the twelve named calls |
| Seccomp.ProgramAttachable | scripts/sw_i5_preparation_isolation.py:46-52 | all jumps go forward and stay in range, and the kernel's 4096 instructions are kept exactly up to 2042 numbers |
| Seccomp.DenyScan | scripts/sw_i5_preparation_isolation.py:48-49 | the deny block returns EPERM exactly for its numbers |
| Seccomp.CloneTest | scripts/sw_i5_preparation_isolation.py:50-51 | clone with a masked flag returns EPERM, other calls are allowed |
| Seccomp.AbiTest | scripts/sw_i5_preparation_isolation.py:46-47 | a foreign ABI or the x32 bit is killed |
| Seccomp.FilterIsPolicy | scripts/sw_i5_preparation_isolation.py:35-52 | interpreting the program gives the policy for every ABI word, number and arguments |
| Seccomp.DeniedExactly | scripts/sw_i5_preparation_isolation.py:48-49 | outside clone and x32, a number is denied exactly if it is listed |
| Supervision.ChainBefore | scripts/sw_i5_preparation_supervisor.py:213-235 | in an ordered trace every admission step has all earlier ones before it |
| Supervision.ReleaseJustified | scripts/sw_i5_preparation_supervisor.py:229-235 | a release comes directly after an accepted lease, and after the empty group, spawn, attach, setup readiness and full check, in that order and once each |
| Supervision.Supervisor.Admit | scripts/sw_i5_preparation_supervisor.py:213-223 | admission stops at the first refusal, having gone exactly so far down the chain |
| Supervision.AdmissionExactly | scripts/sw_i5_preparation_supervisor.py:213-223 | admission goes through exactly if each of its seven calls, or eight with a registration, is accepted |
| Supervision.ReleasingExactly | scripts/sw_i5_preparation_supervisor.py:228-235 | once setup is ready the release goes through exactly if boundary, pin, lease, signal check and byte are all accepted |
| Supervision.Supervisor.Release | scripts/sw_i5_preparation_supervisor.py:224-235 | the worker is released only after readiness, full check and a fresh lease |
| Supervision.Supervisor.Watch | scripts/sw_i5_preparation_supervisor.py:236-248 | the watched run ends well only after exit 0, an empty group and a live lease, in that order |
| Supervision.Supervisor.Drain | scripts/sw_i5_preparation_supervisor.py:260-281 | observation ends without error only when the last look saw the exit, an empty group and everything reaped, and reports each bad answer once |
| Supervision.Supervisor.Cleanup | scripts/sw_i5_preparation_supervisor.py:252-285 | the kill is asked for once, first, and the check of the groups last; each has an error of its own, with its prefix and text, exactly if it was refused or raised; no error means that the last look saw the group empty, reaped and exited |
| Supervision.Supervisor.Supervise | scripts/sw_i5_preparation_supervisor.py:189-293 | in every run the trace is ordered, kill is issued exactly if spawn returned, and the report satisfies its validator exactly if the texts of the script fit and it is not one that slips: a call between attach and release raises without a text, and cleanup then finds no error and exit 0; every bad answer is reported exactly once, as the failure or as an error of cleanup, and a report that passes was asked and answered well for the kill and the last check; a run without trouble passes |
| Supervision.SlippingRun | scripts/sw_i5_preparation_supervisor.py:219-222 | a script that slips: binding the worker raises without a text, and every text fits |
| Supervision.GatedNeverSlips | scripts/sw_i5_preparation_supervisor.py:131-146 | if a worker that was not released does not exit with 0, as a closed gate makes sure, no script slips |
| Export.ValidateExport | scripts/sw_i5_preparation_channels.py:305-349 | the loop accepts exactly the packets of the declarative check |
| Export.SummaryUnique | scripts/sw_i5_preparation_channels.py:319-339 | a list of entries with distinct names has at most one summary |
| Export.ReadUpTo | scripts/sw_i5_preparation_channels.py:266-275 | whatever the chunk sizes, the bytes read are the file's first bytes up to the cap |
| Export.EntryStep | scripts/sw_i5_preparation_channels.py:263-288 | a regular file adds one truthful entry within its quota, and an error exactly if it was cut |
| Export.Gather | scripts/sw_i5_preparation_channels.py:254-290 | the loop keeps totals, quotas, entries and the summary together, and ends with exactly the text of the first name that raises |
| Export.HaltFirst | scripts/sw_i5_preparation_channels.py:254-298 | the recorded text is that of the first name whose file, or whole but rejected result.json, raises |
| Export.PassingCollected | scripts/sw_i5_preparation_channels.py:291-300 | a finished collection can pass exactly if every file is there, whole and within limits and the result passed |
| Export.PacketConforms | scripts/sw_i5_preparation_channels.py:245-302 | a packet built from a collection is valid exactly if the report is and no exception text is empty |
| Export.Collect | scripts/sw_i5_preparation_channels.py:245-302 | for any directory the packet satisfies the host's validator exactly if the report does and, where collection takes place, the first name that raises does not do so without a text; it passes exactly if report, pin and directory allow, and then every stream of every step is exported whole |
| Export.CollectSilent | scripts/sw_i5_preparation_channels.py:297-298 | a directory whose result.json is refused without a text: its packet is not acceptable |
| Evidence.CreateKeeps | scripts/sw_i5_preparation_evidence.py:265-266 | creating a partial file keeps the on-disk invariant in every surviving state |
| Evidence.LinkKeeps | scripts/sw_i5_preparation_evidence.py:277-279 | linking a synced partial file adds the final name with the complete bytes in every surviving state |
| Evidence.UnlinkKeeps | scripts/sw_i5_preparation_evidence.py:281 | dropping the partial name keeps the invariant |
| Evidence.SurvivorsComplete | scripts/sw_i5_preparation_evidence.py:259-282 | after a stop or a power failure anywhere each final name is absent or holds the complete bytes, and the exact file set appears only after the receipt's partial was unlinked |
| Evidence.ReadableIsWritten | scripts/sw_i5_preparation_evidence.py:384-433 | evidence that reads back is exactly what was written |
| Evidence.EvidenceStore.Fill | scripts/sw_i5_preparation_evidence.py:268-272 | however short the writes, a completed loop has written all the bytes |
| Evidence.EvidenceStore.Write | scripts/sw_i5_preparation_evidence.py:259-282 | a write charges its bytes exactly if it is within the quota and never refunds them, succeeds under room and fuel, and leaves the final name alone or complete |
| Evidence.EvidenceStore.Persist | scripts/sw_i5_preparation_evidence.py:291-323 | at every point the disk is crash safe; an attempt is used once; success returns exactly what was written |
| Capacity.ValidateCapacity | scripts/sw_i5_preparation_plan.py:153-246 | the loops accept exactly the ledgers of the declarative check, and report exactly the unknown surfaces |
| Capacity.CheckSurfaces | scripts/sw_i5_preparation_plan.py:187-238 | the surface loop accepts exactly good rows with distinct representations, and its running totals are the reserves per domain and charge |
| Capacity.Spread | scripts/sw_i5_preparation_plan.py:237-244 | the domains' reserves together are the surfaces' hard limits |
| Capacity.Conserved | scripts/sw_i5_preparation_plan.py:166-244 | the hard limits of all bounded surfaces, and all their logical copies, fit the envelope |
| Capacity.UnknownAccepted | scripts/sw_i5_preparation_plan.py:205-211 | a ledger that knows no bound at all is valid and only leaves every surface as a blocker |
| Capacity.RuntimeFilled | scripts/sw_i5_preparation_plan.py:156-178 | an accepted runtime ledger fills the 768 MiB envelope exactly with its fixed caps |
| Capacity.OnlySwapDisabled | scripts/sw_i5_preparation_plan.py:211-216 | in an accepted ledger only swap and crash dumps are charged nothing as disabled |
| HostCoverage.ReviewHostCoverage | scripts/sw_i5_preparation_plan.py:432-575 | the nested loops accept exactly the coverage of the declarative check |
| HostCoverage.CheckPhysical | scripts/sw_i5_preparation_plan.py:508-546 | the domain loop accepts exactly good domains that share nothing with each other and all earlier ones |
| HostCoverage.CoverageConserved | scripts/sw_i5_preparation_plan.py:467-564 | accepted coverage, whole devices under D and reserves under H, fits the envelope, and no two domains share id, device, file system, mount or overlapping root in a realm |
| HostCoverage.SameSizes | scripts/sw_i5_preparation_isolation.py:19 | the ledger reserves for input, work and result what the worker mounts may hold |
| MountCoverage.CoveringIsDeepest | scripts/sw_i5_resources.py:119-125 | a covering mount is at or above the path and strictly deeper than every other that is |
| MountCoverage.DeepestCovers | scripts/sw_i5_resources.py:119-125 | and such a mount is always found |
| MountCoverage.ResolvesIfCovered | scripts/sw_i5_resources.py:119-125 | without stacks a path resolves exactly if some mount is at or above it |
| MountCoverage.VerifyWorkerMounts | scripts/sw_i5_preparation_isolation.py:222-253 | the checks accept exactly the tables of the declarative condition |
| MountCoverage.UsedOnce | scripts/sw_i5_preparation_isolation.py:248 | without stacks, counting a device once means that no other path has it |
| MountCoverage.ResolvesInDomain | scripts/sw_i5_preparation_isolation.py:231-250 | in an accepted table every path under input, work or result resolves to exactly that mount |
| MountCoverage.WritableExactly | scripts/sw_i5_preparation_isolation.py:251-252 | in an accepted table a path is writable exactly under work or result and read-only everywhere else |
| MountCoverage.WritableBounded | scripts/sw_i5_preparation_isolation.py:230-247 | in an accepted table every writable path lies on a noswap tmpfs of work or result, without set-user-id, devices or execution, of at most 128 and 8 MiB |
| Recovery.AtMostTwo | scripts/sw_i5_utm_control.py:70-81 | a disciplined trace holds nothing, one request, or one request and then one forced stop |
| Recovery.Rescue.Look | scripts/sw_i5_utm_control.py:60-69 | a look counts only if it is of the ticket's VM, in a known state and in time |
| Recovery.Rescue.Stop | scripts/sw_i5_utm_control.py:70-81 | a stop is sent once and inside the deadline, or the deadline has passed |
| Recovery.Rescue.Watch | scripts/sw_i5_utm_control.py:92-96 | the watching loops end, having seen the VM stopped or reached their time |
| Recovery.RecoverPreparation | scripts/sw_i5_utm_control.py:35-114 | for every observer, command and monotone clock it ends; no call is given time past 120 s; at most one request then one forced stop, each right after seeing the ticket's VM running and the force after the grace; no round of watching begins later than 100 s before the force, or 120 s after it; stopped exactly if that VM was last seen stopped; never passed; and it does not give up early |

## Left out

- LeaseChain.RunSafety: a pipe message is one frame; the split of one frame over several reads is `LeaseRuns.ChunkedFrame`, and the frames are far below the size up to which pipe writes are atomic.
- LeaseChain.RenewalsComplete: shows that renewals can complete, not that a scheduler makes them; the renewal period and the silence windows are in `LeaseRuns`, not in the step relation. A stopped process stands for every loss, deadline and cancellation.
- Mailbox.TornRenewal: a tear is a prefix of the new slot over the old one; other tearing patterns of the guest agent's file write are not modelled. SHA-256 is any function with 32-byte results; the absence of collisions is assumed for the two frames only, which alone does not exclude that a digest torn in the middle fits a frame with the other's zero padding; such bytes never end in a newline, and the result is about lines.
- Owner.LifecycleOwner.Run: the run without an initialization, so the registry, the stager and the initialization receipt are not there. Real time is only "late or not" per check; the schedule itself is `Budget`. Errors of closing descriptors in `finally` blocks are not modelled.
- PidTicket.CleanupDecision: how long an interrupt window is, and the operating system's reuse of PIDs, are not modelled.
- Registration.Registry.Register: the constant `bytes` and `sequence` fields and the JSON shape of an event are not modelled.
- NativeObjects.Lifecycle: one cleanup per life, as the native owner makes it. The instant between the last look at a name and its removal is one step. Ownership, modes, mount and file system checks, cgroup limits and the input readback are calls that may fail. Descriptors keep their inode, as Linux does.
- NativeObjects.Initialization.Cleanup: other processes change the tree only between the source's calls; a cgroup directory's control files are not entries of the tree.
- Supervision.Supervisor.Supervise: each call's answer comes from a finite script; when it ends, calls raise, as the lease's deadline does. Signal handlers and `worker.cancel_admission` are not modelled.
- Export.Collect: an artifact's name is its position, and the quota error's text omits the name. A regular file that is stable over the reads never delivers more bytes than its size. SHA-256, base64 (sections 3.5 and 4 of RFC 4648) and the result schema are parameters with a decoding law. The native lifecycle export is not part of this model.
- Evidence.EvidenceStore.Persist: the report's and receipt's contents, their validators and directory identity checks are not modelled; the host-report and receipt bytes are arguments. File data is durable at `fsync`, directory entries apply as a prefix of their changes.
- Capacity.ValidateCapacity: JSON types, bindings and the review flags are not modelled, and whether a source reference is well formed is a given flag.
- HostCoverage.ReviewHostCoverage: component names are positions in the fixed table; the byte equality of configuration and observation claims is a given flag.
- MountCoverage.VerifyWorkerMounts: starts from parsed mounts and stops before the identity, descriptor and namespace checks.
- Recovery.RecoverPreparation: the ticket's own binding is taken as valid, and `stop`'s output checks are one good or bad answer. `forced_stop` may be set although the time for the call was over; the listed operations are exact.
- `bounded_recovery`, `IsolationGuard`, `verify_cgroup`, `DomainGuard`, `NativeBudget` and `assembled_source_bound`: separate checks, mostly of one branch each.
- scripts/sw_i5_preparation_initialization.py, scripts/sw_i5_preparation_staging.py and scripts/sw_i5_preparation_rpc.py: a twin of the native owner and process plumbing.
- scripts/sw_i5_preparation_execution.py and scripts/sw_i5_preparation_bundle.py: long schema checks.
- JSON decoding, real forks, pipes, signals, mounts, cgroup files, UTM and osascript calls: replaced by arguments, results or nondeterministic steps.
- Floating point: clock values and budgets are reals, so rounding is not modelled.
