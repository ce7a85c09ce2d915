# A verified model of wepoll-ex

wepoll-ex offers an epoll-shaped API over I/O completion ports and the AFD driver on Windows, and adds a
metadata layer over native epoll on Linux.  This project models the protocols inside it: who may touch what
between two critical sections, which event reaches the caller when, and who frees what.  System calls appear as
answers passed in or as choices left open, so every result holds whatever the system answers.

`dafny verify dfyconfig.toml` checks the whole project (Dafny 4.11).

## What is modelled

| file | models |
|---|---|
| `ReadyQueue.dfy` | the lock-free ready queue, one step per atomic access, sequentially consistent (C11 section 7.17.3) |
| `Registration.dfy`, `History.dfy`, `Readiness.dfy` | one registration of a Windows port: ADD, MOD, DEL, rearm, class rearm, local shutdown, submit, cancel, completion, delivery |
| `Port.dfy` | all registrations of a port: handle table, ready queue, pending count, packets in flight, drain |
| `Waits.dfy`, `Coalescing.dfy` | two parts of the wait loop on such a port: the arm pass at its start, and coalescing into a large buffer |
| `Witnesses.dfy` | runs of a port, from its creation on, that reach what the code does not expect |
| `FdTable.dfy`, `Worklist.dfy` | the open-addressing handle table, the intrusive worklists and the arm pass |
| `ExclusiveClaims.dfy`, `AfdKeys.dfy` | the process-wide EPOLLEXCLUSIVE claims and AFD target keys |
| `EpfdTable.dfy`, `PosixPort.dfy` | the lifetime of Windows ports, and of POSIX ports with a cancellable closer (section 2.9.5 of POSIX.1-2008, System Interfaces) |
| `Wake.dfy` | wake coalescing |
| `PosixIndex.dfy` | the POSIX metadata index and the in-place event expansion |
| `Timeouts.dfy` | chunked and saturating timeout arithmetic |
| `Chains.dfy`, `Registry.dfy`, `Sets.dfy` | bucket chains, descriptors and counting, shared by the above |

A registration is a value `Reg` inside the map of the class `PortMachine.Port`.  Each critical section under
`fd_table_lock` is a method from one `Registration.Step` to the next.  The subset type `Step` carries the
registration invariant through every line of such a section, and the subset type `PortMachine.Ledger` of the field
`Port.b` carries the port invariant through every sequence of operations, so a lemma about a `Ledger` speaks of
every reachable state of a port.  `Local.busy`, `Local.base`, `Work.lost`, `Work.orphaned`, `Poll.packets`, `Log` and
`Port.given` record the past for the statements; nothing in the modelled code reads them.

Masks are sets of named bits.  Generations, epochs and identities are naturals that do not wrap.  The build is the
one with `WEPOLL_EX_ASSUME_SYNCHRONIZED_SOCKET_LIFETIME`.  Submissions from a control operation depend on
`Env.submits`: a wait is active and not coalescing.

## Where the code does less than it says

* A pop may return NULL on a non-empty queue when no producer is between exchange and link at that instant
  (`ReadyQueue.NullWithoutMidLink`).  A producer was there at some instant of that pop (`NullNeedsOverlap`), and one
  is still there exactly when the tail is unlinked (`NullMidLinkExactly`).
* A registration can be on the rearm list and on the fired one-shot list at once, which the worklist checker forbids
  (src/wepoll_ex_port.c:2547) and the rollback asserts against (src/wepoll_ex_port.c:2504).  A completion leaves its
  registration there exactly under `Registration.Crowds`, a condition on the registration and the packet
  (`Registration.Complete`, `Port.Dispatch`): a pending one-shot that was waiting to be rearmed delivers a snapshot
  that needs no refresh.  No other operation puts a registration there (`PortMachine.Unspoiled` in each of them), and
  it never happens while no cancellation was lost or failed (`PortMachine.FiredCanBeRenewed`).  No local shutdown is
  needed: two MODs around a lost cancellation suffice (`Registration.BothLists`), as from a fresh ADD of a TCP
  one-shot (`Registration.BothListsReached`).
* The arm pass takes the budget of its second loop before the first one has dropped closed handles.  It visits
  every fired one-shot once and in order exactly when none of those that the first loop visits is found closed
  (`Waits.Spares` in `Waits.ArmPort`, a condition on the registrations and the answers of the system).  When all of
  them are and nothing else is queued, it runs out of list and dereferences NULL; `Witnesses.RunsOut` reaches this from a new port.
* A socket request that comes back as STATUS_CANCELLED although the library did not cancel it is not submitted
  again, and no later wait picks its registration up (`Registration.GivenUp`, `GivenUpReached`).  This happens
  exactly under `Registration.Orphans`: the poll is pending, nothing asks for a rearm, and something is left to watch
  (`Complete`, `Port.Dispatch`).  Every other live registration is accounted for (`PortMachine.NoneForgotten`), and
  after the arm pass of the next wait it is polled, queued, disabled, or was refused by the system
  (`Waits.StartWait`).
* A registration can be returned twice within one coalescing wait (src/wepoll_ex_port.c:6526);
  `Witnesses.ReturnedTwice` is such a wait.  A registration comes out once, and once more at most for each time that a
  local shutdown roused it (`Coalescing.Coalesce`), which happens exactly under `PortMachine.Disturbs`
  (`Coalescing.Control`); a roused registration does come out again (`Coalescing.ReturnedAgain`).
* What a successful completion delivers was submitted in the current wait with a covering mask, unless the refresh of
  its snapshot announces a local shutdown instead, exactly under `Registration.Interrupts`
  (`Registration.Completion` in `Complete`).
* An edge-triggered socket can return a bit twice although nothing that could make it an edge again lies between the
  two events (`Witnesses.EdgeTwice`): a local shutdown replaces a queued node, keeps its bits, and takes a latch from the
  current level, which may be without them (src/wepoll_ex_port.c:2681-2722).  Apart from a shutdown while the first
  event waits to be returned, something always lies between them (`PortMachine.ReportedOncePerEdge`).

## Model

| member | source | states |
|---|---|---|
| `ReadyQueue.FifoRefinement` | src/wepoll_ex_pool.c:250-379 | For every number of producers and every interleaving, the head-exchange order is the returned nodes, then those in the consumer's hands, then those still chained; the stub is never returned. |
| `ReadyQueue.ExecInv` | src/wepoll_ex_pool.c:250-379 | Every interleaving of push and drain steps keeps the chain, the owed links, the output list and the count consistent. |
| `ReadyQueue.StubAtMostOnce` | src/wepoll_ex_pool.c:274-311 | The recycled stub is in the chain at most once. |
| `ReadyQueue.PoppedNodeIsNotWritten` | src/wepoll_ex_pool.c:250-311 | No producer and no stub link still writes through a popped or free node, so it may be reused at once. |
| `ReadyQueue.NullNeedsOverlap` | src/wepoll_ex_pool.c:274-311 | NULL out of a non-empty queue means that a producer was between exchange and link at some instant of that pop; `EndsExactly` ties this to the steps of the drain. |
| `ReadyQueue.NullMidLinkExactly` | src/wepoll_ex_pool.c:286-307 | At the instant of such a NULL a producer owes the tail's link exactly when that link is missing. |
| `ReadyQueue.EndsExactly` | src/wepoll_ex_pool.c:274-377 | In every reachable state the next step of the consumer ends its drain exactly when the pop returns NULL or the last node asked for was chained. |
| `ReadyQueue.AloneRun` | src/wepoll_ex_pool.c:274-377 | For every run of a drain that no producer comes near, whatever compare-and-swaps fail: it is under way, or has returned exactly the oldest nodes, as many as were asked for or as there are. |
| `ReadyQueue.DrainsAll` | src/wepoll_ex_pool.c:356-377 | From every reachable state at rest such a drain ends, with exactly those nodes. |
| `ReadyQueue.NullAlone` | src/wepoll_ex_pool.c:274-311 | A NULL met by a consumer that is alone means that the queue is empty. |
| `ReadyQueue.NullWithoutMidLink` | src/wepoll_ex_pool.c:286-307 | An interleaving in which NULL is returned from a non-empty queue with no producer between its two steps. |
| `ReadyQueue.QueuedIsExact` | src/wepoll_ex_pool.c:253-272 | `queued` is the unpopped nodes, plus producers that have counted and not exchanged, plus a pop not yet accounted; in quiescence it is pushed minus returned. |
| `ReadyQueue.QueuedPositive` | src/wepoll_ex_pool.c:264-272 | The compare-and-swap that accounts a pop never finds zero. |
| `ReadyQueue.ActStructure` | src/wepoll_ex_pool.c:250-311 | Each single atomic access keeps the chain from tail to head intact, link by link. |
| `PortMachine.NoneForgotten` | src/wepoll_ex_port.c:2399-2406 | Every live registration has a request outstanding or an event queued, is disabled until the caller acts, or wants the submission that the next arm pass makes (`Waits.StartWait`), unless the kernel gave up its request unasked. |
| `PortMachine.QueuedIffOneNode` | src/wepoll_ex_port.c:4230-4265 | In every reachable state `ready_queued` holds exactly when one queued node carries the generation; the poll is then idle. |
| `PortMachine.PacketsNameStorage` | src/wepoll_ex_port.c:3586-3606 | A packet in flight names one registration in use and settles its one request; the pending count is the number of such requests, detached registrations included. |
| `PortMachine.NotificationsConserved` | src/wepoll_ex_port.c:802-824 | Signals consumed from a kernel object equal events returned plus one held by the owned flag or by a ready node, never by both. |
| `PortMachine.ReportedOncePerAck` | src/wepoll_ex_port.c:5532-5684 | Between two returned events that report the same class there is an acknowledgement of it or a MOD; a terminal event counts as every class. |
| `PortMachine.ReportedOncePerEdge` | src/wepoll_ex_port.c:4139-4161 | Between two returned events of an edge-triggered socket that both carry a bit its level was found without it, its poll went pending, its class was acknowledged, or the observation started over; in between, or at a local shutdown while the first event waited to be returned. |
| `PortMachine.ReturnedCarriesLatest` | src/wepoll_ex_port.c:5964-6079 | Every event returned, as the queue node carried it, had the data and context of the latest successful ADD or MOD, rollbacks included. |
| `PortMachine.FiredCanBeRenewed` | src/wepoll_ex_port.c:5564-5625 | A fired one-shot under explicit rearm has a class left to acknowledge; without a lost cancellation nothing fired or polled waits to be rearmed. |
| `PortMachine.CommitKeeps` | src/wepoll_ex_port.c:3796-4272 | Every critical section on one registration keeps the invariant of the whole port. |
| `PortMachine.CommitNodes` | src/wepoll_ex_port.c:2738-2773 | What a section pushes, replaces or retires leaves one current node for each queued registration and stale ones for nobody. |
| `PortMachine.CommitCount` | src/wepoll_ex_port.c:3586-3606 | A section changes the pending count by its own request and no other. |
| `PortMachine.CommitMarks` | src/wepoll_ex_port.c:3894-3902 | Only the section that settles a request can orphan a registration or put it on both worklists, and only that registration. |
| `PortMachine.Close` | src/wepoll_ex_port.c:3796-4272 | A critical section ends: no other registration notices, the handle goes exactly when the registration is detached, nodes are only appended, and what rested still rests if the section left it so. |
| `PortMachine.CloseControl` | src/wepoll_ex_port.c:5030-5319 | A control operation ends: a failed one leaves everything the caller can see as it was, or the handle is gone. |
| `PortMachine.InsertKeeps` | src/wepoll_ex_port.c:4934-4992 | A new registration under a fresh generation keeps the invariant. |
| `PortMachine.TakeBackKeeps` | src/wepoll_ex_port.c:5964-6079 | Returning the event of a current node keeps the invariant. |
| `PortMachine.DiscardKeeps` | src/wepoll_ex_port.c:5974-6068 | A node without a registration of its generation is stale for every live registration and can be dropped. |
| `PortMachine.ReleaseKeeps` | src/wepoll_ex_port.c:2399-2406 | Releasing the deferred registrations at the start of a wait keeps the invariant. |
| `PortMachine.Port.constructor` | src/wepoll_ex_port.c:4278-4507 | A new port has no registrations, no nodes and no packets. |
| `PortMachine.Port.Add` | src/wepoll_ex_port.c:4889-5028 | ADD refuses a present handle, a closing port and lack of memory without a trace; success enters the registration with its configuration; failure leaves table and queue as they were; other registrations are untouched. |
| `PortMachine.Port.Mod` | src/wepoll_ex_port.c:5030-5319 | MOD of an absent handle changes nothing; success installs the configuration; a queued notification is re-issued with the new interest, data and context and fires the one-shot again, or is owned until interest returns; a failed MOD leaves the registration as it was, or it is gone with its handle; outside a wait, or while one coalesces, what rested still rests. |
| `PortMachine.Port.Del` | src/wepoll_ex_port.c:5321-5369 | DEL removes the entry; storage outlives it exactly while a packet is owed, and the request is cancelled where that is up to the library. |
| `PortMachine.Port.Rearm` | src/wepoll_ex_port.c:5686-5944 | An absent handle, an empty set of classes and a class rearm of a registration without classes are refused; failure leaves the registration as it was; a whole rearm of a fired one-shot re-enables it, or it has fired again; inside a wait a registration left to be polled is polled at once with the newly armed mask, if the system takes it; while a wait coalesces, what rested still rests. |
| `PortMachine.Port.ShutdownSocket` | src/wepoll_ex_port.c:5371-5530 | The call succeeds exactly on a registration that `Shuts`; success adds the directions to a TCP registration and keeps its configuration; a resting registration is announced exactly when it has granted news to tell, and otherwise everything that rested still rests; a queued node is replaced by one with the news added. |
| `PortMachine.Port.Dispatch` | src/wepoll_ex_port.c:4554-4577 | A dequeued packet names storage in use with a request outstanding; it orphans its registration exactly when the request came back cancelled unasked, and crowds it onto both worklists exactly under `Crowds`; a consumed notification, the state of any other object, the news of a covering poll and those of a snapshot refreshed at once are queued for the caller; no other registration notices. |
| `PortMachine.Port.Fire` | src/wepoll_ex_port.c:802-824 | The wait callback puts exactly one packet in flight. |
| `PortMachine.Port.Arm` | src/wepoll_ex_port.c:3729-3760 | One visit of the arm pass polls a registration that wants a poll, or announces its local shutdown, unless the system refuses; a pending poll opens the edge latch and an immediate one keeps it; it retires exactly closed handles and has one of the four effects on the worklists. |
| `PortMachine.Port.BeginWait` | src/wepoll_ex_port.c:6292-6331 | After the start of a wait nothing on the rearm list is held off. |
| `PortMachine.Port.Teardown` | src/wepoll_ex_port.c:4816-4862 | Closing retires each registration; storage outlives it exactly while a packet is owed. |
| `PortMachine.Port.Drain` | src/wepoll_ex_port.c:5950-6104 | A drain takes nodes off the front of the queue until the buffer is full or it took all the nodes it can reach; the events are those of the current nodes, in order, and the others were stale; each registration is returned at most once, with its current snapshot logged, and the others are left alone; a large buffer that received something stops submissions. |
| `PortMachine.Port.DrainNodes` | src/wepoll_ex_port.c:5964-6104 | The same of its loop, whatever node it took before it had the lock. |
| `Waits.StartWait` | src/wepoll_ex_port.c:6292-6331 | After the start of a wait and its arm pass, every live registration that the kernel has not given up is polled, has an event on its way, is disabled until the caller acts, or had its submission refused by the system. |
| `Waits.ArmPort` | src/wepoll_ex_port.c:3729-3790 | The arm pass over real submissions: the rearm list is visited once each, in order; the fired one-shots likewise exactly when none of those visited first is found closed; if all of them are, it runs out of list; no registration is newly orphaned or crowded. |
| `Waits.RearmAll` | src/wepoll_ex_port.c:3738-3759 | The first loop: the lists keep naming exactly the flagged registrations, each one visited is tended or was refused, and a fired one-shot is dropped exactly when its probe finds the handle closed. |
| `Waits.ProbeAll` | src/wepoll_ex_port.c:3761-3784 | The second loop retires closed one-shots and leaves the others fired; it visits its whole budget or ends with an empty list. |
| `Waits.PassLeavesNone` | src/wepoll_ex_port.c:3729-3790 | What the two loops leave behind, for every registration. |
| `Witnesses.RunsOut` | src/wepoll_ex_port.c:3761-3784 | A run from a new port on: a TCP one-shot on both worklists whose handle is closed leaves the second loop without a head. |
| `Coalescing.Coalesce` | src/wepoll_ex_port.c:6520-6600 | One wait with a large buffer, over every sequence of packets, callbacks, drains and control operations: what the queue holds at the start comes first, as far as the drain reaches; the events are the ones given to registrations; an address is returned once, and once more at most for each ADD of it or local shutdown of its handle; a registration that stays is returned once, and once more at most for each local shutdown that roused it, and its history counts exactly these events. |
| `Coalescing.Control` | src/wepoll_ex_port.c:6526-6533 | Nothing but a drain returns an event; a resting registration is renewed exactly when it is added, or when its local shutdown is announced, and its history says so. |
| `Coalescing.Restful` | src/wepoll_ex_port.c:6068-6075 | While a wait coalesces, packets, callbacks and control operations leave what rests at rest. |
| `Coalescing.FairMove` | src/wepoll_ex_port.c:6526-6533 | No such operation lets a registration come out more often than it was renewed. |
| `Coalescing.FairDrain` | src/wepoll_ex_port.c:5964-6104 | Nor does a drain, which returns only registrations that do not rest and leaves them at rest. |
| `Coalescing.DrainMore` | src/wepoll_ex_port.c:6572-6577 | A further drain fills what is left of the buffer with the events given, and submissions stay stopped. |
| `Coalescing.ReturnedAgain` | src/wepoll_ex_port.c:5371-5530 | A resting registration whose local shutdown is announced is the last event of a drain that empties the queue, and its history ends with both; a drain with room for the whole queue empties it. |
| `Witnesses.ReturnedTwice` | src/wepoll_ex_port.c:6526-6533 | A run from a new port on: one coalescing wait returns a TCP socket, its reading end is shut down, and the wait returns it again. |
| `Witnesses.EdgeTwice` | src/wepoll_ex_port.c:2681-2722 | A run from a new port on in which an edge-triggered socket returns a bit twice, and the only event in between finds it set. |
| `Registration.Submit` | src/wepoll_ex_port.c:3254-3584 | A registration that wants a poll gets one of its current interest, if the system takes it, or reports its local shutdown exactly under `Announces`; an immediate snapshot is in hand exactly under `Answers`; a pending poll opens the edge latch and an immediate one keeps it; one that wants none is left alone; a failed submission changes the latch at most; only a closed handle detaches; configuration and shutdown stay. |
| `Registration.SubmitAfd` | src/wepoll_ex_port.c:3501-3583 | The request covers the current interest in the current wait; a pending one reopens the edge latch; an immediate answer is handed back only when asked for; a closed handle is retired. |
| `Registration.SubmitShut` | src/wepoll_ex_port.c:3491-3500 | A locally shut down socket reports the shutdown exactly when there is memory and granted news, and else is polled. |
| `Registration.SubmitArmed` | src/wepoll_ex_port.c:3488-3583 | Without a local shutdown a submission delivers nothing; with one it delivers exactly the announcement. |
| `Registration.SubmitSocket` | src/wepoll_ex_port.c:3468-3490 | A fired one-shot is only probed, and retired exactly when its handle is closed; one that is not to be rearmed is left alone. |
| `Registration.SubmitWaitable` | src/wepoll_ex_port.c:3354-3431 | An owned notification is replayed before the object is touched again; arming a wait reopens the edge latch; an invalid handle is retired. |
| `Registration.Resubmit` | src/wepoll_ex_port.c:3894-3902 | A submission from a completion resumes polling, and its failure is left to the next wait. |
| `Registration.Complete` | src/wepoll_ex_port.c:3796-4272 | One packet settles one request; what is delivered was submitted in this wait and covers the interest, or is the announcement of a local shutdown, each exactly when; at most one refresh, exactly when the snapshot is stale and the kernel has a fresh one, and then the fresh one counts; the news of a covering poll reach the caller and the latch follows its level; a closed handle is retired; the exact cases in which a registration is orphaned, or left on both worklists. |
| `Registration.CompleteSocket` | src/wepoll_ex_port.c:3894-3997 | The socket half of the above, local shutdowns included; a cancelled request is submitted again if wanted. |
| `Registration.CompletePoll` | src/wepoll_ex_port.c:3916-3997 | The same for a request that was not cancelled. |
| `Registration.CompleteWaitable` | src/wepoll_ex_port.c:3819-3915 | A consumed notification reaches the caller with the whole interest, and the state of any other object as it is found; one that was cancelled is submitted again if wanted. |
| `Registration.ProcessSnapshot` | src/wepoll_ex_port.c:3916-3997 | At most one refresh, exactly under `Refreshes`; the news delivered are those of the fresh snapshot then, held against the latch the refresh left, and of the packet's own otherwise; what it delivers is current, or exactly under `Interrupts` the announcement of a local shutdown; both worklists exactly under `Doubles`; a local close retires the registration, in the fresh snapshot as well. |
| `Registration.Freshen` | src/wepoll_ex_port.c:3916-3997 | The refresh loop ends after at most one fresh snapshot, with a snapshot that needs no refresh, or with nothing left to process. |
| `Registration.ProcessSignal` | src/wepoll_ex_port.c:3904-3914 | A dormant waitable stays silent; a consumed signal reaches the caller with the whole interest; of any other object the interest while it is signalled, nothing once it is not, a terminal condition if it cannot be asked, and of an edge what is new. |
| `Registration.ProcessCancellation` | src/wepoll_ex_port.c:3894-3902 | A cancelled request is submitted again exactly when somebody asked for it; otherwise the registration is orphaned. |
| `Registration.Refresh` | src/wepoll_ex_port.c:3952-3997 | A refresh yields a snapshot of this wait and interest exactly when the kernel has one and no local shutdown comes first, reports a local shutdown exactly when there is one to announce, or leaves the registration polled or to be rearmed. |
| `Registration.Translate` | src/wepoll_ex_port.c:3999-4137 | A socket snapshot with news delivers them, whatever the parking of unread datagrams; both worklists exactly for a one-shot with news that was to be rearmed. |
| `Registration.ParkAndDeliver` | src/wepoll_ex_port.c:4034-4271 | Parking an unread datagram changes nothing about what is delivered. |
| `Registration.Deliver` | src/wepoll_ex_port.c:4139-4271 | What is new is delivered and nothing else, bit by bit for an exclusive registration too; the latch follows the level and the history notes it, but an edge that found no memory stays an edge; a level-triggered empty report is polled again at once. |
| `Registration.Queue` | src/wepoll_ex_port.c:4213-4271 | A node is queued exactly when there is memory and something the registration may claim, and carries exactly that; without node or claim the registration waits, throttled if denied. |
| `Registration.Defer` | src/wepoll_ex_port.c:4163-4211 | An empty report polls again at once, or for edge triggering is held off until the next wait. |
| `Registration.SocketLevel` | src/wepoll_ex_port.c:3999-4137 | A socket report stays within the interest and names no class that awaits an acknowledgement. |
| `Registration.StreamReports` | src/wepoll_ex_port.c:3999-4137 | The whole report of a completed stream poll, bit by bit: the poll's error or AFD's events, the level read besides, the local shutdown, the interest, the armed classes and the samples. |
| `Registration.QualifiedExactly` | src/wepoll_ex_port.c:4084-4125 | A bit is reported exactly when AFD reports it, or a stream has it now and AFD reported nothing terminal, its class is armed and no sample contradicts it. |
| `Registration.Qualify` | src/wepoll_ex_port.c:4084-4125 | Merging and sampling stay within the socket bits and the armed classes. |
| `Registration.NativeLevel` | src/wepoll_ex_port.c:3999-4083 | AFD snapshots and failures translate to socket bits only. |
| `Registration.StreamLevel` | src/wepoll_ex_port.c:3999-4083 | A failed poll is an error and nothing else, one without handles is no report, and a stream reports what AFD says. |
| `Registration.DatagramQualified` | src/wepoll_ex_port.c:4001-4052 | The receive qualifier: an error is no hangup, a stale report is no data, and data are data for those who asked to read. |
| `Registration.ParkedAsBefore` | src/wepoll_ex_port.c:4034-4041 | A datagram somebody asked to read, or that was not probed for, leaves the parking as it was. |
| `Registration.ParkedIsNotPolled` | src/wepoll_ex_port.c:4034-4041 | A datagram nobody asked to read does not complete the next poll again, and polling for it resumes otherwise. |
| `Registration.PolledByClass` | src/wepoll_ex_port.c:3177-3219 | A disarmed class is not polled for, an armed one as ever. |
| `Registration.ReportedIsPolled` | src/wepoll_ex_port.c:3177-3219 | Whatever an explicit-rearm registration may report is polled for. |
| `Registration.SilentHasNoNews` | src/wepoll_ex_port.c:6059-6066 | A registration left without a rearm because nothing is polled for has nothing to report, a local shutdown included. |
| `Registration.Latch` | src/wepoll_ex_port.c:4139-4161 | Only bits of the level are reported. |
| `Registration.RisingEdges` | src/wepoll_ex_port.c:4139-4161 | Over any sequence of levels the latch reports exactly the rising edges; `ReportedOncePerEdge` is the law for registrations. |
| `Registration.NewsIsUnreported` | src/wepoll_ex_port.c:2695-2706 | Bits that are queued or newly edged name no class the caller still has to acknowledge. |
| `Registration.ShutdownShows` | src/wepoll_ex_port.c:4126-4137 | After a local shutdown a stream reads as ended, and as hung up once both directions are shut; bit by bit, for every level and interest. |
| `Registration.WithShutdown` | src/wepoll_ex_port.c:4126-4137 | Merging a local shutdown respects interest and unacknowledged classes. |
| `Registration.ShutdownLevel` | src/wepoll_ex_port.c:2654-2675 | So does the level reported for an idle socket. |
| `Registration.ShutdownLevelShows` | src/wepoll_ex_port.c:2654-2675 | That level bit by bit: current levels, the end of the stream for those who read, a hangup once both directions are shut. |
| `Registration.ShutdownNewsFit` | src/wepoll_ex_port.c:2681-2706 | What a shutdown adds to a queued node names no unacknowledged class. |
| `Registration.QueueShutdown` | src/wepoll_ex_port.c:2681-2775 | A local shutdown is published exactly when a node can be had and the news are granted in part, with exactly those bits; it fails exactly for want of memory with news to tell; otherwise the latch moves at most, and exactly to the level. |
| `Registration.Offer` | src/wepoll_ex_port.c:2725-2775 | Published exactly when the claim leaves something, with exactly the bits it leaves; denied, the registration waits throttled; the latch follows the level either way. |
| `Registration.Allowed` | src/wepoll_ex_port.c:2730-2736 | A claim only narrows a report, and only for exclusive registrations. |
| `Registration.Shutdown` | src/wepoll_ex_port.c:5371-5530 | Success records the directions of a TCP socket and reports them at once, exactly when they are granted news, or cancels the request in flight; the call succeeds exactly under `Shuts`; a repeated call retries the report; a resting registration is queued with exactly the granted bits exactly under `Tells`; a polled one is newly to be rearmed only after a lost cancellation. |
| `Registration.PublishShutdown` | src/wepoll_ex_port.c:5469-5512 | A lost cancellation leaves the request pending with the rearm requested. |
| `Registration.TellShutdown` | src/wepoll_ex_port.c:5469-5512 | A registration at rest is queued, and its history says so, or it stays at rest. |
| `Registration.Modify` | src/wepoll_ex_port.c:5030-5319 | The exact new state with a socket request in flight; what becomes of a queued notification; a failed call changes nothing the caller can see; inside a wait an idle registration is polled under the new interest; while one coalesces, what rests still rests. |
| `Registration.Unregister` | src/wepoll_ex_port.c:5321-5369 | DEL: the registration is no longer live, its generation is retired, it is off the worklist, storage outlives it exactly while a packet is owed, and the request is cancelled where that is up to the library. |
| `Registration.ModifyInFlight` | src/wepoll_ex_port.c:5098-5140 | The request is kept exactly when it covers the new interest and no local shutdown waits; a kept request covers it. |
| `Registration.ModifySettled` | src/wepoll_ex_port.c:5141-5319 | The same without a socket request in flight: a queued notification is re-issued with the new interest and fires the one-shot again, or is owned if there is no interest; the call fails exactly for want of a node. |
| `Registration.Install` | src/wepoll_ex_port.c:5192-5303 | New configuration, or the old registration after a failed submission. |
| `Registration.ReconfiguredAs` | src/wepoll_ex_port.c:5192-5251 | The two ways in which MOD changes a registration, field by field. |
| `Registration.SubmitOrRestore` | src/wepoll_ex_port.c:5254-5303 | Undoing a failed submission restores the registration, field by field equal to what it was. |
| `Registration.Acknowledge` | src/wepoll_ex_port.c:5572-5584 | The acknowledged classes are armed and may form an edge again; the history records the acknowledgement. |
| `Registration.Rewatch` | src/wepoll_ex_port.c:5590-5640 | A kept request covers the newly armed classes; an idle registration is polled for them inside a wait if the system takes it; failure restores the registration. |
| `Registration.RewatchPending` | src/wepoll_ex_port.c:5590-5640 | With a request in flight nothing is submitted; the request is kept exactly if it covers the newly armed classes or cannot be cancelled; otherwise it is cancelled, and the call fails exactly when that does. |
| `Registration.RewatchIdle` | src/wepoll_ex_port.c:5643-5681 | The idle half. |
| `Registration.RenewAll` | src/wepoll_ex_port.c:5643-5681 | The last acknowledgement of a fired one-shot arms every class, unparks datagrams and re-enables it, or changes nothing; inside a wait it is polled if the system takes it. |
| `Registration.Reopen` | src/wepoll_ex_port.c:5643-5681 | An idle registration is submitted inside a wait, or restored. |
| `Registration.RearmClasses` | src/wepoll_ex_port.c:5532-5684 | Refused while an event is queued; nothing happens if nothing was disarmed; exactly the acknowledged classes are armed, and their bits leave the edge latch and no others; a read or terminal acknowledgement unparks datagrams; acknowledging everything re-enables a fired one-shot, and less leaves it fired; inside a wait an idle registration is polled with the newly armed mask if the system takes it. |
| `Registration.Rearm` | src/wepoll_ex_port.c:5796-5944 | A fired one-shot is enabled, or has fired again; failure restores it; inside a wait it is polled, on an explicit-rearm port with the classes acknowledged. |
| `Registration.Register` | src/wepoll_ex_port.c:4889-5028 | ADD succeeds exactly when the registration stays; a socket is polled at once; nothing is pushed or delivered, and no direction is shut; a dormant registration, and a waitable outside a wait, is left as it is. |
| `Registration.Return` | src/wepoll_ex_port.c:6026-6067 | Returning logs the event as the node carried it, keeps the invariant, the classes, the parking and the latch, which it opens for objects that give up a notification with every event, leaves nothing outstanding, and leaves the registration to be rearmed without delay unless it is fired or silent. |
| `Registration.GivenUp` | src/wepoll_ex_port.c:3894-3902 | For every registration: a request the kernel gives up unasked is submitted neither by its completion nor by any number of later arm passes, whatever the system answers. |
| `Registration.GivenUpReached` | src/wepoll_ex_port.c:3894-3902 | That for a fresh TCP registration, given up at once. |
| `Registration.WidenAndBack` | src/wepoll_ex_port.c:5098-5140 | MOD beyond the request, a lost cancellation and MOD back leave the request as it was and a rearm besides. |
| `Registration.BothLists` | src/wepoll_ex_port.c:2547-2547 | After that, the completion of a one-shot leaves it on both worklists. |
| `Registration.BothListsReached` | src/wepoll_ex_port.c:2504-2504 | The same for one TCP one-shot from its ADD on. |
| `Readiness.ClassesOf` | src/wepoll_ex_port.c:97-112 | A class is named exactly when one of its bits is delivered. |
| `Readiness.FilterClasses` | src/wepoll_ex_port.c:129-141 | Filtering removes exactly the denied classes. |
| `Readiness.FilterExactly` | src/wepoll_ex_port.c:129-141 | Bit by bit, filtering keeps what no denied class names. |
| `Readiness.DeliveryClasses` | src/wepoll_ex_port.c:156-167 | A terminal delivery disarms every class, any other its own. |
| `Readiness.ReportsSomeClass` | src/wepoll_ex_port.c:97-112 | Every non-empty socket report names a class, so an explicit delivery always disarms one. |
| `Readiness.WatchedBy` | src/wepoll_ex_afd.c:1049-1064 | Every bit of an interest is served by an armed AFD condition of its own class. |
| `Readiness.ArmedIsReportable` | src/wepoll_ex_afd.c:1015-1064 | Whatever is armed for an interest reports something of that interest or a terminal condition. |
| `Readiness.ReportableIsArmed` | src/wepoll_ex_afd.c:1015-1064 | Whatever AFD can report of an interest is armed for it. |
| `Readiness.AfdMeans` | src/wepoll_ex_afd.c:1015-1047 | What each AFD condition means, bit by bit, and nothing else. |
| `History.AcknowledgedBetween` | src/wepoll_ex_port.c:5532-5684 | A sound history has an acknowledgement or a MOD between two reports of one class. |
| `History.EdgeBetween` | src/wepoll_ex_port.c:4139-4161 | The same of every sound history. |
| `History.FallsBetween` | src/wepoll_ex_port.c:4139-4161 | Between two events that queue the same bit there is one after which it may count as an edge again. |
| `History.ReturnedWasFound` | src/wepoll_ex_port.c:5964-6079 | Every bit of a returned event was queued by a completion or a local shutdown, and its node has waited since. |
| `History.ReturnedIsLatest` | src/wepoll_ex_port.c:5964-6079 | In a sound history every event returned carries the configuration before it. |
| `History.TallyCounts` | src/wepoll_ex_port.c:3825-3836 | The tallies kept with a registration are the numbers of signals and returned events in its history. |
| `FdTable.Table.Lookup` | src/wepoll_ex_port.c:2229-2247 | Finds exactly the handles of the map, with their registrations. |
| `FdTable.Table.Insert` | src/wepoll_ex_port.c:2249-2276 | Adds one pair to the map, growing at three quarters; fails only without memory or address space. |
| `FdTable.Table.Grow` | src/wepoll_ex_port.c:2198-2227 | Keeps the map; fails exactly when the size overflows or memory is short. |
| `FdTable.Table.Remove` | src/wepoll_ex_port.c:2278-2310 | Removes exactly the pair asked for. |
| `FdTable.Table.Reinsert` | src/wepoll_ex_port.c:2292-2309 | Reinserting the rest of the cluster restores every probe path. |
| `FdTable.Table.CopyAll` | src/wepoll_ex_port.c:2212-2221 | Rehashing into the larger array keeps the map. |
| `FdTable.Table.Probe` | src/wepoll_ex_port.c:2269-2272 | The probe ends at the first empty cell. |
| `FdTable.Table.Search` | src/wepoll_ex_port.c:2235-2246 | A lookup ends at the handle or at an empty cell with everything before it taken. |
| `FdTable.Table.Find` | src/wepoll_ex_port.c:2284-2290 | So does the search of a removal, by entry. |
| `FdTable.RepairStep` | src/wepoll_ex_port.c:2295-2309 | Moving one entry of a broken cluster never fills the cell that ends it and mends its own path. |
| `FdTable.EmptyEndsProbe` | src/wepoll_ex_port.c:2235-2246 | Meeting an empty cell proves the handle absent. |
| `FdTable.SomeFree` | src/wepoll_ex_port.c:2251-2267 | The load bound leaves an empty cell, so every probe ends. |
| `Worklist.List.Set` | src/wepoll_ex_port.c:2457-2498 | Flag and membership move together; the list stays doubly linked with exact head, tail and count. |
| `Worklist.List.Append` | src/wepoll_ex_port.c:2340-2352 | Links a registration at the tail. |
| `Worklist.List.Unlink` | src/wepoll_ex_port.c:2354-2370 | Takes a registration out and keeps the order of the rest. |
| `Worklist.List.Rotate` | src/wepoll_ex_port.c:2372-2385 | Moves the head to the tail. |
| `Worklist.List.FlagIsMembership` | src/wepoll_ex_port.c:2511-2617 | The flag holds exactly for the linked registrations. |
| `Worklist.ArmPass` | src/wepoll_ex_port.c:3729-3790 | For every effect of each submission on the lists: the first loop visits what was queued at its start once each, in order; the second does so exactly when the first drops none of its registrations, and runs out of list when all of them are dropped. |
| `Worklist.ProbeOneshots` | src/wepoll_ex_port.c:3761-3784 | With the budget of a list it still starts with, the second loop visits that list once each, in order. |
| `Worklist.PassRunsOut` | src/wepoll_ex_port.c:3729-3790 | One closed handle on both lists leaves the second loop without a head. |
| `ExclusiveClaims.Index.TryClaim` | src/wepoll_ex_port.c:267-345 | Denied exactly when a peer holds a terminal claim or every class asked for; otherwise the bits left are those no peer holds, and the claimant owns what it owned and these classes, or after a terminal report that class alone, which ends all other claims on its base. |
| `ExclusiveClaims.Index.Claim` | src/wepoll_ex_port.c:280-342 | The same class by class; a denial changes nothing. |
| `ExclusiveClaims.Index.Survey` | src/wepoll_ex_port.c:285-303 | The chain walk finds exactly what peers hold on the base. |
| `ExclusiveClaims.Index.ClaimTerminal` | src/wepoll_ex_port.c:305-341 | A terminal claim is the only one left on its base. |
| `ExclusiveClaims.Index.ClaimDirections` | src/wepoll_ex_port.c:328-341 | Directional claims leave every peer alone. |
| `ExclusiveClaims.Index.Release` | src/wepoll_ex_port.c:359-410 | Quiet classes are free on the base again, and nothing else is. |
| `ExclusiveClaims.Index.Strip` | src/wepoll_ex_port.c:377-385 | The walk strips every claim on the base although claims leave the chain during it. |
| `ExclusiveClaims.Index.Unlink` | src/wepoll_ex_port.c:175-199 | Removes one registration's claim. |
| `ExclusiveClaims.LessKeeps` | src/wepoll_ex_port.c:201-215 | Taking classes away keeps claims disjoint and terminal claims alone. |
| `ExclusiveClaims.MoreKeeps` | src/wepoll_ex_port.c:217-243 | So does adding classes nobody is in the way of. |
| `ExclusiveClaims.GrantedIsSomething` | src/wepoll_ex_port.c:328-344 | A granted report of some class is never empty. |
| `ExclusiveClaims.Quiescent` | src/wepoll_ex_port.c:245-265 | A class is quiet exactly when a pending request watches all its conditions but urgent data. |
| `ExclusiveClaims.Bucket.Push` | src/wepoll_ex_port.c:217-243 | Pointer level: links a claim at the head of its bucket. |
| `ExclusiveClaims.Bucket.Unlink` | src/wepoll_ex_port.c:175-199 | Pointer level: takes a claim out and keeps the order of the rest. |
| `AfdKeys.Process.Claim` | src/wepoll_ex_afd.c:187-287 | Succeeds at once on a free handle value; ends within the active keys and one more duplicates while others may release; of the handles it made at most the claimed one stays open. |
| `AfdKeys.Process.Try` | src/wepoll_ex_afd.c:211-270 | One turn: a distinct key, a kept collision, or the end. |
| `AfdKeys.Process.CloseAll` | src/wepoll_ex_afd.c:273-275 | Every collision duplicate is closed once, and nothing else is. |
| `AfdKeys.Process.TryClaim` | src/wepoll_ex_afd.c:172-185 | Succeeds exactly when nobody polls the handle value. |
| `AfdKeys.Process.IsActive` | src/wepoll_ex_afd.c:79-90 | The bucket walk finds exactly the active handle values. |
| `AfdKeys.Process.Finish` | src/wepoll_ex_afd.c:289-329 | The duplicate is closed; a reservation holds the same handle value or none. |
| `AfdKeys.Process.Release` | src/wepoll_ex_afd.c:338-376 | The key and its reservation are gone, the handle that reserved it is closed and no other, and the handle value can be claimed again. |
| `AfdKeys.Process.Submit` | src/wepoll_ex_afd.c:871-945 | Afterwards a registration owns a key exactly when its request is pending, and no duplicate is left open; with a free handle value the call succeeds exactly when the request is not refused, under that value. |
| `AfdKeys.Released` | src/wepoll_ex_afd.c:115-150 | Releasing keeps the keys distinct and each in its bucket. |
| `AfdKeys.CollisionsBounded` | src/wepoll_ex_afd.c:243-248 | Distinct open duplicates that all collide are no more than the active keys. |
| `EpfdTable.NeverTouchedAfterDestroy` | src/wepoll_ex_api.c:152-263 | In every interleaving of duplicate, acquire, put, close and timeout a port is destroyed at most once, and whatever a thread or descriptor leads to exists. |
| `EpfdTable.DestroyedUnreferenced` | src/wepoll_ex_api.c:202-251 | Who destroys a port finds no aliases, no references and no other thread near it. |
| `EpfdTable.TimedOutCloseIsDeferred` | src/wepoll_ex_api.c:985-1060 | A port without aliases always has a thread that will destroy it; after a timeout that is the last put. |
| `EpfdTable.RunKeeps` | src/wepoll_ex_api.c:152-263 | Every interleaving keeps the counts exact and one owner for each closing port. |
| `EpfdTable.NamedIsServed` | src/wepoll_ex_api.c:152-215 | In every reachable state an idle thread can acquire and close whatever descriptor is in the table, and duplicate it; the counts follow, and the port closes exactly with its last descriptor. |
| `EpfdTable.LastCloseDestroys` | src/wepoll_ex_api.c:985-1060 | Closing the last descriptor of a port that nobody uses destroys it. |
| `EpfdTable.PutFits` | src/wepoll_ex_api.c:217-251 | The put that drops the last reference of a detached port becomes its owner, no other does. |
| `EpfdTable.TimeoutFits` | src/wepoll_ex_api.c:1042-1055 | A timed-out closer hands its ownership to the references. |
| `EpfdTable.AllocateId` | src/wepoll_ex_api.c:81-95 | Finds a free positive descriptor, and fails exactly when there is none. |
| `PosixPort.FreedAtMostOnce` | src/wepoll_ex_posix.c:203-238 | In every interleaving, cancellations included, a port is freed at most once and never while a name or a thread leads to it. |
| `PosixPort.FreedUnreferenced` | src/wepoll_ex_posix.c:459-473 | Who frees a port finds no aliases, no references and no other thread near it. |
| `PosixPort.NeverLeaked` | src/wepoll_ex_posix.c:210-238 | A port without aliases always has a closer, or, after a cancelled close, a last holder whose release frees it. |
| `PosixPort.AcquiredIsOpen` | src/wepoll_ex_posix.c:309-357 | Acquiring never hands out a closing port. |
| `PosixPort.AfterKeeps` | src/wepoll_ex_posix.c:1408-1478 | Every interleaving keeps the counts exact and one closer for each closing port that is not abandoned. |
| `PosixPort.NamedIsServed` | src/wepoll_ex_posix.c:309-357 | In every reachable state an idle thread can acquire and close whatever descriptor is registered, and it can be given another name. |
| `PosixPort.LastCloseFrees` | src/wepoll_ex_posix.c:1408-1478 | Closing the last name of a port that nobody holds frees it. |
| `PosixPort.CancelFits` | src/wepoll_ex_posix.c:210-224 | A closer cancelled with references left abandons the port to its holders. |
| `PosixPort.ReleaseFits` | src/wepoll_ex_posix.c:459-473 | The last release frees an abandoned port and no other. |
| `Wake.WakesConserved` | src/wepoll_ex_port.c:486-616 | In every interleaving requests equal coalesced plus returned plus the pending one; a wait that blocks on a pending wake has its packet queued or about to be posted. |
| `Wake.CountersExact` | src/wepoll_ex_port.c:486-616 | In every interleaving the counters are the requests made and those that found a wake pending; every pending wake so far has one packet, posted or about to be, and a packet comes off the port once. |
| `Wake.FirstTagReturned` | src/wepoll_ex_port.c:577-616 | A taken wake carries the first tagged payload since the last take, or none if none was tagged. |
| `Wake.ResultsAreTakes` | src/wepoll_ex_port.c:577-616 | In every interleaving waits return the wakes they took, each once and in order, each the first tag since the one before, and count them. |
| `Wake.BlockedWaitGetsThrough` | src/wepoll_ex_port.c:6433-6472 | A wait blocked on a pending wake is at most three steps from taking it. |
| `Wake.RunKeeps` | src/wepoll_ex_port.c:486-616 | Every interleaving keeps the pending wake equal to what was requested since the last take. |
| `PosixIndex.Expand` | src/wepoll_ex_posix.c:1018-1052 | For every batch size the backward pass in one buffer turns each native record into its extended one, with a context exactly when the metadata are unchanged and one registration carries the data. |
| `PosixIndex.ExpandedFields` | src/wepoll_ex_posix.c:1032-1048 | Byte by byte: event bits and data are those of the native record, the flags say edge-triggered and one-shot, and flags, time and context stand at their offsets. |
| `PosixIndex.StoreKeeps` | src/wepoll_ex_posix.c:1021-1050 | Writing a record spares every native record still to be read and every record already written. |
| `PosixIndex.Snapshot` | src/wepoll_ex_posix.c:687-706 | Finds the registration with the data exactly when it is unique, although it stops at a second match. |
| `PosixIndex.Find` | src/wepoll_ex_posix.c:502-521 | Counts exactly the registrations of the open file description behind a descriptor. |
| `PosixIndex.Add` | src/wepoll_ex_posix.c:646-684 | Adds one node to both indexes, or changes nothing. |
| `PosixIndex.Mod` | src/wepoll_ex_posix.c:607-684 | Changes the one matching node, adopts an unknown one, refuses an ambiguous descriptor. |
| `PosixIndex.Del` | src/wepoll_ex_posix.c:607-652 | Removes the one matching node, leaves stale ones, refuses an ambiguous descriptor. |
| `PosixIndex.Insert` | src/wepoll_ex_posix.c:655-682 | A new node is in both sets of chains and counted. |
| `PosixIndex.Remove` | src/wepoll_ex_posix.c:553-569 | A removed node is in neither, and the count follows. |
| `PosixIndex.Change` | src/wepoll_ex_posix.c:676-682 | A changed node moves to the chain of its new data and stays in that of its descriptor. |
| `PosixIndex.WordValue` | src/wepoll_ex_posix.c:1032-1037 | Comparing data as 64-bit values is comparing their bytes. |
| `Timeouts.WaitValid` | src/wepoll_ex_posix.c:841-854 | The loop ends; no chunk exceeds INT_MAX, and if all of them time out they sum to the rounded timespec. |
| `Timeouts.WaitChunks` | src/wepoll_ex_posix.c:833-855 | If every chunk times out, the chunks sum to the timespec rounded up to milliseconds, each at most INT_MAX; no result is passed over; an invalid timespec is refused. |
| `Timeouts.Chunk` | src/wepoll_ex_posix.c:779-807 | A chunk is the rounded rest, or INT_MAX with more to come. |
| `Timeouts.Subtract` | src/wepoll_ex_posix.c:809-821 | Subtracting a chunk takes exactly that many milliseconds off the rounded rest. |
| `Timeouts.SaturatingMulAdd` | src/wepoll_ex_port.c:2110-2117 | Product plus addend, saturated at 2^64-1, without overflow on the way. |
| `Timeouts.FromTimespec` | src/wepoll_ex_port.c:2132-2172 | Both roundings are upward and saturated; `precise` holds exactly when the 100 ns value fits; invalid timespecs are refused. |
| `Timeouts.FromMilliseconds` | src/wepoll_ex_port.c:2119-2130 | Exact for every int; negative means infinite. |

## Left out

- Named pipes: sampling and timers over kernel queries; their registrations follow the waitable path.
- Endpoint-identity validation and the strict and best-effort lifetime builds: provider-dependent queries.
- IOCP post failure and failed disarm of a wait: they end the modelled sequence of steps.
- Wrap-around of generations, epochs and metadata generations: they are unbounded naturals here.
- Diagnostic state: `state`, counters of visits and statistics, timestamps of ready nodes, asynchronous error reporting and errno values.
- Registrations as C structs updated in place: `Reg` is a value in a map of the class `Port`, so aliasing between two holders of one `ep_sock_t` is not captured; the intrusive links are proved at pointer level in `Worklist` and `ExclusiveClaims.Bucket`.
- Pointer links of the AFD key chains and the POSIX chains: sequences here.
- Concrete hash functions and numeric values of event bits: results hold for every bucket function, and masks are sets.
- Weak memory orderings of the ready queue: its atomics are sequentially consistent here.
- The AFD buffer pool, AFD device groups, precise timers, quarantine and the reaper thread.
- Batch control calls, which repeat single ones and report how far they came; version, capability and statistics queries, which copy counters out; signal masks; the POSIX create path's failures; the nginx adapter.
- Links between the modules: a claim, a key and a popped node are answers to the registration machine, while `ExclusiveClaims`, `AfdKeys` and `ReadyQueue` prove what those answers are.  The lists of `Waits` are sequences that name the flagged registrations, and `Worklist.List` proves the linked ones behind them.
- The rest of the wait loop: deadlines, batching of packets, the retry interval of deferred registrations and the order in which errors and events are returned.
