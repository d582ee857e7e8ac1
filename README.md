# Sequential bookkeeping of the SST/macro simulator, in Dafny

This project models five small, self-contained pieces of SST/macro, the
discrete-event simulator of large parallel machines. Each piece is
sequential, and each has its own Dafny module:

- **RendezvousRdma** models the receive side of the rendezvous-get MPI protocol
  (`rendezvous_rdma.cc`).
  - Receives that have matched a header wait in a table keyed by message id.
  - When the payload arrives, its entry is removed and the receive is finalized.
  - A payload that matches no entry is an `illformed_error`.
- **MpiComm** models the communicator object (`mpi_comm.cc`):
  - the constructors and the size check;
  - the rank-to-task lookups;
  - the attribute (keyval) table;
  - the collective-tag generator. It puts the communicator id in the upper 16
    bits of a 32-bit word and a per-communicator counter in the lower bits.
- **ComputeLoops** models loop costing (`lib_compute_loops.h`). A `compute_loopN`
  call charges the product of its N inclusive range lengths, unless loop
  costing is switched off. `compute_array_init` raises a memory flag around
  one read.
- **Pisces** models per-packet state of the flow-level network model
  (`pisces.h`):
  - choosing the virtual channel;
  - bandwidth that is set once and after that only lowered;
  - the setters, credits and the congestion-delay accumulator.
- **EventScheduler** models who owns the sequence counters
  (`event_scheduler.h`, stand-alone build).
  - Every event component owns one 32-bit counter cell.
  - Each subcomponent built from it points at that same cell.
  - A subcomponent also gets its parent's event manager, location and thread.

Two helper modules support them. **Common** holds the error kinds and the
Option/Result/Outcome wrappers used to model a throw, plus `Ptr` for `void*`.
**Words** holds powers of two, an n-bit bitwise OR on naturals, and the
conversions between 32-bit patterns and `int32`.

Code that changes objects in place becomes Dafny classes with `modifies`
clauses. Examples are the message and queue fields, the communicator's
counter and keyval table, packet fields, and the shared counter cell. Each
such method's `ensures` ties the new state to a pure function. The
properties are then proved as lemmas about those functions: the header/payload
round trip, tag layout and distinctness, trip-count permutation invariance,
and bandwidth-cap composition. Calls into collaborators are recorded in order
in a log field, as `Action` or `Work` values. These collaborators are the
queue's post/finalize/ack/probe calls, `api()->compute`, `compute_loop_work`
and the memmove `read`.

Some constants are defined in headers that are not part of this model. The
model uses these values:

- `MPI_COMM_WORLD` = 0
- `MPI_COMM_NULL` = -1
- `routing::uninitialized` = -123
- `pisces_payload::uninitialized_bw` = -1.0
- `locatable::null_threadid` = -1

Only the comparisons against these constants matter. The one exception is the
first collective-tag counter, `MPI_COMM_WORLD + 100`.

The tag lemmas show that tags stay distinct only while the counter is below
2^16. At 2^16 the counter's bits reach the id field, where they are OR-ed into
the id. The lemmas describe the first block past the limit, counters 2^16 to
2^17 - 1:
- `TagCollisionPastLimit`: a communicator with an even id reissues, counter
  for counter, the tags that the communicator whose id is one higher draws at
  counters 0 to 2^16 - 1.
- `OddIdSelfReissue`: a communicator with an odd id already has bit 16 set in
  its id field, so it reissues its own tags from counters 0 to 2^16 - 1.
- `FirstTagReissued`: the consequence for real communicators, whose counters
  start at `MPI_COMM_WORLD + 100`. After 2^16 collective tags, a communicator
  with an even id draws the first tag that the next-higher id ever issues.

From counter 2^17 on, higher counter bits are OR-ed into the id field as well,
so a communicator then draws tags of still other ids. The model proves no
lemma about those later blocks.

## Model

| member | source | states |
|---|---|---|
| `RendezvousRdma.RendezvousGet.constructor` | sumi-mpi/mpi_protocol/rendezvous_rdma.cc:11-15 | the pin delay defaults to 0 and software acks default to true when the parameters are absent; otherwise the given values are taken |
| `RendezvousRdma.RendezvousGet.ConfigureSendBuffer` | sumi-mpi/mpi_protocol/rendezvous_rdma.cc:21-30 | compute is charged only for a nonzero pin delay; the remote buffer is overwritten only by a non-null buffer and is otherwise unchanged |
| `RendezvousRdma.RendezvousGet.SendHeader` | sumi-mpi/mpi_protocol/rendezvous_rdma.cc:32-39 | the message becomes a header and is posted without a NIC ack |
| `RendezvousRdma.RendezvousGet.IncomingHeader` | sumi-mpi/mpi_protocol/rendezvous_rdma.cc:41-47 | asks the queue for the matching receive, then handles the header with the answer. With a match, the message becomes data, needs no send ack and targets the request's buffer, while its remote buffer is kept; the request is stored under the message id. Without one, the message and the table are unchanged. The log gains the pop, then the RDMA post when there is a match, then the probe notification |
| `RendezvousRdma.RendezvousGet.IncomingHeaderWithRequest` | sumi-mpi/mpi_protocol/rendezvous_rdma.cc:49-79 | with a request: the message becomes data, needs no send ack and targets the request's buffer; the request is stored under the message id; an RDMA is posted with a hardware send ack exactly when acks are not in software. Without one: the message and the table are unchanged. Probes are notified in both cases |
| `RendezvousRdma.RendezvousGet.IncomingPayload` | sumi-mpi/mpi_protocol/rendezvous_rdma.cc:81-118 | fails with an ill-formed error exactly when no receive waits under the id; the table is then unchanged and nothing is finalized. Otherwise only that entry is removed, the stored request is finalized, and a completion ack is sent iff acks are in software. The pin delay is charged first in both cases |
| `RendezvousRdma.PinCharge` | sumi-mpi/mpi_protocol/rendezvous_rdma.cc:86-88 | a compute charge is made exactly when the pin delay is nonzero |
| `RendezvousRdma.TakePayload` | sumi-mpi/mpi_protocol/rendezvous_rdma.cc:90-113 | defined exactly when the id is in the table; removes that key only, keeps every other entry, and returns the stored request |
| `RendezvousRdma.HeaderPayloadRoundTrip` | sumi-mpi/mpi_protocol/rendezvous_rdma.cc:67-113 | a matched header for a fresh id followed by its payload restores the table and yields the request that matched |
| `RendezvousRdma.TakePayloadCommutes` | sumi-mpi/mpi_protocol/rendezvous_rdma.cc:112-113 | payloads for two different waiting ids leave the same table in either order |
| `RendezvousRdma.DuplicateHeaderReplaces` | sumi-mpi/mpi_protocol/rendezvous_rdma.cc:67 | a second header for an id that is already waiting replaces the first request, and the payload then completes the newer one |
| `RendezvousRdma.RendezvousGet.HeaderThenPayload` | sumi-mpi/mpi_protocol/rendezvous_rdma.cc:64-117 | header then payload of one message: the payload succeeds, the table is as before, and the request that matched is finalized |
| `MpiComm.MpiComm.Null` | sumi-mpi/mpi_comm/mpi_comm.cc:27-36 | the null communicator: id `MPI_COMM_NULL`, rank -1, counter 0, no group, no keyvals; its size is a value error |
| `MpiComm.MpiComm.Init` | sumi-mpi/mpi_comm/mpi_comm.cc:43-55 | the full constructor's field initialisation, with the counter at `MPI_COMM_WORLD + 100` |
| `MpiComm.MpiComm.New` | sumi-mpi/mpi_comm/mpi_comm.cc:43-65 | fails with a value error iff the group is empty; otherwise gives a fresh communicator with the given fields, the counter at `MPI_COMM_WORLD + 100`; when the id is not `MPI_COMM_NULL`, its size is the group size |
| `MpiComm.MpiComm.Size` | sumi-mpi/mpi_comm/mpi_comm.cc:99-111 | a value error for the null id; otherwise a null error for a missing group; otherwise the group size |
| `MpiComm.MpiComm.PeerTask` | sumi-mpi/mpi_comm/mpi_comm.cc:160-164 | the task at the given rank of the group |
| `MpiComm.MpiComm.MyTask` | sumi-mpi/mpi_comm/mpi_comm.cc:153-157 | the peer task at the communicator's own rank |
| `MpiComm.MpiComm.GlobalToCommRank` | sumi-mpi/mpi_comm/mpi_comm.cc:73-78 | always an unimplemented error |
| `MpiComm.MpiComm.DupKeyvals` | sumi-mpi/mpi_comm/mpi_comm.cc:80-90 | fails with an unimplemented error iff the source communicator has at least one keyval |
| `MpiComm.MpiComm.SetKeyval` | sumi-mpi/mpi_comm/mpi_comm.cc:113-118 | the keyval is filed under its key and holds the new value; every other key is unchanged |
| `MpiComm.MpiComm.GetKeyval` | sumi-mpi/mpi_comm/mpi_comm.cc:120-138 | the value output is always the keyval's own value; the flag is 1 iff the key is absent from the table |
| `MpiComm.KeyvalFlag` | sumi-mpi/mpi_comm/mpi_comm.cc:124-129 | the flag is 1 iff the key is absent and 0 iff it is present |
| `MpiComm.AttrFoundFlag` | sumi-mpi/mpi_comm/mpi_comm.cc:124-129 | corrected flag: 1 iff the attribute is present, as section 6.7.2 of MPI-3.1 specifies |
| `MpiComm.KeyvalFlagInverted` | sumi-mpi/mpi_comm/mpi_comm.cc:124-129 | the flag as written is the complement of the MPI flag on every input; for a key that is present it reports 0 |
| `MpiComm.MpiComm.NextCollectiveTag` | sumi-mpi/mpi_comm/mpi_comm.cc:143-150 | returns the packed tag of the id and the old counter; the counter grows by exactly 1 |
| `MpiComm.CollectiveTag` | sumi-mpi/mpi_comm/mpi_comm.cc:146-147 | the tag is in the int32 range, and its 32-bit pattern is the OR of the id's low 16 bits, shifted left 16, with the counter's pattern |
| `MpiComm.TagBits` | sumi-mpi/mpi_comm/mpi_comm.cc:146-147 | the tag's 32-bit pattern is below 2^32: the low 16 bits of the id shifted left 16, OR-ed with the counter wrapped to 32 bits |
| `MpiComm.TagLayout` | sumi-mpi/mpi_comm/mpi_comm.cc:146-147 | for a counter below 2^16, the tag's 32-bit pattern is id mod 2^16 times 2^16 plus the counter |
| `MpiComm.TagFields` | sumi-mpi/mpi_comm/mpi_comm.cc:146-147 | for a counter below 2^16, the upper 16 bits of the tag are the comm id mod 2^16 and the lower 16 bits are the counter |
| `MpiComm.TagsDistinct` | sumi-mpi/mpi_comm/mpi_comm.cc:143-150 | for counters below 2^16, tags are equal only for the same 16-bit id and the same counter |
| `MpiComm.TagBitsOverflow` | sumi-mpi/mpi_comm/mpi_comm.cc:146-148 | for an even 16-bit id and c below 2^16, the pattern at counter 2^16 + c is (id + 1) shifted left 16, plus c: the counter's bit 16 is OR-ed into the id's lowest bit |
| `MpiComm.TagCollisionPastLimit` | sumi-mpi/mpi_comm/mpi_comm.cc:146-148 | for every even 16-bit id and every c below 2^16, the tag at counter 2^16 + c equals the tag at counter c of the communicator whose id is one higher, so the bound above is needed |
| `MpiComm.TagBitsOddOverflow` | sumi-mpi/mpi_comm/mpi_comm.cc:146-148 | for an odd 16-bit id and c below 2^16, the pattern at counter 2^16 + c is the id shifted left 16, plus c: the counter's bit 16 is already set in the id field |
| `MpiComm.OddIdSelfReissue` | sumi-mpi/mpi_comm/mpi_comm.cc:146-148 | for every odd 16-bit id and every c below 2^16, the tag at counter 2^16 + c equals the same communicator's tag at counter c |
| `MpiComm.TagRun` | sumi-mpi/mpi_comm/mpi_comm.cc:146-148 | the n tags of successive calls: element i is the tag for counter + i |
| `MpiComm.TagRunCarriesId` | sumi-mpi/mpi_comm/mpi_comm.cc:143-150 | every tag drawn while the counter stays below 2^16 carries the communicator id in its upper 16 bits |
| `MpiComm.TagRunDistinct` | sumi-mpi/mpi_comm/mpi_comm.cc:143-150 | successive tags drawn while the counter stays below 2^16 are pairwise distinct |
| `MpiComm.FirstTagReissued` | sumi-mpi/mpi_comm/mpi_comm.cc:146-148 | counting from the first counter `MPI_COMM_WORLD + 100` (set at line 50), the tag after 2^16 tags of an even 16-bit id equals the first tag of the communicator whose id is one higher |
| `MpiComm.MpiComm.TwoCollectiveTags` | sumi-mpi/mpi_comm/mpi_comm.cc:143-150 | two consecutive calls return distinct tags, both carrying the id, and advance the counter by 2 |
| `Words.BitOr` | sumi-mpi/mpi_comm/mpi_comm.cc:147 | the n-bit OR fits in n bits |
| `Words.BitOrDisjoint` | sumi-mpi/mpi_comm/mpi_comm.cc:147 | OR of a value shifted left k with a value under 2^k is their sum |
| `Words.BitOrSplit` | sumi-mpi/mpi_comm/mpi_comm.cc:147 | OR distributes over a split at bit k: the high parts and the low parts (each under 2^k) are OR-ed separately |
| `Words.BitOrEvenHigh` | sumi-mpi/mpi_comm/mpi_comm.cc:147 | OR-ing 2^k + c (c under 2^k) into a value with bit k and the bits below it clear adds 2^k + c |
| `Words.BitOrOddHigh` | sumi-mpi/mpi_comm/mpi_comm.cc:147 | OR-ing 2^k + c (c under 2^k) into a value with bit k set and the bits below it clear adds only c |
| `Words.BitOrSharedTop` | sumi-mpi/mpi_comm/mpi_comm.cc:147 | within k + 1 bits, OR-ing 2^k into 2^k + c (c under 2^k) leaves 2^k + c |
| `Words.ToInt32` | sumi-mpi/mpi_comm/mpi_comm.cc:147 | reading a 32-bit pattern as `int` gives a value in the int32 range whose pattern is the same |
| `ComputeLoops.LevelTrips` | sstmac/software/libraries/compute/lib_compute_loops.h:66 | one level's count `to - from + 1` is positive exactly when `from <= to`, and zero exactly when `to = from - 1` (a reversed range is not clamped) |
| `ComputeLoops.LoopTrips` | sstmac/software/libraries/compute/lib_compute_loops.h:49 | the product of `to - from + 1` over the levels, outermost first: 1 for no levels, positive when every range is non-empty |
| `ComputeLoops.SingleLevelTrips` | sstmac/software/libraries/compute/lib_compute_loops.h:66 | one level is charged `to - from + 1` trips |
| `ComputeLoops.LoopTripsAppend` | sstmac/software/libraries/compute/lib_compute_loops.h:56-57 | the trips of a nest split into an outer and an inner part are the product of the parts' trips |
| `ComputeLoops.LoopTripsZero` | sstmac/software/libraries/compute/lib_compute_loops.h:230-238 | a level with `to = from - 1` makes the charge 0, and a charge of 0 implies some level has count 0 |
| `ComputeLoops.LoopTripsNonNegative` | sstmac/software/libraries/compute/lib_compute_loops.h:49 | a nest in which no range is reversed beyond empty has a non-negative trip count |
| `ComputeLoops.LoopTripsPermutation` | sstmac/software/libraries/compute/lib_compute_loops.h:237-238 | permuting the range pairs does not change the charge |
| `ComputeLoops.LoopCharge` | sstmac/software/libraries/compute/lib_compute_loops.h:65-69 | nothing is charged when loop costing is off; otherwise one charge of the nest's trip product with the given line count |
| `ComputeLoops.LibComputeLoops.constructor` | sstmac/software/libraries/compute/lib_compute_loops.h:30-31 | loop costing is on or off as given, the memory flag starts lowered, and nothing has been charged |
| `ComputeLoops.LibComputeLoops.ComputeArrayInit` | sstmac/software/libraries/compute/lib_compute_loops.h:33-39 | reads `arraysize * sizeof(Type)` bytes with the memory flag raised during the read; the flag is lowered afterwards |
| `ComputeLoops.LibComputeLoops.ComputeLoop` | sstmac/software/libraries/compute/lib_compute_loops.h:62-70 | charges `to1 - from1 + 1` trips with `numlines` unchanged, or nothing when loop costing is off |
| `ComputeLoops.LibComputeLoops.ComputeLoop2` | sstmac/software/libraries/compute/lib_compute_loops.h:80-91 | charges the product of the 2 range lengths, or nothing when loop costing is off |
| `ComputeLoops.LibComputeLoops.ComputeLoop3` | sstmac/software/libraries/compute/lib_compute_loops.h:103-115 | charges the product of the 3 range lengths, or nothing when loop costing is off |
| `ComputeLoops.LibComputeLoops.ComputeLoop4` | sstmac/software/libraries/compute/lib_compute_loops.h:122-137 | charges the product of the 4 range lengths, or nothing when loop costing is off |
| `ComputeLoops.LibComputeLoops.ComputeLoop5` | sstmac/software/libraries/compute/lib_compute_loops.h:153-168 | charges the product of the 5 range lengths, or nothing when loop costing is off |
| `ComputeLoops.LibComputeLoops.ComputeLoop6` | sstmac/software/libraries/compute/lib_compute_loops.h:186-203 | charges the product of the 6 range lengths, or nothing when loop costing is off |
| `ComputeLoops.LibComputeLoops.ComputeLoop7` | sstmac/software/libraries/compute/lib_compute_loops.h:223-242 | charges the product of the 7 range lengths, or nothing when loop costing is off |
| `Pisces.UpdatedVc` | sstmac/hardware/pisces/pisces.h:52-60 | the uninitialized sentinel maps to channel 0 and any other channel to itself; the result is never the sentinel |
| `Pisces.InitBw` | sstmac/hardware/pisces/pisces.h:82-85 | takes the new bandwidth only when the current one is the uninitialized sentinel |
| `Pisces.CappedBw` | sstmac/hardware/pisces/pisces.h:87-91 | the result is at most the cap; it equals the cap when bandwidth was unset, and otherwise is the old bandwidth or the cap, whichever is smaller |
| `Pisces.InitBwOnce` | sstmac/hardware/pisces/pisces.h:82-85 | after one real initialisation, later initialisations change nothing |
| `Pisces.CappedBwIdempotent` | sstmac/hardware/pisces/pisces.h:87-91 | capping twice at the same bandwidth equals capping once |
| `Pisces.CappedBwCompose` | sstmac/hardware/pisces/pisces.h:87-91 | two caps equal one cap at their minimum, in either order |
| `Pisces.PiscesPacket.constructor` | sstmac/hardware/pisces/pisces.h:159-168 | the packet keeps its size, tail flag, addresses and route, and starts at the given bandwidth |
| `Pisces.PiscesPacket.Vc` | sstmac/hardware/pisces/pisces.h:42-44 | the virtual channel the packet currently travels on |
| `Pisces.PiscesPacket.Arrival` | sstmac/hardware/pisces/pisces.h:72-75 | the recorded arrival time |
| `Pisces.PiscesPacket.Bw` | sstmac/hardware/pisces/pisces.h:96-99 | the bandwidth currently stored |
| `Pisces.PiscesPacket.MaxIncomingBw` | sstmac/hardware/pisces/pisces.h:109-112 | the recorded bandwidth cap |
| `Pisces.PiscesPacket.Inport` | sstmac/hardware/pisces/pisces.h:129-132 | the port the packet arrived on |
| `Pisces.PiscesPacket.NextPort` | sstmac/hardware/pisces/pisces.h:180-183 | the route's port |
| `Pisces.PiscesPacket.NextVc` | sstmac/hardware/pisces/pisces.h:185-188 | the route's virtual channel |
| `Pisces.PiscesPacket.UpdateVc` | sstmac/hardware/pisces/pisces.h:52-60 | the channel becomes `UpdatedVc(next_vc())` and is never the sentinel |
| `Pisces.PiscesPacket.SetArrival` | sstmac/hardware/pisces/pisces.h:72-80 | `arrival()` returns the time set |
| `Pisces.PiscesPacket.InitBandwidth` | sstmac/hardware/pisces/pisces.h:82-85 | bandwidth becomes `InitBw(old, b)`; a bandwidth already set is unchanged |
| `Pisces.PiscesPacket.SetMaxBw` | sstmac/hardware/pisces/pisces.h:87-91 | bandwidth becomes `CappedBw(old, b)`: at most `b`, and never raised when already set |
| `Pisces.PiscesPacket.SetBw` | sstmac/hardware/pisces/pisces.h:96-107 | `bw()` returns the bandwidth set |
| `Pisces.PiscesPacket.SetMaxIncomingBw` | sstmac/hardware/pisces/pisces.h:109-117 | `max_incoming_bw()` returns the bandwidth set |
| `Pisces.PiscesPacket.SetInport` | sstmac/hardware/pisces/pisces.h:124-132 | `inport()` returns the port set |
| `Pisces.DelayStatsPacket.constructor` | sstmac/hardware/pisces/pisces.h:240-250 | the congestion delay starts at 0 |
| `Pisces.DelayStatsPacket.CongestionDelay` | sstmac/hardware/pisces/pisces.h:258-261 | the congestion delay accumulated so far |
| `Pisces.DelayStatsPacket.AccumulateDelay` | sstmac/hardware/pisces/pisces.h:266-269 | the congestion delay grows by exactly the given seconds |
| `Pisces.PiscesCredit.constructor` | sstmac/hardware/pisces/pisces.h:287-310 | the getters return the port, channel and credit count given at construction |
| `Pisces.PiscesCredit.Vc` | sstmac/hardware/pisces/pisces.h:297-300 | the virtual channel the credits are for |
| `Pisces.PiscesCredit.Port` | sstmac/hardware/pisces/pisces.h:302-305 | the port the credits are for |
| `Pisces.PiscesCredit.NumCredits` | sstmac/hardware/pisces/pisces.h:307-310 | the number of credits returned |
| `EventScheduler.EventScheduler.Component` | sstmac/common/event_scheduler.h:246-257 | the component points at a fresh counter cell of its own, starting at 0; its thread is the manager's thread, or the null thread without a manager |
| `EventScheduler.EventScheduler.Subcomponent` | sstmac/common/event_scheduler.h:280-284 | the subcomponent points at its parent's counter cell (the same object) and takes the parent's manager, location and thread |
| `EventScheduler.EventScheduler.Now` | sstmac/common/event_scheduler.h:162-165 | the owning event manager's current time |
| `EventScheduler.EventScheduler.NThread` | sstmac/common/event_scheduler.h:167-170 | the owning event manager's thread count |
| `EventScheduler.EventScheduler.EventMgr` | sstmac/common/event_scheduler.h:172-175 | the manager given at construction |
| `EventScheduler.EventScheduler.NextSeqnum` | sstmac/common/event_scheduler.h:197-199 | an increment through the counter pointer: returns the old value and advances the shared cell modulo 2^32 |
| `EventScheduler.SubcomponentSharesCounter` | sstmac/common/event_scheduler.h:281-284 | an increment through a subcomponent is seen by its parent: parent and subcomponent draw consecutive numbers from one cell |

## Left out

- The parallel synchronization engine in `clock_cycle_event_container.h` is left out. Only its declarations are available (`run`, `vote_next_round`, `do_vote`, `vote_to_terminate`, `ipc_schedule`, `receive_incoming_events`), and they rely on parallel-runtime reductions and threads.
- Several scheduling bodies in `event_scheduler.h` are left out: `schedule`, `schedule_delay`, `schedule_now`, `send_to_link`, `ipc_schedule`, `sanity_check` and `multithread_schedule` are only declared there. `EventScheduler.EventScheduler.NextSeqnum` stands in for the counter increment those bodies perform.
- The integrated SST core build (`SSTMAC_INTEGRATED_SST_CORE`) is left out. Also left out are `cancel_all_messages`, `deadlock_check`, `setup`, `init` and `register_stat`.
- The event manager's own code is not part of this model. `EventScheduler.EventManager` only holds the values the scheduler reads.
- `compute_loop_work`, `compute_fft` and the memmove `read` are left out; they turn trips into costs using doubles. Their calls are recorded as `Work` entries.
- `pisces_payload::ser_delay` (a floating-point division), `serialize_order` and `to_string` are left out.
- The `mpi_queue` collaborators are recorded as `Action` entries rather than modelled: `post_header`, `post_rdma`, `finalize_recv`, `send_completion_ack`, `notify_probes`, `pop_pending_request` and `api()->compute`. The queue's request matching is a parameter of `IncomingHeader`.
- Also left out of the rendezvous protocol: the stderr dump of waiting requests, the backtraces, the debug printing, and the `SSTMAC_COMM_SYNC_STATS` time stamp.
- Also left out of the communicator: `to_string` and `operator<<`, the `comm_null` static and `delete_statics`, the destructor's group deletion, and the `sumi::communicator` base class.
- C++ inheritance is flattened, since the model uses no traits.
  - `pisces_payload` and `pisces_routable_packet` are one class. A delay-stats packet keeps only its flow id and delay.
  - `event_component` and `event_subcomponent` are two constructors of one scheduler class.
  - The `rendezvous_protocol` base class is merged into `rendezvous_get`. Its constructor, which reads the pin delay and the software-ack parameters, becomes the `RendezvousGet` constructor.
- `do_loops_` is a static shared by all instances. The model keeps it as a field of each instance.
- The routable's path-setting API is not part of this model. The route's port and channel are set at construction.
- `Pisces.PiscesPacket.constructor`: the payload constructor's body is not part of this model, so the initial bandwidth is a parameter. The other fields are left unconstrained.
- `MpiComm.MpiComm.MyTask`: requires a group and an in-range rank. `mpi_group::at` is not part of this model, and a null group is dereferenced.
- `MpiComm.MpiComm.PeerTask`: requires a group and an in-range rank, for the same reason.
- `MpiComm.MpiComm.NextCollectiveTag`: the counter grows in unbounded integers. The signed overflow of `next_collective_tag_` (undefined behaviour in C++) is not modelled. The overflow of `(id << 16)` is modelled as two's-complement wrap-around.
- `ComputeLoops.LoopCharge`: trip products are unbounded integers. The signed 64-bit overflow of the `long long` products is not modelled. `numlines` is a `real` instead of a converted `double`.
- `ComputeLoops.LibComputeLoops.ComputeArrayInit`: the byte count is an unbounded product. The conversion through `size_t` is not modelled, and `sizeof(Type)` is a parameter.
- `Pisces.DelayStatsPacket.AccumulateDelay`: delays and bandwidths are exact reals, with no rounding and no NaN.
- `ComputeLoops.LibComputeLoops.constructor`: the constructor's body is not part of this model. The memory flag `doing_memory_` is taken to start lowered, and `do_loops_` is a parameter instead of a simulation parameter.
- `EventScheduler.EventScheduler.Now`: requires an event manager. A scheduler built without one would dereference null in the source (event_scheduler.h:164); the model does not describe that crash.
- `EventScheduler.EventScheduler.NThread`: requires an event manager. A scheduler built without one would dereference null in the source (event_scheduler.h:169); the model does not describe that crash.

## Findings

| source | as written | input that shows it | evidently intended | confidence | as-written member | corrected member |
|---|---|---|---|---|---|---|
| sumi-mpi/mpi_comm/mpi_comm.cc:124-129 | `get_keyval` sets the flag to 1 when the key is absent from the table and to 0 when it is present | a communicator whose table holds key 5, queried with a keyval of key 5, reports flag 0 | the flag is 1 exactly when the attribute is present, as for `MPI_Comm_get_attr` in section 6.7.2 of MPI-3.1 | medium, not executed; a caller that is not part of this model might invert it back | `MpiComm.KeyvalFlagInverted` | `MpiComm.AttrFoundFlag` |
