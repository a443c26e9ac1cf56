# A verified model of the imxrt-usbd driver

imxrt-usbd drives the USB device controller of the i.MX RT processors. The driver and the
controller work on the same registers, descriptors and packet buffers, and the controller may
step between any two accesses of the driver. This project models both sides as one system and
proves what every interleaving keeps: who owns a buffer, which packets arrive, which events are
reported, and which bytes the controller may touch.

## How the model is built

| File | What it holds |
|---|---|
| Types.dfy | bytes, words, addresses, errors; arithmetic of packed fields |
| TransferDescriptor.dfy, QueueHead.dfy | the packed words of src/td.rs and src/qh.rs as classes, and the decoded images they refine |
| EndpointRegisters.dfy | the shared registers as sets of bit positions, and the per-endpoint records they refine |
| PackedEndpoint.dfy | an endpoint over packed words: construction and scheduling take the steps of the protocol |
| Memory.dfy, Buffers.dfy | byte memory, the page walk of the controller, the bump allocator and its buffers |
| Cache.dfy | the line loop of src/cache.rs |
| EndpointTable.dfy, BusAllocation.dfy | the allocation mask and slots of src/state.rs; `alloc_ep` of src/bus.rs |
| Device.dfy | the shared state, the steps of the controller, the accesses of the driver, the packet histories |
| Invariant.dfy, Agreement.dfy | what holds in every reachable state; what the driver may rely on while the controller runs |
| ControllerSteps.dfy, DriverSteps.dfy | every step of either side keeps both |
| Runs.dfy | interleaved runs of any length, and the theorems about all of them |
| Usb.dfy | the peripheral: one access at a time, with the controller running before each |
| Endpoint.dfy, CallEffects.dfy, Driver.dfy | the methods of src/endpoint.rs and src/driver.rs, and what each does to the shared state |
| Calls.dfy, Bus.dfy, Sessions.dfy | the dispatch of src/bus.rs; sessions of any calls, resets and configurations among them, as the users of the endpoints see them |
| PowerUp.dfy | from static memory, through the requests of the USB classes, to a bus that serves |
| Ownership.dfy | exactly when a schedule, and a configuration, keeps to the agreement |
| Gap.dfy | whole calls, as runs from power-up, that go on behind a failure or return an unreported packet |

A `Peripheral` holds the shared state and a script: the controller steps to take before each
access of the driver. The script is arbitrary and the driver never sees it, so that a contract
of a driver method holds for every interleaving. Each write of the driver must be `Legal`: it may
touch descriptor, overlay and buffer of an endpoint only while that endpoint is neither primed
nor priming, prime only a finished schedule, and acknowledge only an event that is up. Each method
records its writes and its looks, in their order; the contracts state the list of writes, and
where the order of the looks matters, theirs. Between calls the driver object is valid: no
endpoint is priming, so that ENDPTSTAT alone tells who has an endpoint.

Slots are numbered as in the source: twice the endpoint index, plus one for IN. "Data endpoint"
means an endpoint other than endpoint zero.

### What is assumed of the controller

It accepts a prime (on endpoint zero a pending SETUP may cancel it instead), receives or sends
one packet on a primed endpoint through the page pointers of the descriptor that the queue head
leads to, fails a transfer with an error status, delivers SETUP packets whole and takes the
tripwire down with each, raises reset, sets NAK bits, and finishes flushes. It never sets a prime
bit, sets a status bit only from a prime bit, and writes memory only where the descriptor it has
loaded says. The byte walk over the page pointers is that of section 3.5.4 of EHCI 1.0. When the
script is used up, primes are accepted and flushes finish; the spin loops of the source end for
that reason and for no other.

## What was found

* `ep_read`, `ep_write`, `ctrl0_read` and `ctrl0_write` look at the descriptor's status first and
  at ENDPTSTAT second (src/driver.rs:273-275, 297-299). A transfer that fails between the two
  looks passes both. `WriteBehindFailure`: from every reachable state in which the controller has
  an IN endpoint, `ep_write` can then accept a packet behind one that failed. `ReadOfRemains`:
  from every reachable state in which it has an OUT endpoint that the last report named,
  `ep_read` can return the bytes of a packet that was never received. `InTransferIsReachable` and
  `FirstRead` reach such states in every configuration with such an endpoint. Without a reset this
  happens if and only if a failure falls between the two looks of the call (`FailedPredecessor`,
  `UncutQueue`, `StrayRead`), and so never in a call that finds ENDPTSTAT clear when it begins;
  and never to a packet that a user writes after it has waited for the report of the one before
  (`DisciplinedQueue`).
* The source means reads to agree with what `poll` has reported (src/driver.rs:51-62). The first
  successful read after a report returns the packet that the report was about, once a read has
  succeeded since the last unstall or configuration, or if that call found the endpoint free with
  its completion bit down, as the first one after power-up does (`FirstReadAfterReport`,
  `FirstUseMatches`). It need not in two cases. `ep_read` does not take down its bit in `ep_out`
  (src/driver.rs:279): poll, read, arrival, read, and the second read returns a packet that no
  poll has reported (`UnreportedRead`). And neither unstalling nor configuration takes down a
  completion: if one is up, the next report names an endpoint on which nothing waits, and the
  first read after it can return a packet that arrived since. Unstalling a waiting packet leads
  there (`UnstalledThenPolled`), and so does the documented order, if a packet lands in
  `bus_reset` between the write-back of ENDPTCOMPLETE and the flush (`ResetThenPolled`).
* `bus_reset` does not clear `ep_out`. Schedule, arrival, poll, read, reset, read: the mask still
  names the endpoint, whose transfer the reset has cut, and the second read returns an empty
  packet that nobody sent, and primes the endpoint, so that the next configuration finds it
  primed (`Gap.ReadAfterReset`). After a reset, and until the endpoint is scheduled again, a read
  hands out a packet if and only if one waits (`Sessions.ReadAfterReset`).
* An error status is for good on an IN endpoint, that of endpoint zero among them: it refuses
  every later write, also after reset and configuration (`StuckIn`). On an OUT data endpoint only
  unstalling, configuration and a read that a failure overtakes schedule it again (`StuckOut`).
* Unstalling an OUT endpoint schedules it again without a look at what waits in its buffer
  (src/driver.rs:321-324). `EpStall` states that a waiting packet is discarded.
* `prime_endpoints` does not look at ENDPTSTAT (src/driver.rs:383-390). `PrimingIsLegal`: it keeps
  off the descriptors of running transfers if and only if no OUT data endpoint is primed, as
  `bus_reset` leaves it.
* A request for an address that has no slot reaches the `unwrap` in `allocate_ep`
  (src/driver.rs:355-357) if and only if there is memory for its buffer; see `AllocEp`.
* `set_buffer` truncates sizes of 0x8000 and more (src/td.rs:41-42), and the driver's count is
  wrong for exactly those; see `BytesTransferredIsExact`. The clamp to 1024 bytes keeps every
  scheduled size below.
* The comment at src/buffer.rs:164 promises to clean at least `len` bytes of the buffer. The loop
  counts its lines from `size` alone, and misses the tail of a range if and only if the range
  needs one more line because it starts in the middle of one; see `CoversRange`. The model
  follows the code.

## Model

| member | source | states |
|---|---|---|
| TransferDescriptor.PageWalkIsIdentity | src/td.rs:40-60 | after `set_buffer(ptr, size)` the controller's walk over the five pointers gives `ptr + k` for every byte `k`, if five pages hold the transfer and it does not wrap |
| TransferDescriptor.PageWalkStops | src/td.rs:40-60 | the first byte beyond five pages has no address |
| TransferDescriptor.PageFrames | src/td.rs:44-54 | the five words themselves: the pointer, then the addresses of the next four frames of 4096 bytes, with 32-bit wrap |
| TransferDescriptor.NextPage | src/td.rs:49-54 | the masked add of the loop gives the next page, also where the 32-bit sum wraps |
| TransferDescriptor.StatusByteIsIndependent | src/td.rs:75-77 | the update of STATUS stays a word, sets its field, and keeps IOC and TOTAL_BYTES |
| TransferDescriptor.IocIsIndependent | src/td.rs:97-99 | the update of IOC keeps STATUS and TOTAL_BYTES |
| TransferDescriptor.TotalBytesIsIndependent | src/td.rs:41 | the update of TOTAL_BYTES stores the size truncated to 15 bits and keeps STATUS and IOC |
| TransferDescriptor.FieldsOfToken | src/td.rs:119-146 | the fields of TOKEN read back what was put into them |
| TransferDescriptor.ErrorFlags | src/endpoint.rs:89-99 | the status bytes that make a transfer call refuse: those with bit 6, 5 or 3 set |
| TransferDescriptor.BytesTransferredIsExact | src/td.rs:40-66 | the count is right before any byte has moved if and only if the size is below 0x8000, and after `k` bytes it is then `k` |
| TransferDescriptor.Td.SetBuffer | src/td.rs:40-60 | the loop over the packed words leaves the truncated count in bits 16 to 30, the size aside, and the page list, or five zeros |
| TransferDescriptor.Td.BytesTransferred | src/td.rs:63-66 | the difference of the size kept aside and TOTAL_BYTES, on the packed word |
| TransferDescriptor.Td.SetActive | src/td.rs:91-93 | the low byte of TOKEN becomes 128, ACTIVE alone; count, IOC and links stay |
| TransferDescriptor.Td.SetInterruptOnComplete | src/td.rs:97-99 | IOC alone changes |
| TransferDescriptor.Td.ClearStatus | src/td.rs:75-77 | the low byte of TOKEN becomes zero, no flag is left, and nothing else changes |
| TransferDescriptor.Td.SetTerminate | src/td.rs:81-83 | NEXT gets the terminate bit |
| QueueHead.FieldsOfCapabilities | src/qh.rs:75-97 | the fields of CAPABILITIES read back what was put into them |
| QueueHead.PacketLength | src/qh.rs:42-47 | the packet length is that of the buffer up to 1024 bytes, and 1024 beyond, which 11 bits hold |
| QueueHead.MaxPacketIsIndependent | src/qh.rs:45-47 | the update of the packet length keeps ZLT and IOS |
| QueueHead.ZltIsIndependent | src/qh.rs:55-59 | the update of ZLT keeps packet length and IOS |
| QueueHead.IosIsIndependent | src/qh.rs:62-64 | the update of IOS keeps packet length and ZLT |
| QueueHead.Qh.SetMaxPacketLen | src/qh.rs:45-47 | bits 16 to 26 of CAPABILITIES become the length, or 1024 if it is longer; ZLT and IOS stay |
| EndpointRegisters.MasksAreDisjoint | src/endpoint.rs:79-85 | every endpoint direction has one bit of its own in the shared registers |
| EndpointRegisters.WritesAreLocal | src/endpoint.rs:181-190 | a write of one endpoint's mask changes that endpoint's bit and no other |
| EndpointRegisters.StallWord | src/endpoint.rs:219-230 | the word of ENDPTCTRL after a stall or an unstall: bit 16 (IN) or 0 (OUT) as asked, bits 6 and 22 clear, every other bit as it was |
| EndpointRegisters.EnableWord | src/endpoint.rs:245-258 | the word after an enable: bit 23 or 7 set, the type as a number in bits 18 and 19 or 2 and 3, every other bit but 6 and 22 as it was |
| EndpointRegisters.DisableWord | src/endpoint.rs:103-115 | the word after a disable: bit 23 or 7 clear, type bulk, every other bit but 6 and 22 as it was |
| EndpointRegisters.TypeBits | src/endpoint.rs:288-296 | the number of each type: control 0, isochronous 1, bulk 2, interrupt 3 |
| EndpointRegisters.StallKeepsOtherHalf | src/endpoint.rs:219-230 | the stall update keeps enable, stall and type of the other direction |
| EndpointRegisters.EnableKeepsOtherHalf | src/endpoint.rs:245-258 | the enable update keeps the other direction |
| EndpointRegisters.DisableKeepsOtherHalf | src/endpoint.rs:103-115 | the disable update keeps the other direction |
| EndpointRegisters.EnableOwnHalf | src/endpoint.rs:245-258 | enabled with the raw type of the endpoint's kind; stall stays |
| EndpointRegisters.DisableOwnHalf | src/endpoint.rs:103-115 | disabled, parked as bulk; stall stays |
| EndpointRegisters.RegisterFile.WritePrime | src/endpoint.rs:207-214 | bit `index`, plus 16 for IN, of ENDPTPRIME is set; the record of one slot changes and no other |
| EndpointRegisters.RegisterFile.ClearComplete | src/endpoint.rs:181-190 | that bit of ENDPTCOMPLETE is cleared and no other |
| EndpointRegisters.RegisterFile.ClearNak | src/endpoint.rs:276-285 | that bit of ENDPTNAK is cleared and no other |
| EndpointRegisters.RegisterFile.AcknowledgeIn | src/driver.rs:421-422 | of bits 16 to 23 of ENDPTCOMPLETE exactly those that were read are cleared, and no other bit |
| EndpointRegisters.RegisterFile.SetStalled | src/endpoint.rs:219-230 | in the word of the slot's index, bit 16 (IN) or 0 (OUT) becomes the stall, and every other bit but 6 and 22 stays; no other word changes |
| EndpointRegisters.RegisterFile.Enable | src/endpoint.rs:245-258 | in that word, bit 23 or 7 is set and bits 18 and 19, or 2 and 3, hold the type; the rest, and every other word, stays |
| EndpointRegisters.RegisterFile.Disable | src/endpoint.rs:103-115 | in that word, bit 23 or 7 is cleared and the type becomes bulk; the rest, and every other word, stays |
| EndpointRegisters.RegisterFile.IsPrimed | src/endpoint.rs:79-85 | whether bit `index`, plus 16 for IN, of ENDPTSTAT is up, whatever the others are |
| EndpointRegisters.WritesCommute | src/endpoint.rs:16-23 | register writes of different endpoints commute, whatever words they share |
| PackedEndpoint.Packed.constructor | src/endpoint.rs:47-71 | a new endpoint's descriptor and queue head, on packed words: terminated, no status, ZLT disabled, the packet length, interrupt on setup for the control OUT half alone |
| PackedEndpoint.Construct | src/endpoint.rs:47-71 | the descriptor, queue head and registers that an allocation constructs, on packed words, are those that every run starts from |
| PackedEndpoint.Packed.ScheduleTransfer | src/endpoint.rs:196-214 | the writes of a schedule on packed words and registers, and that no other endpoint's record changes |
| PackedEndpoint.ScheduleAgrees | src/endpoint.rs:196-214 | the schedule of the protocol leaves the same descriptor, queue head and registers |
| Memory.LoadAfterStore | src/buffer.rs:125-152 | what was written is read back, and every disjoint range is undisturbed |
| Memory.ScatterStores | src/td.rs:40-60 | the controller's byte walk stores a packet in place |
| Memory.ScatterTouches | src/td.rs:40-60 | whatever the page list, only the addresses it gives are written |
| Memory.GatherLoads | src/td.rs:40-60 | the controller's byte walk loads a packet from its place |
| Buffers.ArenaConservation | src/buffer.rs:94-107 | after any requests: buffers inside the arena, pairwise disjoint, lengths and free space sum to the arena |
| Buffers.Allocator.Allocate | src/buffer.rs:94-107 | fails if and only if the request exceeds the free space, then without effect; else the buffer is the top of the free space |
| Buffers.EndpointMemory.TakeAllocator | src/buffer.rs:48-56 | the allocator is handed out once |
| Buffers.EndpointMemory.VolatileRead | src/buffer.rs:125-137 | copies the bytes that fit on both sides and leaves the rest of the caller's buffer alone |
| Buffers.EndpointMemory.VolatileWrite | src/buffer.rs:143-152 | copies the bytes that fit on both sides; no byte outside the buffer changes |
| Cache.CleanInvalidate | src/cache.rs:31-56 | the addresses that the loop writes: one for each 32 bytes of the size, rounded up, from the line of the first byte on |
| Cache.CoversRange | src/cache.rs:31-56 | the loop reaches all of `[addr, addr+size)` if and only if `addr mod 32 + size` is at most 32 times the number of lines |
| Cache.StraddlingRangeIsMissed | src/cache.rs:44-52 | two bytes across a line boundary: the second is missed |
| Cache.CleaningStaysInside | src/buffer.rs:167-169 | in an aligned arena of aligned sizes, cleaning a prefix of a buffer reaches it all and no byte of another buffer |
| EndpointTable.OneWinner | src/state.rs:139-148 | of any number of attempts to take the allocator exactly the first succeeds |
| EndpointTable.EndpointState.TakeAllocator | src/state.rs:139-148 | bit 31 alone changes, and tells who was first |
| EndpointTable.EndpointState.Endpoint | src/state.rs:185-196 | found if and only if allocated, and then it is the endpoint with that address |
| EndpointTable.EndpointState.AllocateEndpoint | src/state.rs:252-282 | succeeds if and only if the slot exists and is free; mask, slot and hand-out change together, or nothing does; keeps the table invariant |
| EndpointTable.EndpointState.Iterate | src/state.rs:227-244 | each allocated endpoint once, in slot order; on request without the control endpoints |
| BusAllocation.AllocatingBus.AllocateAt | src/driver.rs:340-357 | no memory: nothing changes; memory but no slot: the panic; else mask, slot and arena |
| BusAllocation.AllocatingBus.AllocEp | src/bus.rs:291-324 | first fit, every error exactly when it is due and without effect, the panic exactly when the chosen address has no slot |
| BusAllocation.AllocatingBus.Serve | src/bus.rs:291-324 | any sequence of requests ends in disjoint buffers, and in slots that hold what each request was given, and no others; with sixteen slots and USB indices none panics |
| BusAllocation.TableIsGood | src/state.rs:252-282 | such a table is a configuration on which the running driver can rely |
| ControllerSteps.ChainIsSingleAndPrivate | src/endpoint.rs:196-205 | from a primed endpoint's queue head the controller reaches that endpoint's descriptor, and the list ends there |
| ControllerSteps.DmaInPlace | src/endpoint.rs:196-216 | a transfer on a scheduled endpoint reads and writes its own buffer in place |
| ControllerSteps.ActKeeps | src/endpoint.rs:192-216 | every step of the controller keeps the invariant and what the driver relies on |
| DriverSteps.OpKeeps | src/endpoint.rs:135-285 | every legal access of the driver keeps the invariant |
| DriverSteps.LegalIsStable | src/endpoint.rs:79-85 | what the driver has checked before an access is still true when the access takes place |
| Runs.ReachableInv | src/driver.rs:200-434 | the invariant holds in every state of every run from power-up |
| Runs.OwnershipSafety | src/endpoint.rs:192-216 | at every step of a run in which the driver kept the agreement, it handled only endpoints that were neither primed nor priming, and left descriptor, overlay and buffer of all others alone; `Sessions.Serve` says that the driver's runs are such |
| Runs.OutMailbox | src/driver.rs:270-288 | in every run: packets received are those settled, in order, each handed out as the prefix asked for or overwritten, and at most one that waits whole in the buffer |
| Runs.InQueue | src/driver.rs:295-309 | in every run: packets on the wire are, byte for byte and in order, those accepted, and at most the last is still to be sent |
| Runs.NoLostWakeUp | src/driver.rs:400-434 | outside a poll, a completion or setup bit that is up is announced by UI or already known |
| Runs.CompletionsReportedOnce | src/driver.rs:421-429 | in every run: IN completions are those reported, those taken down without a report, those that landed while an earlier one was up, and the one whose bit is up |
| Runs.DmaContainment | src/endpoint.rs:196-216 | in every run, a transfer touches bytes of its own endpoint's buffer only, and no controller step changes another buffer |
| Runs.DescriptorsArePrivate | src/state.rs:252-282 | in every run, primed endpoints reach their own descriptors, different ones different descriptors, and their lists end |
| Runs.CountNeverUnderflows | src/td.rs:63-66 | in every run, TOTAL_BYTES is at most the scheduled size, which is at most the clamped buffer length |
| Usb.Peripheral.Do | src/endpoint.rs:196-216 | one write: the controller runs first, the write must be legal, the run grows by it |
| Usb.Peripheral.AwaitPrimed | src/endpoint.rs:215 | the spin on ENDPTPRIME ends, with no endpoint priming |
| Usb.Peripheral.AwaitFlushed | src/driver.rs:179 | the spin on ENDPTFLUSH ends |
| EndpointDriver.Endpoint.ScheduleTransfer | src/endpoint.rs:196-216 | seven writes in order; settles or queues one packet; afterwards nothing is priming, no other endpoint was touched, and an OUT mailbox is live |
| EndpointDriver.Endpoint.Read | src/endpoint.rs:160-167 | the bytes returned are the buffer's, as many as caller, packet length and transfer allow |
| EndpointDriver.Endpoint.Write | src/endpoint.rs:173-178 | the buffer holds as much of the packet as fits; the length says how much |
| EndpointDriver.Endpoint.CheckErrors | src/endpoint.rs:89-99 | whether one of three flags is up at the instant of the look at the descriptor |
| EndpointDriver.Endpoint.ClearComplete | src/endpoint.rs:181-190 | either direction: the endpoint's own completion, under interleaving; an unreported IN completion counts as dropped |
| EndpointDriver.Endpoint.Control | src/endpoint.rs:219-258 | stall, enable and disable change the endpoint's half of ENDPTCTRL and nothing that the histories notice |
| EndpointDriver.Endpoint.IsEnabled | src/endpoint.rs:263-273 | endpoint zero always; others by their bit |
| EndpointDriver.Endpoint.TrySetup | src/endpoint.rs:146-153 | one round, its write and its four looks in order: if the tripwire is still up, the two loads saw one packet, the latest; if not, the controller has used up part of its script |
| EndpointDriver.Endpoint.ReadSetup | src/endpoint.rs:135-154 | one whole packet, the latest at some instant of the call, and the latest on return if ENDPTSETUPSTAT is clear; the loop ends |
| EndpointDriver.TripwireProtects | src/endpoint.rs:146-153 | a tripwire that stayed up has guarded both loads |
| DriverModel.Driver.Gate | src/driver.rs:273-277 | the look at the descriptor's status, then at ENDPTSTAT, in this order; the two states in which they find the endpoint, and what they let pass |
| CallEffects.PassedOut | src/driver.rs:273-277 | behind the two looks, whether a packet waits: always if one waited at the start, never if a transfer failed between the looks, and without a flush only then not |
| CallEffects.WriteOutcome | src/driver.rs:297-306 | behind the two looks, the packet before the accepted one failed if and only if its failure fell between them |
| DriverModel.Driver.EpRead | src/driver.rs:270-288 | errors without effect, each with its reason, and exactly when due if the driver has the endpoint; success hands out the packet that waits, always if it waited when the call began; what it returns if none waits; the endpoint is scheduled for its buffer's length up to 1024 and armed again |
| DriverModel.Driver.EpWrite | src/driver.rs:295-309 | all of the packet that 1024 bytes and the buffer hold is accepted, in its place in the queue; the exact condition under which the packet before it failed; errors without effect, each with its reason |
| DriverModel.Driver.Ctrl0Read | src/driver.rs:200-231 | a pending setup packet wins if the caller's buffer holds it, and the endpoint is then scheduled for the data stage, always if the driver has it; else data with all that `EpRead` promises but the mask |
| DriverModel.Driver.ReadSetupPacket | src/driver.rs:202-213 | the setup branch: one whole packet, the writes, and a schedule for the largest packet, always if the driver has the endpoint: what waited is discarded, and it is armed unless the transfer has failed or was cut |
| DriverModel.Driver.Ctrl0Write | src/driver.rs:240-263 | data is queued with all that `EpWrite` promises, then an empty OUT transfer is scheduled for the status stage, always if the driver has that direction, and armed unless it has failed or was cut |
| DriverModel.Driver.EpStall | src/driver.rs:316-325 | the stall bit; unstalling an OUT endpoint schedules it again, always if the driver has it, discards exactly what waited, and leaves it armed unless the transfer has failed or was cut; the writes in either case |
| DriverModel.Driver.IsEpStalled | src/driver.rs:332-337 | the stall bit of that endpoint |
| DriverModel.Driver.EnableZlt | src/driver.rs:135-139 | one bit of one queue head, also while primed; nothing for an endpoint that is not allocated |
| DriverModel.Driver.Poll | src/driver.rs:400-434 | which result, by what the one look at USBSTS sees; a reset leaves everything else pending; else all completions and setups that were up at the start are reported, none that is not up, IN ones taken down once each |
| CallEffects.FlushedIsQuiet | src/driver.rs:177-179 | with nothing priming, a finished flush has left every endpoint to the driver |
| CallEffects.AckedAll | src/driver.rs:419-424 | a poll takes down exactly the IN completions it reports, also with completions landing in between |
| DriverModel.Driver.BusReset | src/driver.rs:168-188 | from any state: nothing primed or flushing, every allocated data endpoint disabled, no packet handed out, accepted or overwritten, the writes in order with the words they were read as |
| DriverModel.Driver.OnConfigured | src/driver.rs:368-390 | every allocated data endpoint enabled with its type, exactly the OUT ones primed once for the largest packet and left live, what waited there discarded, no other touched |
| Calls.ReportedIsSpent | src/driver.rs:421-429 | after a reported completion the endpoint is the driver's, its bit is down, and its last packet was sent |
| BusModel.Bus.Poll | src/bus.rs:410-412 | the three results, by the state in which USBSTS is looked at; the masks; the writes; and a poll as the users of the endpoints see it |
| BusModel.Bus.Read | src/bus.rs:366-388 | refused, without effect, if and only if not allocated; endpoint zero does all that `Ctrl0Read` promises, any other all that `EpRead` does, success and errors exactly when due if the driver has the endpoint |
| BusModel.Bus.Write | src/bus.rs:342-364 | refused, without effect, if and only if not allocated; endpoint zero does all that `Ctrl0Write` promises, the status stage included, any other all that `EpWrite` does |
| BusModel.Bus.SetStalled | src/bus.rs:390-396 | all that `EpStall` promises, and nothing for an endpoint that is not allocated |
| BusModel.Bus.IsStalled | src/bus.rs:398-400 | the stall bit |
| BusModel.Bus.EnableZlt | src/bus.rs:224-226 | one bit of one queue head, and nothing for an endpoint that is not allocated |
| BusModel.Bus.ResetBus | src/bus.rs:336-340 | the writes of a reset in order; no packet handed out, accepted or overwritten, and every data endpoint disabled |
| BusModel.Bus.Configure | src/bus.rs:261-266 | a configuration, called once after each reset as its documentation demands: the writes in order; what waited in an OUT mailbox is discarded, and each is scheduled for its buffer's length up to 1024 |
| PowerUp.Create | src/driver.rs:75-91 | no bus if and only if the table or the arena was taken or a request panics; else a valid bus on the endpoints that the requests were given |
| Sessions.Serve | src/bus.rs:256-412 | any calls, resets and configurations in any order that the documentation allows make a trace of such steps; and in the whole run, from power-up on, the driver handled no endpoint that the controller had |
| Sessions.NoCut | src/driver.rs:168-188 | without a reset, from any moment at which its bit of ENDPTFLUSH is down, no transfer of a data endpoint is cut |
| Sessions.FlushIsOver | src/driver.rs:177-179 | that bit is down between any two calls of a session that starts with it down, as power-up does, resets included |
| Sessions.MailboxSession | src/driver.rs:270-288 | over any session without unstalling or configuration, whatever fails or is flushed: packets received are those handed out by reads, in order, each cut to the caller's buffer, and at most one that waits |
| Sessions.AnySession | src/driver.rs:270-325 | over any session at all, unstalls and configurations among its calls: every packet received but at most the one that waits was handed out, in order, by a read, or discarded, at most one by each unstall or configuration |
| Sessions.StrayRead | src/driver.rs:273-287 | from the last unstall or configuration on, or from any moment at which a transfer is scheduled, and without a reset: a successful read hands out a packet if and only if no transfer failed between its two looks, and always if it finds ENDPTSTAT clear when it begins |
| Sessions.ReadAfterReset | src/driver.rs:270-288 | after a reset, until the endpoint is scheduled again: a successful read hands out a packet if and only if one waited when the reset was over, and else returns an empty one |
| Sessions.FirstReadAfterReport | src/driver.rs:51-62 | the first successful read after a report returns the packet that waited at that report, and the report named its endpoint, once a read has succeeded since the last unstall or configuration, or if that call found the endpoint free with its completion bit down |
| Sessions.ReadAfterReport | src/driver.rs:51-62 | whatever came before: the report had named the endpoint of a successful read, and if a packet waited at the report, the read returns that one |
| Sessions.FirstUseMatches | src/driver.rs:383-390 | from power-up to the first unstall or configuration that schedules the endpoint, polls and resets leave it free with its bit down, as that condition asks |
| Sessions.ReportedIsRead | src/driver.rs:270-288 | a packet that waited when a poll named its endpoint is handed out by the next read, whatever is called in between but a reset, a configuration and an unstall of the endpoint |
| Sessions.WaitingIsReported | src/driver.rs:412-419 | a packet that waits with its completion up when a poll reports is named by that report |
| Sessions.NextReadAfterReport | src/driver.rs:51-62 | under the condition of `FirstReadAfterReport`, the next read after a report that names the endpoint succeeds and returns the packet of the report |
| Gap.UnreportedRead | src/driver.rs:270-288 | schedule, poll, read, arrival, read: the second read returns a packet that no poll has reported |
| Gap.UnstalledThenPolled | src/driver.rs:316-325 | schedule, arrival, unstall, poll, arrival, read: the poll names the endpoint although nothing waits, and the first read after it returns a packet that no poll has reported |
| Gap.ResetThenPolled | src/driver.rs:168-188 | configure, reset with a packet landing before its flush, configure, poll, arrival, read: the same, in the documented order of calls |
| Gap.ReadAfterReset | src/driver.rs:168-188 | schedule, arrival, poll, read, reset, read: the second read returns an empty packet that nobody sent, and leaves the endpoint primed before the next configuration |
| Sessions.QueueSession | src/driver.rs:295-309 | over any session, whatever fails: the packets that have met their fate are those accepted, in order, all but at most the last, and the wire carries them byte for byte; without a reset none of them was cut |
| Sessions.DisciplinedQueue | src/driver.rs:295-309 | over any session of such a user, from any such moment: all packets but at most the last went onto the wire |
| Sessions.DisciplinedIsAccepted | src/driver.rs:295-309 | a user that waits for each report is never refused, and each write accepts all that 1024 bytes and the buffer hold |
| Sessions.FailedPredecessor | src/driver.rs:297-306 | a write goes on behind a failed packet if and only if the failure fell between its two looks; never if the driver had the endpoint when the call began |
| Sessions.SuccessorOf | src/driver.rs:295-309 | every accepted packet that has a successor is the predecessor of one accepting call, so that `FailedPredecessor` covers them all |
| Sessions.UncutQueue | src/driver.rs:295-309 | over any session without a reset, whatever the user does: all packets accepted but the last went onto the wire as they were, if and only if no failure fell between the two looks of a call that accepted the packet behind it |
| Sessions.CompletionsSession | src/driver.rs:421-429 | the same over any session, counted by the reports that its polls returned; without a reset nothing is taken down unreported |
| Gap.GateIsOpen | src/driver.rs:273-277 | for every reachable state with a primed endpoint, a failure between the two looks passes both |
| Gap.WriteBehindFailure | src/driver.rs:295-309 | carried to the end of the call: the packet is accepted behind the failed one |
| Gap.InTransferIsReachable | src/driver.rs:295-309 | every configuration with an IN endpoint reaches such a state |
| Gap.ReadOfRemains | src/driver.rs:270-288 | carried to the end of the call: the bytes of the failed transfer are returned, and no packet is settled |
| Gap.FirstRead | src/driver.rs:270-288 | every configuration with an OUT endpoint reaches a state with it primed and its bit in `ep_out` still up |
| Sessions.ReportsSession | src/driver.rs:421-429 | over any session of a user that waits for each report, from any moment at which the driver has the endpoint and its bit is down: completions are as many as reports, those a reset took down, and one more while the bit is up |
| Sessions.StuckIn | src/driver.rs:240-301 | an IN endpoint whose descriptor shows an error, that of endpoint zero among them, accepts no packet any more, also after reset and configuration |
| Sessions.StuckOut | src/driver.rs:270-277 | an OUT data endpoint in that state hands out none until it is unstalled or configured |
| Sessions.ResetThenConfigure | src/bus.rs:256-266 | a reset and a configuration lead from every state to the same control bits, primed endpoints and writes |
| Ownership.ScheduleIsLegal | src/endpoint.rs:192-216 | a schedule keeps the agreement if and only if the endpoint is neither primed nor priming |
| Ownership.PrimingIsLegal | src/driver.rs:383-390 | so does `prime_endpoints`, if and only if no OUT data endpoint is primed or priming |

## Left out

- DriverModel.Driver.EpRead: takes OUT addresses only, and `EpWrite` IN addresses only, as the types of the USB stack allow no others.
- DriverModel.Driver.OnConfigured: demands that no OUT data endpoint is primed. Its documentation demands one call after each reset (src/bus.rs:258-260), which `Sessions.Orderly` spells out; what a second call does to a transfer that is under way is up to the controller, and Ownership.PrimingIsLegal says that it interferes exactly then.
- DriverModel.Driver.BusReset: `ep_out` keeps its last value, as in the source; the write-back of ENDPTSTAT and the write of ENDPTNAKEN have no effect on the modelled state, and the assertion on PORTSC1 is a debug aid.
- TransferDescriptor.Td.SetBuffer: wraps like a release build where the page address overflows; a debug build panics there.
- Cache.CleanInvalidate: addresses do not wrap at the end of the address space, and barriers have no effect.
- Bring-up of the PHY and the core, speed, interrupt enables, address setting and attach (src/driver.rs:99-166): straight-line register writes.
- General-purpose timers (src/gpt.rs): independent fields.
- Critical sections, RefCell and Mutex, and the erasure of instances: calls of the driver exclude one another.
- The volatile cells, logging, and the empty suspend and resume.
- Cache coherence of memory shared with the controller: memory is coherent, and only the arithmetic of the line loop is modelled.
- Words are numbers with fields, and registers of one bit per endpoint are sets of bit positions, instead of machine bit vectors.
- The running driver works on decoded images and records; PackedEndpoint.dfy ties them to the packed words for construction and scheduling.
- The bits of STATUS that the driver drops when it reads it, and the multiplier and status bits of the queue head that no code touches.
- A caller's buffer is the number of bytes it holds, and the returned bytes are a value.
- Signalling, data toggles, retries within a transfer, and the control state machine of the USB stack: not in the repository.
