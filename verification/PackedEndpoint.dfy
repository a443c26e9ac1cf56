/** An endpoint over packed words (src/endpoint.rs): the descriptor, the queue head and the
  * registers as the driver writes them. Their decoded values take the same steps as the
  * records on which the protocol is stated. */
module PackedEndpoint {
  import opened Types
  import opened TransferDescriptor
  import opened QueueHead
  import opened EndpointRegisters
  import opened Memory
  import opened Buffers
  import opened Device
  import opened Ownership

  class Packed {
    const address: Address
    const qh: Qh
    const td: Td
    const buffer: Buffer
    const kind: EndpointType

    ghost predicate Valid()
      reads this, qh, td, qh.overlay
    {
      && Index(address) < MAX_ENDPOINTS && buffer.ptr < WORD_SIZE
      && td.Valid() && qh.Valid() && td != qh.overlay && td.BUFFER_POINTERS != qh.overlay.BUFFER_POINTERS
    }

    /** A new endpoint is what the run starts from. */
    constructor (address: Address, qh: Qh, td: Td, buffer: Buffer, kind: EndpointType)
      requires Index(address) < MAX_ENDPOINTS && buffer.ptr < WORD_SIZE
      requires td.Valid() && qh.Valid() && td != qh.overlay && td.BUFFER_POINTERS != qh.overlay.BUFFER_POINTERS
      modifies qh`CAPABILITIES, td`NEXT, td`TOKEN
      ensures Valid() && this.address == address && this.qh == qh && this.td == td && this.buffer == buffer && this.kind == kind
      ensures td.Image() == old(td.Image()).SetTerminate().ClearStatus()
      ensures qh.Image() == old(qh.Image()).SetZeroLengthTermination(false).SetMaxPacketLen(buffer.len)
                            .SetInterruptOnSetup(kind == Control && address.dir == Out)
      ensures td.Image().next == 1 && td.Image().status == Status(false, false, false, false)
      ensures qh.Image().maxPacket == (if buffer.len <= 1024 then buffer.len else 1024)
      ensures qh.Image().zltDisabled && qh.Image().ios == (kind == Control && address.dir == Out)
    {
      this.address, this.qh, this.td, this.buffer, this.kind := address, qh, td, buffer, kind;
      new;
      qh.SetZeroLengthTermination(false);
      qh.SetMaxPacketLen(buffer.len);
      qh.SetInterruptOnSetup(kind == Control && address.dir == Out);
      td.SetTerminate();
      td.ClearStatus();
    }

    /** The seven writes, on packed words; `ScheduleAgrees` says that this is the schedule of
      * the protocol. */
    method ScheduleTransfer(regs: RegisterFile, tdAddress: Word, size: nat)
      requires Valid() && regs.Valid() && size < WORD_SIZE
      modifies td, td.BUFFER_POINTERS, qh.overlay, regs`ENDPTPRIME
      ensures Valid() && regs.Valid()
      ensures td.Image() == old(td.Image()).SetTerminate().SetBuffer(buffer.ptr, size).SetInterruptOnComplete(true).SetActive()
      ensures qh.Image() == old(qh.Image()).(overlay := old(qh.overlay.Image()).SetNext(tdAddress).ClearStatus())
      ensures regs.Record(Index(address)) == old(regs.Record(Index(address))).Prime() && regs.OthersUnchanged(Index(address))
      ensures td.Image().next == 1 && td.Image().status == Status(true, false, false, false) && td.Image().ioc
      ensures td.Image().total == size % 0x8000 && qh.Image().overlay.next == tdAddress
    {
      td.SetTerminate();
      td.SetBuffer(buffer.ptr, size);
      td.SetInterruptOnComplete(true);
      td.SetActive();
      qh.overlay.SetNext(tdAddress);
      qh.overlay.ClearStatus();
      regs.WritePrime(Index(address));
    }
  }

  /** What the protocol's schedule does to descriptor, queue head and registers. */
  lemma ScheduleAgrees(c: Config, i: nat, e: Ep, mem: Mem, size: nat)
    requires GoodConfig(c) && i < MAX_ENDPOINTS && Allocated(c, i)
    ensures var w := WrittenEp(c, i, e, mem, size, 7);
            && w.td == e.td.SetTerminate().SetBuffer(BufferOf(c, i).ptr, size).SetInterruptOnComplete(true).SetActive()
            && w.qh == e.qh.(overlay := e.qh.overlay.SetNext(TdAddress(c, i)).ClearStatus())
            && w.reg == e.reg.Prime() && w.setup == e.setup
  {
    TdSlotOfAddress(c, i);
    var e3 := WrittenEp(c, i, e, mem, size, 3);
    assert e3.td == e.td.SetTerminate().SetBuffer(BufferOf(c, i).ptr, size).SetInterruptOnComplete(true);
    assert e3.qh == e.qh && e3.reg == e.reg && e3.setup == e.setup;
    var e6 := WrittenEp(c, i, e, mem, size, 6);
    assert e6.td == e3.td.SetActive();
  }

  /** The words that the allocation of slot `i` constructs are what a run starts from. */
  method Construct(c: Config, mem: Mem, i: nat) returns (p: Packed, regs: RegisterFile)
    requires GoodConfig(c) && i < MAX_ENDPOINTS && Allocated(c, i)
    ensures fresh(p) && p.Valid() && fresh(regs) && regs.Valid() && p.address == AddressOf(i)
    ensures var e := Initial(c, mem).ep[i]; p.td.Image() == e.td && p.qh.Image() == e.qh && regs.Record(i) == e.reg
  {
    var td := new Td();
    var qh := new Qh();
    p := new Packed(AddressOf(i), qh, td, BufferOf(c, i), c.slots[i].value.kind);
    regs := new RegisterFile();
  }
}
