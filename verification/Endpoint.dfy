/** Endpoints (src/endpoint.rs): the accesses that one endpoint makes, with the controller
  * running before each of them. */
module EndpointDriver {
  import opened Types
  import opened EndpointRegisters
  import opened Memory
  import opened Device
  import opened Invariant
  import opened Agreement
  import opened DriverSteps
  import opened Runs
  import opened Usb

  /** The writes of one `schedule_transfer`, in order. */
  function ScheduleOps(slot: nat, size: nat): seq<Op> {
    [TdTerminate(slot), TdBuffer(slot, size), TdInterrupt(slot), TdActivate(slot),
     LinkOverlay(slot), ClearOverlay(slot), WritePrime(slot)]
  }

  /** What a schedule does to the histories: on an OUT endpoint it settles the packet that
    * was waiting and arms the mailbox again; on an IN endpoint it queues the buffer's bytes. */
  function ScheduledHistory(c: Config, i: nat, e: Ep, mem: Mem, size: nat): History
    requires Allocated(c, i)
  {
    var h := BeginEdit(i, e.h).(editing := false);
    if IsOut(i) then h.(armed := true)
    else h.(queued := h.queued + [Load(mem, BufferOf(c, i).ptr, size)])
  }

  /** The histories of an IN endpoint that has just accepted a packet. */
  function QueuedHistory(e: Ep, data: Packet): History {
    e.h.(queued := e.h.queued + [data], armed := false, got := None, editing := false)
  }

  /** The same endpoint, still the driver's. */
  ghost predicate Unmoved(e: Ep, e': Ep) {
    && e'.Quiet() && e'.td == e.td && e'.qh == e.qh && e'.h == e.h && e'.reg.complete == e.reg.complete
    && SameControl(e, e')
  }

  /** An OUT endpoint after a schedule. */
  ghost predicate Rearmed(e: Ep, e': Ep) {
    (e'.h.cuts == e.h.cuts ==> Live(e')) && (!e.reg.complete ==> Matched(e'))
  }

  function WithZltOf(e: Ep, e0: Ep): Ep {
    e.(qh := e.qh.(zltDisabled := e0.qh.zltDisabled))
  }

  /** An IN endpoint after a schedule: nothing is merged with a completion that is not up. */
  ghost predicate Requeued(e: Ep, e': Ep) {
    !e.reg.complete ==> Tidy(e') && e'.h.merged == e.h.merged
  }

  lemma PrimedIsRearmed(c: Config, i: nat, e: Ep, primed: St, s: St)
    requires GoodConfig(c) && Inv(c, primed) && Inv(c, s) && i < MAX_ENDPOINTS && Allocated(c, i)
    requires EpRely(primed.ep[i], s.ep[i])
    requires var p := primed.ep[i];
             p.reg.complete == e.reg.complete && p.h.merged == e.h.merged && p.h.cuts == e.h.cuts && (IsOut(i) ==> p.h.armed)
    ensures (IsOut(i) ==> Rearmed(e, s.ep[i])) && Requeued(e, s.ep[i])
  {
    assert Holds(c, i, primed) && Holds(c, i, s);
    RelyKeepsOut(primed.ep[i], s.ep[i]);
  }

  /** The record with the control bits of another. */
  function Uncontrolled(e: Ep, r: Reg): Ep {
    e.(reg := e.reg.(enabled := r.enabled, stalled := r.stalled, kind := r.kind))
  }

  /** What a write to an endpoint's half of ENDPTCTRL leaves there. */
  ghost predicate ControlDone(op: Op, kind: EndpointType, r: Reg, r': Reg) {
    match op
    case SetStalled(_, stall) => r'.stalled == stall && r'.enabled == r.enabled && r'.kind == r.kind
    case EnableEp(_) => r'.enabled && r'.kind == kind && r'.stalled == r.stalled
    case _ => !r'.enabled && r'.kind == Bulk && r'.stalled == r.stalled
  }

  lemma ControlStep(c: Config, s: St, mid: St, op: Op)
    requires GoodConfig(c) && Rely(c, s, mid) && Legal(c, mid, op) && (op.SetStalled? || op.EnableEp? || op.DisableEp?)
    requires op.slot < MAX_ENDPOINTS
    ensures var i, s' := op.slot, DoOp(c, mid, op);
            && RelyExcept(c, {i}, s, s') && EpRely(s.ep[i], Uncontrolled(s'.ep[i], s.ep[i].reg)) && QuietBuffer(c, i, s, s')
            && ControlDone(op, c.slots[i].value.kind, s.ep[i].reg, s'.ep[i].reg)
  {
    SlotOpIsLocal(c, mid, op);
    assert SlotRely(c, op.slot, s, mid);
    RelyExceptTransitive(c, {op.slot}, s, mid, DoOp(c, mid, op));
    ControlOnRecord(c, op.slot, s.ep[op.slot], mid.ep[op.slot], mid.mem, op);
  }

  lemma ControlOnRecord(c: Config, i: nat, e: Ep, mid: Ep, mem: Mem, op: Op)
    requires GoodConfig(c) && Allocated(c, i) && i < MAX_ENDPOINTS && EpRely(e, mid)
    requires (op.SetStalled? || op.EnableEp? || op.DisableEp?) && op.slot == i
    ensures var e' := DoSlotOp(c, i, mid, mem, op);
            EpRely(e, Uncontrolled(e', e.reg)) && ControlDone(op, c.slots[i].value.kind, e.reg, e'.reg)
  {
    assert Uncontrolled(DoSlotOp(c, i, mid, mem, op), e.reg) == mid;
  }

  lemma EditStep(c: Config, s: St, mid: St, op: Op)
    requires GoodConfig(c) && Inv(c, mid) && Rely(c, s, mid) && IsEditOp(op)
    requires Legal(c, s, op) && Legal(c, mid, op)
    ensures var s' := DoOp(c, mid, op); var i := op.slot;
            && RelyExcept(c, {i}, s, s')
            && Unmoved(DoSlotOp(c, i, s.ep[i], s.mem, op), s'.ep[i]) && SetupRely(s.ep[i], s'.ep[i])
            && SameBytes(s.mem, s'.mem, BufferOf(c, i).ptr, BufferOf(c, i).len)
  {
    var i := op.slot;
    SlotOpIsLocal(c, mid, op);
    RelyExceptTransitive(c, {i}, s, mid, DoOp(c, mid, op));
    assert SlotRely(c, i, s, mid);
    EditRecord(c, i, s.ep[i], mid.ep[i], s.mem, mid.mem, op);
  }

  lemma EditRecord(c: Config, i: nat, e: Ep, mid: Ep, mem: Mem, mem': Mem, op: Op)
    requires GoodConfig(c) && Allocated(c, i) && EpRely(e, mid) && IsEditOp(op) && e.Quiet()
    ensures Unmoved(DoSlotOp(c, i, e, mem, op), DoSlotOp(c, i, mid, mem', op)) && SetupRely(e, DoSlotOp(c, i, mid, mem', op))
  {
  }

  lemma PrimeStep(c: Config, s: St, mid: St, i: nat)
    requires GoodConfig(c) && Inv(c, mid) && Rely(c, s, mid)
    requires Legal(c, s, WritePrime(i)) && Legal(c, mid, WritePrime(i))
    ensures var s' := DoOp(c, mid, WritePrime(i)); var e := s.ep[i];
            && RelyExcept(c, {i}, s, s')
            && s'.ep[i].h == EndEdit(c, i, e, s.mem)
            && SetupRely(e, s'.ep[i])
            && s'.ep[i].td == e.td && SameControl(e, s'.ep[i]) && s'.ep[i].reg.complete == e.reg.complete
  {
    var s' := DoOp(c, mid, WritePrime(i));
    SlotOpIsLocal(c, mid, WritePrime(i));
    RelyExceptTransitive(c, {i}, s, mid, s');
    assert SlotRely(c, i, s, mid) && Holds(c, i, mid);
    LoadSame(s.mem, mid.mem, BufferOf(c, i).ptr, BufferOf(c, i).len, s.ep[i].td.last);
  }

  lemma LoadStep(c: Config, s: St, mid: St, i: nat, cap: nat)
    requires GoodConfig(c) && Inv(c, mid) && Rely(c, s, mid)
    requires Legal(c, s, LoadBuffer(i, cap)) && Legal(c, mid, LoadBuffer(i, cap))
    ensures var s', e, n, ptr := DoOp(c, mid, LoadBuffer(i, cap)), s.ep[i], ReadLength(s.ep[i], cap), BufferOf(c, i).ptr;
            && RelyExcept(c, {i}, s, s') && n >= 0 && ReadLength(s'.ep[i], cap) == n
            && Load(s'.mem, ptr, n) == Load(s.mem, ptr, n)
            && s'.ep[i].h == e.h.(got := Some((cap, Load(s.mem, ptr, n))))
            && s'.ep[i].Quiet() && s'.ep[i].td == e.td && s'.ep[i].reg.complete == e.reg.complete
            && SameControl(e, s'.ep[i]) && SetupRely(e, s'.ep[i])
  {
    SlotOpIsLocal(c, mid, LoadBuffer(i, cap));
    RelyExceptTransitive(c, {i}, s, mid, DoOp(c, mid, LoadBuffer(i, cap)));
    assert SlotRely(c, i, s, mid) && Holds(c, i, mid);
    LoadSame(s.mem, mid.mem, BufferOf(c, i).ptr, BufferOf(c, i).len, ReadLength(s.ep[i], cap));
  }

  /** `p` is one whole setup packet: what the setup words said when the call began, or one that
    * has arrived since; and the latest, if ENDPTSETUPSTAT says that there is no new one. */
  ghost predicate LatestDuring(e: Ep, e': Ep, p: Packet) {
    && |p| == 8 && e.setup.log <= e'.setup.log
    && (p == e.setup.lo + e.setup.hi || exists m :: |e.setup.log| <= m < |e'.setup.log| && p == e'.setup.log[m])
    && (!e'.setup.pending ==> p == e'.setup.lo + e'.setup.hi)
  }

  /** It stays so, whatever arrives behind it. */
  lemma LatestThen(e: Ep, m: Ep, e': Ep, p: Packet)
    requires LatestDuring(e, m, p) && SetupRely(m, e')
    ensures LatestDuring(e, e', p)
  {
    if p != e.setup.lo + e.setup.hi {
      var k :| |e.setup.log| <= k < |m.setup.log| && p == m.setup.log[k];
      assert e'.setup.log[k] == p;
    }
  }

  /** It is so from an earlier moment on. */
  lemma LatestSince(e: Ep, m: Ep, e': Ep, p: Packet)
    requires SetupRely(e, m) && SetupInv(m) && LatestDuring(m, e', p)
    ensures LatestDuring(e, e', p)
  {
    if m.setup.log != e.setup.log {
      assert e'.setup.log[|m.setup.log| - 1] == Last(m.setup.log);
    }
  }

  class Endpoint {
    const usb: Peripheral
    const slot: nat

    ghost predicate Valid()
      reads usb
    {
      usb.Valid() && slot < MAX_ENDPOINTS && Allocated(usb.c, slot)
    }

    ghost function Me(): Ep
      requires Valid()
      reads usb
    {
      usb.s.ep[slot]
    }

    constructor (usb: Peripheral, slot: nat)
      requires usb.Valid() && slot < MAX_ENDPOINTS && Allocated(usb.c, slot)
      ensures this.usb == usb && this.slot == slot && Valid()
    {
      this.usb, this.slot := usb, slot;
    }

    /** The bytes of this endpoint's buffer, and everything outside it, since `start`. */
    ghost predicate OwnWorkSince(start: St)
      requires Valid()
      reads usb
    {
      && RelyExcept(usb.c, {slot}, start, usb.s) && SetupRely(start.ep[slot], Me())
      && SameBytes(start.mem, usb.s.mem, BufferOf(usb.c, slot).ptr, BufferOf(usb.c, slot).len)
    }

    method Edit(op: Op, ghost start: St)
      requires Valid() && IsEditOp(op) && op.slot == slot && Legal(usb.c, usb.s, op) && OwnWorkSince(start)
      modifies usb`s, usb`run, usb`script
      ensures Valid() && Ops(usb.run) == Ops(old(usb.run)) + [op] && OwnWorkSince(start)
      ensures Unmoved(DoSlotOp(usb.c, slot, old(Me()), old(usb.s.mem), op), Me())
    {
      ghost var mid := usb.Do(op);
      EditStep(usb.c, old(usb.s), mid, op);
      RelyExceptTransitive(usb.c, {slot}, start, old(usb.s), usb.s);
    }

    /** The descriptor describes the buffer. */
    method DescribeBuffer(size: nat, ghost start: St)
      requires Valid() && Me().Quiet() && !Me().h.editing && size <= MaxLen(usb.c, slot) && OwnWorkSince(start)
      modifies usb`s, usb`run, usb`script
      ensures Valid() && Ops(usb.run) == Ops(old(usb.run)) + [TdTerminate(slot), TdBuffer(slot, size)]
      ensures OwnWorkSince(start) && Me().Quiet()
      ensures Me().td == old(Me().td).SetTerminate().SetBuffer(BufferOf(usb.c, slot).ptr, size)
      ensures Me().h == BeginEdit(slot, old(Me().h)) && Me().reg.complete == old(Me().reg.complete)
      ensures SameControl(old(Me()), Me())
    {
      Edit(TdTerminate(slot), start);
      Edit(TdBuffer(slot, size), start);
    }

    /** The descriptor is ready to run. */
    method ActivateDescriptor(ghost start: St)
      requires Valid() && Me().Quiet() && Me().h.editing && OwnWorkSince(start)
      modifies usb`s, usb`run, usb`script
      ensures Valid() && Ops(usb.run) == Ops(old(usb.run)) + [TdInterrupt(slot), TdActivate(slot)]
      ensures OwnWorkSince(start) && Me().Quiet()
      ensures Me().td == old(Me().td).SetInterruptOnComplete(true).SetActive()
      ensures Me().h == old(Me().h) && Me().reg.complete == old(Me().reg.complete)
      ensures SameControl(old(Me()), Me())
    {
      Edit(TdInterrupt(slot), start);
      Edit(TdActivate(slot), start);
    }

    /** The queue head leads to it; the prime bit comes next. */
    method LinkDescriptor(ghost start: St)
      requires Valid() && Me().Quiet() && Me().h.editing && Scheduled(usb.c, slot, Me()) && OwnWorkSince(start)
      modifies usb`s, usb`run, usb`script
      ensures Valid() && Ops(usb.run) == Ops(old(usb.run)) + [LinkOverlay(slot), ClearOverlay(slot)]
      ensures OwnWorkSince(start) && Legal(usb.c, usb.s, WritePrime(slot))
      ensures Me().td == old(Me().td) && Me().h == old(Me().h) && Me().reg.complete == old(Me().reg.complete)
      ensures SameControl(old(Me()), Me())
    {
      TdSlotOfAddress(usb.c, slot);
      Edit(LinkOverlay(slot), start);
      Edit(ClearOverlay(slot), start);
    }

    /** Descriptor and queue head are written; the prime bit comes next. */
    method PrepareTransfer(size: nat, ghost start: St)
      requires Valid() && Me().Quiet() && !Me().h.editing && size <= MaxLen(usb.c, slot) && OwnWorkSince(start)
      modifies usb`s, usb`run, usb`script
      ensures Valid() && Ops(usb.run) == Ops(old(usb.run)) + ScheduleOps(slot, size)[..6]
      ensures OwnWorkSince(start) && Legal(usb.c, usb.s, WritePrime(slot)) && Me().td.last == size
      ensures Me().h == BeginEdit(slot, old(Me()).h) && Me().reg.complete == old(Me()).reg.complete
      ensures SameControl(old(Me()), Me())
    {
      WriteDescriptor(size, start);
      LinkDescriptor(start);
    }

    method WriteDescriptor(size: nat, ghost start: St)
      requires Valid() && Me().Quiet() && !Me().h.editing && size <= MaxLen(usb.c, slot) && OwnWorkSince(start)
      modifies usb`s, usb`run, usb`script
      ensures Valid() && Ops(usb.run) == Ops(old(usb.run)) + ScheduleOps(slot, size)[..4]
      ensures OwnWorkSince(start) && Me().Quiet() && Scheduled(usb.c, slot, Me()) && Me().td.last == size
      ensures Me().h == BeginEdit(slot, old(Me()).h) && Me().reg.complete == old(Me()).reg.complete
      ensures SameControl(old(Me()), Me())
    {
      DescribeBuffer(size, start);
      ActivateDescriptor(start);
    }

    method Prime(ghost start: St)
      requires Valid() && Legal(usb.c, usb.s, WritePrime(slot))
      requires RelyExcept(usb.c, {slot}, start, usb.s) && SetupRely(start.ep[slot], Me())
      modifies usb`s, usb`run, usb`script
      ensures Valid() && Ops(usb.run) == Ops(old(usb.run)) + [WritePrime(slot)]
      ensures RelyExcept(usb.c, {slot}, start, usb.s) && SetupRely(start.ep[slot], Me())
      ensures Me().h == EndEdit(usb.c, slot, old(Me()), old(usb.s.mem))
      ensures Me().td == old(Me().td) && SameControl(old(Me()), Me()) && Me().reg.complete == old(Me().reg.complete)
    {
      ghost var mid := usb.Do(WritePrime(slot));
      PrimeStep(usb.c, old(usb.s), mid, slot);
      RelyExceptTransitive(usb.c, {slot}, start, old(usb.s), usb.s);
    }

    /** Waits until no endpoint is priming, and forgets nothing meanwhile. */
    method AwaitPrimed(ghost start: St)
      requires Valid() && RelyExcept(usb.c, {slot}, start, usb.s)
      modifies usb`s, usb`run, usb`script
      ensures Valid() && Ops(usb.run) == Ops(old(usb.run)) && NonePriming(usb.s)
      ensures RelyExcept(usb.c, {slot}, start, usb.s) && EpRely(old(Me()), Me())
    {
      usb.AwaitPrimed();
      assert SlotRely(usb.c, slot, old(usb.s), usb.s);
      RelyExceptTransitive(usb.c, {slot}, start, old(usb.s), usb.s);
    }

    /** Schedules one packet of at most `size` bytes. The endpoint must be the driver's: on a
      * primed one the first write would already break the agreement. Afterwards nothing is
      * priming, so that ENDPTSTAT alone tells who has an endpoint. */
    method ScheduleTransfer(size: nat)
      requires Valid() && Me().Quiet() && !Me().h.editing && size <= MaxLen(usb.c, slot)
      modifies usb`s, usb`run, usb`script
      ensures Valid() && Ops(usb.run) == Ops(old(usb.run)) + ScheduleOps(slot, size)
      ensures NonePriming(usb.s) && RelyExcept(usb.c, {slot}, old(usb.s), usb.s) && SetupRely(old(Me()), Me())
      ensures HistoryRely(ScheduledHistory(usb.c, slot, old(Me()), old(usb.s.mem), size), Me().h)
      ensures Me().h.fails == old(Me().h.fails) ==> !Me().td.status.IsError()
      ensures SameControl(old(Me()), Me()) && (old(Me().reg.complete) ==> Me().reg.complete)
      ensures (IsOut(slot) ==> Rearmed(old(Me()), Me())) && Requeued(old(Me()), Me()) && Me().td.last == size
    {
      ghost var start := usb.s;
      PrepareTransfer(size, start);
      LoadSame(start.mem, usb.s.mem, BufferOf(usb.c, slot).ptr, BufferOf(usb.c, slot).len, size);
      PrimeAndWait(start);
    }

    /** The schedule is written; the controller takes it. */
    method PrimeAndWait(ghost start: St)
      requires Valid() && Legal(usb.c, usb.s, WritePrime(slot))
      requires RelyExcept(usb.c, {slot}, start, usb.s) && SetupRely(start.ep[slot], Me())
      modifies usb`s, usb`run, usb`script
      ensures Valid() && Ops(usb.run) == Ops(old(usb.run)) + [WritePrime(slot)]
      ensures NonePriming(usb.s) && RelyExcept(usb.c, {slot}, start, usb.s) && SetupRely(start.ep[slot], Me())
      ensures HistoryRely(EndEdit(usb.c, slot, old(Me()), old(usb.s.mem)), Me().h)
      ensures Me().h.fails == old(Me().h.fails) ==> !Me().td.status.IsError()
      ensures SameControl(old(Me()), Me()) && (old(Me().reg.complete) ==> Me().reg.complete)
      ensures (IsOut(slot) ==> Rearmed(old(Me()), Me())) && Requeued(old(Me()), Me()) && Me().td.last == old(Me().td.last)
    {
      ghost var e := Me();
      Prime(start);
      ghost var primed := usb.s;
      AwaitPrimed(start);
      PrimedIsRearmed(usb.c, slot, e, primed, usb.s);
    }

    // ------------------------------------------------------------ reads

    method IsPrimed() returns (r: bool)
      requires Valid()
      modifies usb`s, usb`run, usb`script
      ensures Valid() && Rely(usb.c, old(usb.s), usb.s) && Ops(usb.run) == Ops(old(usb.run))
      ensures Looked(usb.run) == Looked(old(usb.run)) + [EndptStat(slot)]
      ensures r == Me().reg.stat
    {
      var now := usb.Sample(EndptStat(slot));
      r := now.ep[slot].reg.stat;
    }

    /** Whether the descriptor shows an error, at the instant of the read. */
    method CheckErrors() returns (failed: bool)
      requires Valid()
      modifies usb`s, usb`run, usb`script
      ensures Valid() && Rely(usb.c, old(usb.s), usb.s) && Ops(usb.run) == Ops(old(usb.run))
      ensures Looked(usb.run) == Looked(old(usb.run)) + [TdStatus(slot)]
      ensures failed == Me().td.status.IsError()
      ensures failed == (Me().td.status.transactionError || Me().td.status.bufferError || Me().td.status.halted)
    {
      var now := usb.Sample(TdStatus(slot));
      failed := now.ep[slot].td.status.IsError();
    }

    method HasSetup() returns (r: bool)
      requires Valid() && IsOut(slot)
      modifies usb`s, usb`run, usb`script
      ensures Valid() && Rely(usb.c, old(usb.s), usb.s) && Ops(usb.run) == Ops(old(usb.run))
      ensures Looked(usb.run) == Looked(old(usb.run)) + [SetupStatus(slot)]
      ensures r == Me().setup.pending
    {
      var now := usb.Sample(SetupStatus(slot));
      r := now.ep[slot].setup.pending;
    }

    method IsStalled() returns (r: bool)
      requires Valid()
      modifies usb`s, usb`run, usb`script
      ensures Valid() && Rely(usb.c, old(usb.s), usb.s) && Ops(usb.run) == Ops(old(usb.run))
      ensures Looked(usb.run) == Looked(old(usb.run)) + [EndptCtrl(slot)]
      ensures r == Me().reg.stalled == old(Me().reg.stalled)
    {
      var now := usb.Sample(EndptCtrl(slot));
      assert SlotRely(usb.c, slot, old(usb.s), usb.s);
      r := now.ep[slot].reg.stalled;
    }

    /** Endpoint zero counts as enabled whatever its register says. */
    method IsEnabled() returns (r: bool)
      requires Valid()
      modifies usb`s, usb`run, usb`script
      ensures Valid() && Rely(usb.c, old(usb.s), usb.s) && Ops(usb.run) == Ops(old(usb.run))
      ensures r == (slot < 2 || old(Me().reg.enabled))
    {
      RelyReflexive(usb.c, usb.s);
      if slot / 2 == 0 {
        return true;
      }
      var now := usb.Sample(EndptCtrl(slot));
      assert SlotRely(usb.c, slot, old(usb.s), usb.s);
      r := now.ep[slot].reg.enabled;
    }

    method MaxPacketLen() returns (n: nat)
      requires Valid()
      ensures n == MaxLen(usb.c, slot)
    {
      assert Holds(usb.c, slot, usb.s);
      n := usb.s.ep[slot].qh.maxPacket;
    }

    // ------------------------------------------------------------ register writes

    method ClearNak()
      requires Valid()
      modifies usb`s, usb`run, usb`script
      ensures Valid() && Ops(usb.run) == Ops(old(usb.run)) + [Op.ClearNak(slot)]
      ensures Rely(usb.c, old(usb.s), usb.s) && !Me().reg.nak
    {
      ghost var mid := usb.Do(Op.ClearNak(slot));
      ghost var e := mid.ep[slot];
      assert usb.s == mid.(ep := mid.ep[slot := e.(reg := e.reg.ClearNak())]);
      LocalRely(usb.c, mid, usb.s, slot, e.(reg := e.reg.ClearNak()));
      RelyTransitive(usb.c, old(usb.s), mid, usb.s);
    }

    /** Clears this endpoint's completion and no other's. */
    method ClearComplete() returns (ghost found: St)
      requires Valid() && (IsOut(slot) || usb.s.poll.Idle?)
      modifies usb`s, usb`run, usb`script
      ensures Valid() && Ops(usb.run) == Ops(old(usb.run)) + [Op.ClearComplete(slot)]
      ensures RelyExcept(usb.c, {slot}, old(usb.s), usb.s) && !Me().reg.complete
      ensures Rely(usb.c, old(usb.s), found) && Me() == ResetEp(slot, found.ep[slot], {slot})
      ensures old(Me()).Quiet() && IsOut(slot) ==> Kept(usb.c, slot, old(usb.s), usb.s)
    {
      found := usb.Do(Op.ClearComplete(slot));
      SlotOpIsLocal(usb.c, found, Op.ClearComplete(slot));
      assert SlotRely(usb.c, slot, old(usb.s), found);
      RelyExceptTransitive(usb.c, {slot}, old(usb.s), found, usb.s);
    }

    /** One of the writes to this endpoint's half of ENDPTCTRL. */
    method Control(op: Op)
      requires Valid() && (op.SetStalled? || op.EnableEp? || op.DisableEp?) && op.slot == slot
      modifies usb`s, usb`run, usb`script
      ensures Valid() && Ops(usb.run) == Ops(old(usb.run)) + [op]
      ensures RelyExcept(usb.c, {slot}, old(usb.s), usb.s)
      ensures EpRely(old(Me()), Uncontrolled(Me(), old(Me()).reg)) && QuietBuffer(usb.c, slot, old(usb.s), usb.s)
      ensures ControlDone(op, usb.c.slots[slot].value.kind, old(Me()).reg, Me().reg)
    {
      ghost var mid := usb.Do(op);
      ControlStep(usb.c, old(usb.s), mid, op);
    }

    method EnableZlt()
      requires Valid()
      modifies usb`s, usb`run, usb`script
      ensures Valid() && Ops(usb.run) == Ops(old(usb.run)) + [Op.EnableZlt(slot)]
      ensures RelyExcept(usb.c, {slot}, old(usb.s), usb.s)
      ensures !Me().qh.zltDisabled && EpRely(old(Me()), WithZltOf(Me(), old(Me())))
    {
      ghost var mid := usb.Do(Op.EnableZlt(slot));
      SlotOpIsLocal(usb.c, mid, Op.EnableZlt(slot));
      assert SlotRely(usb.c, slot, old(usb.s), mid);
      RelyExceptTransitive(usb.c, {slot}, old(usb.s), mid, usb.s);
    }

    // ------------------------------------------------------------ buffer

    /** Copies out of the buffer what the descriptor says has arrived, cut to `cap`. */
    method Read(cap: nat) returns (data: Packet)
      requires Valid() && IsOut(slot) && Me().Quiet() && !Me().h.editing
      modifies usb`s, usb`run, usb`script
      ensures Valid() && Ops(usb.run) == Ops(old(usb.run)) + [LoadBuffer(slot, cap)]
      ensures RelyExcept(usb.c, {slot}, old(usb.s), usb.s)
      ensures ReadLength(old(Me()), cap) == |data|
      ensures data == Load(old(usb.s.mem), BufferOf(usb.c, slot).ptr, |data|)
      ensures Me().h == old(Me()).h.(got := Some((cap, data)))
      ensures Me().Quiet() && Me().td == old(Me()).td && SameControl(old(Me()), Me()) && SetupRely(old(Me()), Me())
      ensures Me().reg.complete == old(Me()).reg.complete
    {
      ghost var mid := usb.Do(LoadBuffer(slot, cap));
      LoadStep(usb.c, old(usb.s), mid, slot, cap);
      data := Load(usb.s.mem, BufferOf(usb.c, slot).ptr, ReadLength(usb.s.ep[slot], cap));
    }

    /** Copies into the buffer what one packet holds. */
    method Write(buffer: Packet) returns (written: nat)
      requires Valid() && !IsOut(slot) && Me().Quiet() && !Me().h.editing
      modifies usb`s, usb`run, usb`script
      ensures Valid() && written == Min(MaxLen(usb.c, slot), |buffer|)
      ensures Ops(usb.run) == Ops(old(usb.run)) + [StoreBuffer(slot, buffer[..written])]
      ensures RelyExcept(usb.c, {slot}, old(usb.s), usb.s)
      ensures Load(usb.s.mem, BufferOf(usb.c, slot).ptr, written) == buffer[..written]
      ensures Me().Quiet() && Me().h == old(Me()).h && Me().reg.complete == old(Me()).reg.complete
    {
      var max := MaxPacketLen();
      written := Min(max, |buffer|);
      var op := StoreBuffer(slot, buffer[..written]);
      ghost var mid := usb.Do(op);
      SlotOpIsLocal(usb.c, mid, op);
      assert SlotRely(usb.c, slot, old(usb.s), mid);
      RelyExceptTransitive(usb.c, {slot}, old(usb.s), mid, usb.s);
      LoadAfterStore(mid.mem, BufferOf(usb.c, slot).ptr, buffer[..written], written);
    }

    /** Completion and NAK are acknowledged while the driver has the endpoint. */
    method Acknowledge()
      requires Valid() && IsOut(slot) && Me().Quiet()
      modifies usb`s, usb`run, usb`script
      ensures Valid() && RelyExcept(usb.c, {slot}, old(usb.s), usb.s) && Kept(usb.c, slot, old(usb.s), usb.s)
      ensures Ops(usb.run) == Ops(old(usb.run)) + [Op.ClearComplete(slot), Op.ClearNak(slot)] && !Me().reg.complete
    {
      ghost var found := ClearComplete();
      ghost var mid := usb.s;
      ClearNak();
      assert SlotRely(usb.c, slot, mid, usb.s);
      QuietIsKept(usb.c, slot, mid, usb.s);
      RelyExceptTransitive(usb.c, {slot}, old(usb.s), mid, usb.s);
      KeptTransitive(usb.c, slot, old(usb.s), mid, usb.s);
    }

    /** Copies a packet out and schedules the next transfer. */
    method ReadAndSchedule(cap: nat) returns (data: Packet)
      requires Valid() && IsOut(slot) && Me().Quiet() && !Me().h.editing
      modifies usb`s, usb`run, usb`script
      ensures Valid() && NonePriming(usb.s) && RelyExcept(usb.c, {slot}, old(usb.s), usb.s)
      ensures Ops(usb.run) == Ops(old(usb.run)) + [LoadBuffer(slot, cap)] + ScheduleOps(slot, MaxLen(usb.c, slot))
      ensures ReadLength(old(Me()), cap) == |data|
      ensures data == Load(old(usb.s.mem), BufferOf(usb.c, slot).ptr, |data|)
      ensures HistoryRely(BeginEdit(slot, old(Me()).h.(got := Some((cap, data)))).(editing := false, armed := true), Me().h)
      ensures SetupRely(old(Me()), Me()) && Rearmed(old(Me()), Me()) && Me().td.last == MaxLen(usb.c, slot)
    {
      data := Read(cap);
      ghost var mid := usb.s;
      var max := MaxPacketLen();
      ScheduleTransfer(max);
      RelyExceptTransitive(usb.c, {slot}, old(usb.s), mid, usb.s);
    }

    /** Copies a packet in and schedules it. */
    method WriteAndSchedule(buffer: Packet) returns (written: nat)
      requires Valid() && !IsOut(slot) && Me().Quiet() && !Me().h.editing
      modifies usb`s, usb`run, usb`script
      ensures Valid() && written == Min(MaxLen(usb.c, slot), |buffer|)
      ensures NonePriming(usb.s) && RelyExcept(usb.c, {slot}, old(usb.s), usb.s)
      ensures Ops(usb.run) == Ops(old(usb.run)) + [Op.ClearNak(slot), StoreBuffer(slot, buffer[..written])] + ScheduleOps(slot, written)
      ensures HistoryRely(QueuedHistory(old(Me()), buffer[..written]), Me().h) && Requeued(old(Me()), Me())
    {
      written := Fill(buffer);
      ghost var s1 := usb.s;
      ScheduleTransfer(written);
      RelyExceptTransitive(usb.c, {slot}, old(usb.s), s1, usb.s);
    }

    /** The NAK is acknowledged, and the packet copied in. */
    method Fill(buffer: Packet) returns (written: nat)
      requires Valid() && !IsOut(slot) && Me().Quiet() && !Me().h.editing
      modifies usb`s, usb`run, usb`script
      ensures Valid() && written == Min(MaxLen(usb.c, slot), |buffer|) && RelyExcept(usb.c, {slot}, old(usb.s), usb.s)
      ensures Ops(usb.run) == Ops(old(usb.run)) + [Op.ClearNak(slot), StoreBuffer(slot, buffer[..written])]
      ensures Load(usb.s.mem, BufferOf(usb.c, slot).ptr, written) == buffer[..written]
      ensures Me().Quiet() && Me().h == old(Me()).h && Me().reg.complete == old(Me()).reg.complete
    {
      ClearNak();
      ghost var s1 := usb.s;
      assert SlotRely(usb.c, slot, old(usb.s), s1);
      written := Write(buffer);
      RelyExceptTransitive(usb.c, {slot}, old(usb.s), s1, usb.s);
    }

    // ------------------------------------------------------------ setup

    /** What the setup words say. */
    ghost function Latest(): Packet
      requires Valid()
      reads usb
    {
      Me().setup.lo + Me().setup.hi
    }

    /** One round of the tripwire: raise it, load the two words, and see whether it is still
      * up. A round that fails is owed to the controller's having run. */
    method TrySetup() returns (setup: Packet, whole: bool)
      requires Valid() && IsOut(slot)
      modifies usb`s, usb`run, usb`script
      ensures Valid() && RelyExcept(usb.c, {}, old(usb.s), usb.s)
      ensures Ops(usb.run) == Ops(old(usb.run)) + [SetTripwire]
      ensures Looked(usb.run) == Looked(old(usb.run)) + [Sutw, SetupLow(slot), SetupHigh(slot), Sutw]
      ensures whole ==> setup == Latest() && |setup| == 8
      ensures |usb.script| <= |old(usb.script)| && (!whole ==> |usb.script| < |old(usb.script)|)
    {
      var now := usb.Sample(Sutw);
      ghost var found := usb.s;
      ghost var mid := usb.Do(SetTripwire);
      ghost var raised := usb.s;
      RelyTransitive(usb.c, old(usb.s), found, mid);
      ghost var low;
      setup, low := LoadSetup();
      ghost var loaded := usb.s;
      now := usb.Sample(Sutw);
      whole := now.sutw;
      RelyTransitive(usb.c, raised, loaded, usb.s);
      TripwireProtects(usb.c, slot, low, loaded, usb.s);
      RaisedIsRely(usb.c, old(usb.s), mid, raised, usb.s);
    }

    /** The two loads; `low` is the state in which the first takes place. */
    method LoadSetup() returns (setup: Packet, ghost low: St)
      requires Valid() && IsOut(slot)
      modifies usb`s, usb`run, usb`script
      ensures Valid() && Rely(usb.c, old(usb.s), usb.s) && Rely(usb.c, low, usb.s) && Ops(usb.run) == Ops(old(usb.run))
      ensures Looked(usb.run) == Looked(old(usb.run)) + [SetupLow(slot), SetupHigh(slot)]
      ensures |setup| == 8 && setup == low.ep[slot].setup.lo + Me().setup.hi
      ensures old(usb.script) == [] ==> usb.script == [] && usb.s.sutw == old(usb.s.sutw)
      ensures |usb.script| <= |old(usb.script)|
    {
      var now := usb.Sample(SetupLow(slot));
      low := usb.s;
      var lo := now.ep[slot].setup.lo;
      now := usb.Sample(SetupHigh(slot));
      RelyTransitive(usb.c, old(usb.s), low, usb.s);
      setup := lo + now.ep[slot].setup.hi;
      assert Holds(usb.c, slot, low) && Holds(usb.c, slot, usb.s);
    }

    /** Rounds until one succeeds. */
    method RetrySetup() returns (setup: Packet, ghost rounds: nat)
      requires Valid() && IsOut(slot)
      modifies usb`s, usb`run, usb`script
      ensures Valid() && RelyExcept(usb.c, {}, old(usb.s), usb.s)
      ensures rounds > 0 && Ops(usb.run) == Ops(old(usb.run)) + Rounds(rounds)
      ensures setup == Latest() && |setup| == 8
    {
      rounds := 0;
      setup := [];
      var whole := false;
      RelyReflexive(usb.c, usb.s);
      while !whole
        invariant Valid() && RelyExcept(usb.c, {}, old(usb.s), usb.s)
        invariant Ops(usb.run) == Ops(old(usb.run)) + Rounds(rounds)
        invariant whole ==> rounds > 0 && setup == Latest() && |setup| == 8
        decreases |usb.script|, !whole
      {
        ghost var before := usb.s;
        setup, whole := TrySetup();
        RelyExceptTransitive(usb.c, {}, old(usb.s), before, usb.s);
        rounds := rounds + 1;
      }
    }

    /** The setup tripwire. The 64-bit read is two loads, and setup packets may arrive at any
      * point; the result is nevertheless one whole packet, the latest at some instant of the
      * call, and the latest on return unless ENDPTSETUPSTAT says that there is a new one. */
    method ReadSetup() returns (setup: Packet, ghost rounds: nat)
      requires Valid() && IsOut(slot)
      modifies usb`s, usb`run, usb`script
      ensures Valid() && RelyExcept(usb.c, {slot}, old(usb.s), usb.s)
      ensures rounds > 0 && LatestDuring(old(Me()), Me(), setup)
      ensures EpRely(old(Me()), Me().(setup := old(Me()).setup)) && QuietBuffer(usb.c, slot, old(usb.s), usb.s)
      ensures Ops(usb.run) == Ops(old(usb.run)) + [ClearSetup(slot / 2)] + Rounds(rounds) + [ClearTripwire]
    {
      ghost var mid := usb.Do(ClearSetup(slot / 2));
      ghost var cleared := usb.s;
      setup, rounds := RetrySetup();
      ghost var read := usb.s;
      LowerTripwire();
      assert Holds(usb.c, slot, read);
      RelyExceptTransitive(usb.c, {}, cleared, read, usb.s);
      ClearedElsewhere(usb.c, slot, old(usb.s), mid, cleared, usb.s);
      ClearedHere(usb.c, slot, old(usb.s), mid, cleared, read, usb.s);
      LatestWord(old(usb.s.ep[slot]), mid.ep[slot], read.ep[slot], usb.s.ep[slot]);
    }

    method LowerTripwire()
      requires Valid()
      modifies usb`s, usb`run, usb`script
      ensures Valid() && RelyExcept(usb.c, {}, old(usb.s), usb.s) && Ops(usb.run) == Ops(old(usb.run)) + [ClearTripwire]
    {
      var now := usb.Sample(Sutw);
      ghost var found := usb.s;
      ghost var mid := usb.Do(ClearTripwire);
      RelyTransitive(usb.c, old(usb.s), found, mid);
      RaisedIsRely(usb.c, old(usb.s), mid, usb.s, usb.s);
    }
  }

  function Rounds(n: nat): seq<Op> {
    if n == 0 then [] else Rounds(n - 1) + [SetTripwire]
  }

  /** If the tripwire is up at the end, the two words were loaded from one packet, and that
    * packet is still the latest. */
  lemma TripwireProtects(c: Config, i: nat, s1: St, s2: St, s3: St)
    requires Rely(c, s1, s2) && Rely(c, s2, s3) && i < MAX_ENDPOINTS
    ensures s3.sutw ==> s1.ep[i].setup == s2.ep[i].setup == s3.ep[i].setup
  {
    assert SlotRely(c, i, s1, s2) && SlotRely(c, i, s2, s3);
  }

  /** Moving the tripwire is nothing that an endpoint notices. */
  lemma RaisedIsRely(c: Config, s: St, mid: St, raised: St, s': St)
    requires Rely(c, s, mid) && raised == mid.(sutw := raised.sutw) && Rely(c, raised, s')
    ensures RelyExcept(c, {}, s, s')
  {
    forall j | 0 <= j < MAX_ENDPOINTS ensures SlotRely(c, j, mid, raised) && (j < 2 || UncutAt(j, mid, raised)) {
    }
    RelyExceptTransitive(c, {}, s, mid, raised);
    RelyExceptTransitive(c, {}, s, raised, s');
  }

  /** Clearing its setup bit is between one endpoint and its register. */
  lemma ClearedElsewhere(c: Config, i: nat, s: St, mid: St, cleared: St, s': St)
    requires i < MAX_ENDPOINTS && Rely(c, s, mid) && RelyExcept(c, {}, cleared, s')
    requires cleared == mid.(ep := mid.ep[i := mid.ep[i].(setup := mid.ep[i].setup.(pending := false))])
    ensures RelyExcept(c, {i}, s, s')
  {
    UncutStep(mid, cleared, i, cleared.ep[i]);
    UncutTransitive(s, mid, cleared);
    UncutTransitive(s, cleared, s');
    forall j | 0 <= j < MAX_ENDPOINTS && j != i ensures SlotRely(c, j, s, s') {
      assert SlotRely(c, j, s, mid) && SlotRely(c, j, cleared, s');
      EpRelyTransitive(s.ep[j], mid.ep[j], s'.ep[j]);
    }
  }

  lemma ClearedHere(c: Config, i: nat, s: St, mid: St, cleared: St, read: St, s': St)
    requires i < MAX_ENDPOINTS && Rely(c, s, mid)
    requires RelyExcept(c, {}, cleared, read) && RelyExcept(c, {}, read, s')
    requires cleared == mid.(ep := mid.ep[i := mid.ep[i].(setup := mid.ep[i].setup.(pending := false))])
    ensures SetupRely(s.ep[i], mid.ep[i]) && SetupRely(cleared.ep[i], read.ep[i]) && SetupRely(read.ep[i], s'.ep[i])
    ensures EpRely(s.ep[i], s'.ep[i].(setup := s.ep[i].setup)) && QuietBuffer(c, i, s, s')
  {
    assert SlotRely(c, i, s, mid) && SlotRely(c, i, cleared, read) && SlotRely(c, i, read, s');
    EpRelyTransitive(cleared.ep[i], read.ep[i], s'.ep[i]);
    WithoutSetup(s.ep[i], mid.ep[i], cleared.ep[i], s'.ep[i]);
  }

  lemma WithoutSetup(e: Ep, mid: Ep, cleared: Ep, e': Ep)
    requires EpRely(e, mid) && EpRely(cleared, e') && cleared == mid.(setup := cleared.setup)
    ensures EpRely(e, e'.(setup := e.setup))
  {
    SetupAside(e, mid, e.setup);
    SetupAside(cleared, e', e.setup);
    assert cleared.(setup := e.setup) == mid.(setup := e.setup) && e.(setup := e.setup) == e;
    EpRelyTransitive(e, mid.(setup := e.setup), e'.(setup := e.setup));
  }

  lemma SetupAside(e: Ep, e': Ep, setup: Setup)
    requires EpRely(e, e')
    ensures EpRely(e.(setup := setup), e'.(setup := setup))
  {
  }

  lemma LatestWord(e: Ep, mid: Ep, read: Ep, e': Ep)
    requires SetupRely(e, mid) && SetupRely(read, e') && SetupInv(read)
    requires SetupRely(mid.(setup := mid.setup.(pending := false)), read)
    ensures LatestDuring(e, e', read.setup.lo + read.setup.hi)
  {
    var before, now, after := e.setup, read.setup, e'.setup;
    if now.log != before.log {
      assert after.log[|now.log| - 1] == now.lo + now.hi;
    }
  }
}
