/** Every legal access of the driver keeps the invariant, and no step of the controller can
  * make a legal access illegal. */
module DriverSteps {
  import opened Types
  import opened Memory
  import opened Device
  import opened Invariant
  import opened Agreement

  /** What the driver has checked stays true until it acts. */
  lemma LegalIsStable(c: Config, s: St, s': St, op: Op)
    requires GoodConfig(c) && |s.ep| == MAX_ENDPOINTS && Legal(c, s, op) && Rely(c, s, s')
    ensures Legal(c, s', op)
  {
    if IsSlotOp(op) {
      assert SlotRely(c, op.slot, s, s');
    }
  }

  predicate IsEditOp(op: Op) {
    op.TdTerminate? || op.TdBuffer? || op.TdInterrupt? || op.TdActivate? || op.LinkOverlay? || op.ClearOverlay?
  }

  lemma EditInv(c: Config, s: St, op: Op)
    requires GoodConfig(c) && Inv(c, s) && Legal(c, s, op) && IsEditOp(op)
    ensures EpInv(c, op.slot, DoSlotOp(c, op.slot, s.ep[op.slot], s.mem, op), s.mem)
  {
    assert Holds(c, op.slot, s);
    var h := s.ep[op.slot].h;
    if op.TdTerminate? && IsOut(op.slot) && h.Pending() {
      assert |h.done| == |h.rx| - 1;
    }
  }

  lemma PrimeInv(c: Config, s: St, i: nat)
    requires GoodConfig(c) && Inv(c, s) && Legal(c, s, WritePrime(i))
    ensures EpInv(c, i, DoSlotOp(c, i, s.ep[i], s.mem, WritePrime(i)), s.mem)
  {
    assert Holds(c, i, s);
  }

  lemma LoadInv(c: Config, s: St, i: nat, cap: nat)
    requires GoodConfig(c) && Inv(c, s) && Legal(c, s, LoadBuffer(i, cap))
    ensures EpInv(c, i, DoSlotOp(c, i, s.ep[i], s.mem, LoadBuffer(i, cap)), s.mem)
  {
    assert Holds(c, i, s);
    var e, ptr := s.ep[i], BufferOf(c, i).ptr;
    var n := ReadLength(e, cap);
    if e.h.Pending() {
      var p := Last(e.h.rx);
      assert n == Min(cap, |p|);
      assert Load(s.mem, ptr, n) == Load(s.mem, ptr, |p|)[..n];
    }
  }

  /** Accesses to an endpoint's own words. */
  lemma WordOpKeeps(c: Config, s: St, op: Op)
    requires GoodConfig(c) && Inv(c, s) && Legal(c, s, op) && IsSlotOp(op)
    requires IsEditOp(op) || op.WritePrime? || op.LoadBuffer?
    ensures Inv(c, DoOp(c, s, op))
  {
    var i := op.slot;
    assert Holds(c, i, s);
    if IsEditOp(op) {
      EditInv(c, s, op);
    } else if op.WritePrime? {
      PrimeInv(c, s, i);
    } else {
      LoadInv(c, s, i, op.cap);
    }
    SlotStep(c, s, DoOp(c, s, op), i, DoSlotOp(c, i, s.ep[i], s.mem, op));
  }

  lemma StoreKeeps(c: Config, s: St, op: Op)
    requires GoodConfig(c) && Inv(c, s) && Legal(c, s, op) && op.StoreBuffer?
    ensures Inv(c, DoOp(c, s, op))
  {
    assert Holds(c, op.slot, s);
    StoreOnlyIn(c, op.slot, s.mem, op.data);
    SlotStep(c, s, DoOp(c, s, op), op.slot, s.ep[op.slot]);
  }

  predicate IsControlOp(op: Op) {
    op.EnableZlt? || op.ClearComplete? || op.ClearNak? || op.SetStalled? || op.EnableEp? || op.DisableEp?
  }

  lemma ControlInv(c: Config, i: nat, e: Ep, mem: Mem, op: Op)
    requires GoodConfig(c) && Allocated(c, i) && EpInv(c, i, e, mem) && IsControlOp(op)
    ensures EpInv(c, i, DoSlotOp(c, i, e, mem, op), mem)
  {
    if op.ClearComplete? {
      ClearedInv(c, i, e, mem);
    } else {
      ControlBitsInv(c, i, e, DoSlotOp(c, i, e, mem, op), mem);
    }
  }

  lemma ClearedInv(c: Config, i: nat, e: Ep, mem: Mem)
    requires GoodConfig(c) && Allocated(c, i) && EpInv(c, i, e, mem)
    ensures EpInv(c, i, ResetEp(i, e, {i}), mem)
  {
  }

  /** NAK, control and ZLT bits are of no concern to the invariant. */
  lemma ControlBitsInv(c: Config, i: nat, e: Ep, e': Ep, mem: Mem)
    requires GoodConfig(c) && Allocated(c, i) && EpInv(c, i, e, mem)
    requires e' == e.(reg := e'.reg, qh := e.qh.(zltDisabled := e'.qh.zltDisabled))
    requires e'.reg.prime == e.reg.prime && e'.reg.stat == e.reg.stat && e'.reg.complete == e.reg.complete
    ensures EpInv(c, i, e', mem)
  {
  }

  lemma ControlAnnounced(c: Config, i: nat, s: St, op: Op)
    requires GoodConfig(c) && |s.ep| == MAX_ENDPOINTS && i < MAX_ENDPOINTS && IsControlOp(op) && op.slot == i && Legal(c, s, op)
    requires Holds(c, i, s)
    ensures var s', e' := DoOp(c, s, op), DoSlotOp(c, i, s.ep[i], s.mem, op); Announced(s', i, e') && MaskCurrent(s', i, e')
  {
  }

  lemma ControlKeeps(c: Config, s: St, op: Op)
    requires GoodConfig(c) && Inv(c, s) && Legal(c, s, op)
    requires IsControlOp(op)
    ensures Inv(c, DoOp(c, s, op))
  {
    var i := op.slot;
    assert Holds(c, i, s);
    ControlInv(c, i, s.ep[i], s.mem, op);
    ControlAnnounced(c, i, s, op);
    SlotStep(c, s, DoOp(c, s, op), i, DoSlotOp(c, i, s.ep[i], s.mem, op));
  }

  lemma ClearSetupKeeps(c: Config, s: St, k: nat)
    requires GoodConfig(c) && Inv(c, s)
    ensures Inv(c, DoOp(c, s, ClearSetup(k)))
  {
    if k < 8 {
      assert Holds(c, 2 * k, s);
      var s' := DoOp(c, s, ClearSetup(k));
      SlotStep(c, s, s', 2 * k, s'.ep[2 * k]);
    }
  }

  lemma AckInInv(c: Config, i: nat, e: Ep, mem: Mem, mask: set<nat>)
    requires GoodConfig(c) && EpInv(c, i, e, mem) && (!IsOut(i) && i / 2 in mask ==> e.reg.complete)
    ensures EpInv(c, i, AckInEp(i, e, mask), mem)
  {
  }

  lemma AckInKeeps(c: Config, s: St)
    requires GoodConfig(c) && Inv(c, s) && s.poll.InRead?
    ensures Inv(c, DoOp(c, s, AckIn))
  {
    var s' := DoOp(c, s, AckIn);
    forall i | 0 <= i < MAX_ENDPOINTS
      ensures Holds(c, i, s')
    {
      assert Holds(c, i, s);
      assert s'.ep[i] == AckInEp(i, s.ep[i], s.poll.mask);
      AckInInv(c, i, s.ep[i], s.mem, s.poll.mask);
    }
  }

  lemma ResetCompleteKeeps(c: Config, s: St, slots: set<nat>)
    requires GoodConfig(c) && Inv(c, s) && s.poll.Idle?
    ensures Inv(c, DoOp(c, s, ResetComplete(slots)))
  {
    var s' := DoOp(c, s, ResetComplete(slots));
    forall i | 0 <= i < MAX_ENDPOINTS
      ensures Holds(c, i, s')
    {
      assert Holds(c, i, s);
      assert s'.ep[i] == ResetEp(i, s.ep[i], slots);
    }
  }

  /** Acknowledging UI first is what keeps later completions announced; each read then takes
    * over for the completions that came before it. */
  lemma PollKeeps(c: Config, s: St, op: Op)
    requires GoodConfig(c) && Inv(c, s) && Legal(c, s, op)
    requires op.AckInterrupt? || op.PollOut? || op.PollIn? || op.PollSetup?
    ensures Inv(c, DoOp(c, s, op))
  {
    var s' := DoOp(c, s, op);
    forall i | 0 <= i < MAX_ENDPOINTS
      ensures Holds(c, i, s')
    {
      assert Holds(c, i, s);
      PollAnnounces(c, s, op, i);
    }
  }

  lemma PollAnnounces(c: Config, s: St, op: Op, i: nat)
    requires GoodConfig(c) && Inv(c, s) && Legal(c, s, op) && i < MAX_ENDPOINTS
    requires op.AckInterrupt? || op.PollOut? || op.PollIn? || op.PollSetup?
    ensures var s' := DoOp(c, s, op); Announced(s', i, s.ep[i]) && MaskCurrent(s', i, s.ep[i])
  {
    var k := i / 2;
    assert i == 2 * k || i == 2 * k + 1;
    assert Holds(c, i, s);
  }

  lemma FlagsInv(c: Config, i: nat, e: Ep, mem: Mem, nak: bool, flush: bool)
    requires GoodConfig(c) && EpInv(c, i, e, mem)
    ensures EpInv(c, i, e.(reg := e.reg.(nak := nak, flush := flush)), mem)
  {
  }

  lemma NakKeeps(c: Config, s: St, slots: set<nat>)
    requires GoodConfig(c) && Inv(c, s)
    ensures Inv(c, DoOp(c, s, ResetNak(slots)))
  {
    var s' := DoOp(c, s, ResetNak(slots));
    forall i | 0 <= i < MAX_ENDPOINTS
      ensures Holds(c, i, s')
    {
      assert Holds(c, i, s);
      assert s'.ep[i] == NakEp(i, s.ep[i], slots);
      FlagsInv(c, i, s.ep[i], s.mem, false, s.ep[i].reg.flush);
    }
  }

  lemma FlushKeeps(c: Config, s: St)
    requires GoodConfig(c) && Inv(c, s)
    ensures Inv(c, DoOp(c, s, FlushAll))
  {
    var s' := DoOp(c, s, FlushAll);
    forall i | 0 <= i < MAX_ENDPOINTS
      ensures Holds(c, i, s')
    {
      assert Holds(c, i, s);
      assert s'.ep[i] == FlushEp(s.ep[i]);
      FlagsInv(c, i, s.ep[i], s.mem, s.ep[i].reg.nak, true);
    }
  }

  /** Every legal access, from every reachable state. */
  lemma OpKeeps(c: Config, s: St, op: Op)
    requires GoodConfig(c) && Inv(c, s) && Legal(c, s, op)
    ensures Inv(c, DoOp(c, s, op))
  {
    if IsSlotOp(op) {
      if op.StoreBuffer? {
        StoreKeeps(c, s, op);
      } else if IsEditOp(op) || op.WritePrime? || op.LoadBuffer? {
        WordOpKeeps(c, s, op);
      } else {
        ControlKeeps(c, s, op);
      }
    } else {
      match op
      case ClearSetup(k) => ClearSetupKeeps(c, s, k);
      case AckIn => AckInKeeps(c, s);
      case ResetComplete(slots) => ResetCompleteKeeps(c, s, slots);
      case ResetNak(slots) => NakKeeps(c, s, slots);
      case FlushAll => FlushKeeps(c, s);
      case SetTripwire => FlagStep(c, s, DoOp(c, s, op));
      case ClearTripwire => FlagStep(c, s, DoOp(c, s, op));
      case AckReset => FlagStep(c, s, DoOp(c, s, op));
      case _ => PollKeeps(c, s, op);
    }
  }
}
