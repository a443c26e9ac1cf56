/** The driver (src/driver.rs). Between its calls no endpoint is priming, so that ENDPTSTAT
  * alone tells which endpoints the controller has. */
module DriverModel {
  import opened Types
  import opened Memory
  import opened Device
  import opened Invariant
  import opened Agreement
  import opened Runs
  import opened Usb
  import opened EndpointDriver
  import opened CallEffects
  import opened Calls

  class Driver {
    const usb: Peripheral
    const eps: seq<Endpoint?>
    var epOut: set<nat>

    ghost predicate Valid()
      reads this, usb
    {
      && usb.Valid() && Calm(usb.s) && usb.s.poll.Idle? && epOut == usb.s.epOut
      && |eps| == MAX_ENDPOINTS
      && forall i :: 0 <= i < MAX_ENDPOINTS ==>
           (eps[i] != null <==> Allocated(usb.c, i)) && (eps[i] != null ==> eps[i].usb == usb && eps[i].slot == i)
    }

    constructor (usb: Peripheral, eps: seq<Endpoint?>)
      requires usb.Valid() && Calm(usb.s) && usb.s.poll.Idle? && usb.s.epOut == {}
      requires |eps| == MAX_ENDPOINTS
      requires forall i :: 0 <= i < MAX_ENDPOINTS ==>
                 (eps[i] != null <==> Allocated(usb.c, i)) && (eps[i] != null ==> eps[i].usb == usb && eps[i].slot == i)
      ensures Valid() && this.usb == usb
    {
      this.usb, this.eps, this.epOut := usb, eps, {};
    }

    ghost function H(slot: nat): History
      requires Valid() && slot < MAX_ENDPOINTS
      reads this, usb
    {
      usb.s.ep[slot].h
    }

    /** The endpoint is the driver's: acknowledge, copy out, schedule again. */
    method TakePacket(slot: nat, cap: nat) returns (data: Packet)
      requires Valid() && slot < MAX_ENDPOINTS && IsOut(slot) && Allocated(usb.c, slot) && usb.s.ep[slot].Quiet()
      modifies usb`s, usb`run, usb`script
      ensures Valid() && RelyExcept(usb.c, {slot}, old(usb.s), usb.s)
      ensures Ops(usb.run) == Ops(old(usb.run)) + ReadOps(slot, cap, MaxLen(usb.c, slot))
      ensures TakenFrom(old(usb.s.ep[slot]), H(slot), cap, data)
      ensures (H(slot).cuts == old(H(slot)).cuts ==> Live(usb.s.ep[slot])) && Matched(usb.s.ep[slot])
      ensures ArmedSince(old(H(slot)), H(slot)) && usb.s.ep[slot].td.last == MaxLen(usb.c, slot)
    {
      var ep := eps[slot];
      ghost var c, s0 := usb.c, usb.s;
      assert AtRest(s0.ep[slot]) && Holds(c, slot, s0);
      ep.Acknowledge();
      ghost var s1 := usb.s;
      data := ep.ReadAndSchedule(cap);
      RelyExceptTransitive(c, {slot}, s0, s1, usb.s);
      CalmKept(c, {slot}, s0, usb.s);
      TakenWhenKept(c, slot, s0, s1, cap, data, usb.s.ep[slot].h);
    }

    /** The look at the descriptor's status, then at ENDPTSTAT, with which every transfer call
      * begins. If they let the call pass, the first saw no error, and at the second the driver
      * has the endpoint; the error that the descriptor may show by then came in between. */
    method Gate(slot: nat) returns (refusal: Option<UsbError>, ghost looks: Looks)
      requires Valid() && slot < MAX_ENDPOINTS && Allocated(usb.c, slot)
      modifies usb`s, usb`run, usb`script
      ensures Valid() && Rely(usb.c, old(usb.s), usb.s) && Ops(usb.run) == Ops(old(usb.run))
      ensures refusal.Some? ==> RefusedFor(usb.s.ep[slot], refusal.value)
      ensures Looked(usb.run) == Looked(old(usb.run)) + [TdStatus(slot)] + (if refusal == Some(InvalidState) then [] else [EndptStat(slot)])
      ensures LookedAt(usb.c, old(usb.s), looks) && looks.second == usb.s
      ensures refusal == None ==> LetPass(old(usb.s.ep[slot]), looks.first.ep[slot], usb.s.ep[slot])
      ensures old(usb.s.ep[slot]).Quiet() ==>
                refusal == if old(usb.s.ep[slot]).td.status.IsError() then Some(InvalidState) else None
    {
      var ep := eps[slot];
      ghost var c, s0 := usb.c, usb.s;
      var failed := ep.CheckErrors();
      ghost var s1 := usb.s;
      assert SlotRely(c, slot, s0, s1);
      CalmKept(c, {}, s0, s1);
      if failed {
        RelyReflexive(c, s1);
        return Some(InvalidState), Looks(s1, s1);
      }
      var primed := ep.IsPrimed();
      RelyTransitive(c, s0, s1, usb.s);
      assert SlotRely(c, slot, s1, usb.s) && SlotRely(c, slot, s0, usb.s);
      CalmKept(c, {}, s1, usb.s);
      assert AtRest(usb.s.ep[slot]);
      refusal, looks := if primed then Some(WouldBlock) else None, Looks(s1, usb.s);
    }

    /** Reads a packet from an OUT endpoint, and schedules the next transfer. An error return
      * has touched nothing. If the controller does not have the endpoint when the call
      * starts, the outcome is decided: an error if the last transfer failed, a packet if the
      * last poll reported one. Success hands out the packet that waits; only if none does, as
      * `ReadEffect` says, it hands out none. */
    method EpRead(cap: nat, addr: Address) returns (r: Result<Packet>, ghost looks: Looks)
      requires Valid() && addr.dir == Out && Index(addr) < MAX_ENDPOINTS && Allocated(usb.c, Index(addr))
      modifies usb`s, usb`run, usb`script
      ensures Valid() && RelyExcept(usb.c, {Index(addr)}, old(usb.s), usb.s) && LookedAt(usb.c, old(usb.s), looks)
      ensures DataRead(usb.c, Index(addr), addr.index in epOut, old(usb.s), usb.s, looks, cap, r)
      ensures Ops(usb.run) == Ops(old(usb.run)) + DataReadOps(usb.c, Index(addr), cap, r)
    {
      var slot := Index(addr);
      ghost var s0 := usb.s;
      var refusal;
      refusal, looks := Gate(slot);
      if refusal == None && addr.index !in epOut {
        refusal := Some(WouldBlock);
      }
      if refusal.Some? {
        ReadRefused(usb.c, slot, addr.index in epOut, s0, usb.s, looks, cap, refusal.value);
        RelyIsExcept(usb.c, {slot}, s0, usb.s);
        return Err(refusal.value), looks;
      }
      var data := TakePassed(slot, cap, s0, looks);
      ReadAccepted(usb.c, slot, s0, usb.s, looks, cap, data);
      r := Ok(data);
    }

    /** A read has passed the two looks. */
    method TakePassed(slot: nat, cap: nat, ghost start: St, ghost looks: Looks) returns (data: Packet)
      requires Valid() && slot < MAX_ENDPOINTS && IsOut(slot) && Allocated(usb.c, slot)
      requires Rely(usb.c, start, usb.s) && LookedAt(usb.c, start, looks) && looks.second == usb.s
      requires LetPass(start.ep[slot], looks.first.ep[slot], usb.s.ep[slot])
      modifies usb`s, usb`run, usb`script
      ensures Valid() && RelyExcept(usb.c, {slot}, start, usb.s)
      ensures Ops(usb.run) == Ops(old(usb.run)) + ReadOps(slot, cap, MaxLen(usb.c, slot))
      ensures |looks.first.ep| == |looks.second.ep| == MAX_ENDPOINTS
      ensures HasRead(start.ep[slot], looks.first.ep[slot], looks.second.ep[slot], usb.s.ep[slot], cap, data, MaxLen(usb.c, slot))
    {
      ghost var s1 := usb.s;
      assert AtRest(s1.ep[slot]) && SlotRely(usb.c, slot, start, s1) && Holds(usb.c, slot, s1);
      data := TakePacket(slot, cap);
      ReadPassed(usb.c, slot, start.ep[slot], looks.first.ep[slot], s1, H(slot), cap, data);
      RelyExceptTransitive(usb.c, {slot}, start, s1, usb.s);
    }

    /** Accepts a packet for an IN endpoint: as much of `buffer` as one packet holds, in its
      * place behind all packets accepted before. An error return has touched nothing. */
    method EpWrite(buffer: Packet, addr: Address) returns (r: Result<nat>, ghost looks: Looks)
      requires Valid() && addr.dir == In && Index(addr) < MAX_ENDPOINTS && Allocated(usb.c, Index(addr))
      modifies usb`s, usb`run, usb`script
      ensures Valid() && RelyExcept(usb.c, {Index(addr)}, old(usb.s), usb.s) && LookedAt(usb.c, old(usb.s), looks)
      ensures DataWritten(usb.c, Index(addr), old(usb.s), usb.s, looks, buffer, r)
      ensures Ops(usb.run) == Ops(old(usb.run)) + DataWriteOps(Index(addr), buffer, r)
    {
      var slot := Index(addr);
      ghost var s0 := usb.s;
      var refusal;
      refusal, looks := Gate(slot);
      if refusal.Some? {
        return Err(refusal.value), looks;
      }
      var written := QueuePassed(slot, buffer, s0, looks);
      r := Ok(written);
    }

    /** A write has passed the two looks. */
    method QueuePassed(slot: nat, buffer: Packet, ghost start: St, ghost looks: Looks) returns (written: nat)
      requires Valid() && slot < MAX_ENDPOINTS && !IsOut(slot) && Allocated(usb.c, slot)
      requires Rely(usb.c, start, usb.s) && LookedAt(usb.c, start, looks) && looks.second == usb.s
      requires LetPass(start.ep[slot], looks.first.ep[slot], usb.s.ep[slot])
      modifies usb`s, usb`run, usb`script
      ensures Valid() && RelyExcept(usb.c, {slot}, start, usb.s)
      ensures written == Min(MaxLen(usb.c, slot), |buffer|) && |looks.first.ep| == |looks.second.ep| == MAX_ENDPOINTS
      ensures Wrote(start.ep[slot], looks.first.ep[slot], looks.second.ep[slot], usb.s.ep[slot], buffer[..written])
      ensures Ops(usb.run) == Ops(old(usb.run)) + WriteOps(slot, buffer[..written])
    {
      ghost var s1 := usb.s;
      assert AtRest(s1.ep[slot]) && Holds(usb.c, slot, s1) && SlotRely(usb.c, slot, start, s1);
      var ep := eps[slot];
      written := ep.WriteAndSchedule(buffer);
      WriteOutcome(start.ep[slot], looks.first.ep[slot], s1.ep[slot], buffer[..written], usb.s.ep[slot].h);
      RelyExceptTransitive(usb.c, {slot}, start, s1, usb.s);
      CalmKept(usb.c, {slot}, s1, usb.s);
    }

    /** The accesses of a poll that change no endpoint. */
    method Note(op: Op, ghost start: St)
      requires usb.Valid() && Legal(usb.c, usb.s, op) && AllRely(usb.c, start, usb.s)
      requires op.AckInterrupt? || op.PollOut? || op.PollIn? || op.PollSetup?
      modifies usb`s, usb`run, usb`script
      ensures usb.Valid() && AllRely(usb.c, start, usb.s) && Ops(usb.run) == Ops(old(usb.run)) + [op]
      ensures usb.s.poll == (match op
                             case AckInterrupt => Acked
                             case PollOut => OutRead
                             case PollIn => InRead(CompleteIn(usb.s))
                             case _ => Idle)
      ensures usb.s.epOut == if op.PollOut? then CompleteOut(usb.s) else old(usb.s.epOut)
      ensures op.PollSetup? ==> usb.s.epSetup == SetupStat(usb.s)
      ensures CompleteOut(start) <= CompleteOut(usb.s) && CompleteIn(start) <= CompleteIn(usb.s)
      ensures SetupStat(start) <= SetupStat(usb.s)
    {
      ghost var mid := usb.Do(op);
      OpIsUncut(usb.c, mid, op);
      UncutTransitive(old(usb.s), mid, usb.s);
      forall i | 0 <= i < MAX_ENDPOINTS ensures SlotRely(usb.c, i, old(usb.s), usb.s) {
        assert SlotRely(usb.c, i, old(usb.s), mid);
      }
      AllRelyTransitive(usb.c, start, old(usb.s), usb.s);
      BitsStay(usb.c, start, usb.s);
    }

    /** UI is acknowledged before the completions are read, so that one that comes later
      * raises it again. */
    method ReadCompletions(ghost start: St) returns (inComplete: set<nat>)
      requires usb.Valid() && usb.s.poll.Idle? && usb.s.ui && AllRely(usb.c, start, usb.s)
      modifies this`epOut, usb`s, usb`run, usb`script
      ensures usb.Valid() && AllRely(usb.c, start, usb.s) && usb.s.poll == InRead(inComplete) && epOut == usb.s.epOut
      ensures CompleteOut(start) <= epOut <= CompleteOut(usb.s) && CompleteIn(start) <= inComplete
      ensures Ops(usb.run) == Ops(old(usb.run)) + [AckInterrupt, PollOut, PollIn]
    {
      ReadOut(start);
      ghost var read := usb.s;
      AllRelyReflexive(usb.c, read);
      Note(PollIn, read);
      AllRelyTransitive(usb.c, start, read, usb.s);
      inComplete := usb.s.poll.mask;
    }

    method ReadOut(ghost start: St)
      requires usb.Valid() && usb.s.poll.Idle? && usb.s.ui && AllRely(usb.c, start, usb.s)
      modifies this`epOut, usb`s, usb`run, usb`script
      ensures usb.Valid() && AllRely(usb.c, start, usb.s) && usb.s.poll == OutRead && epOut == usb.s.epOut == CompleteOut(usb.s)
      ensures CompleteOut(start) <= epOut && CompleteIn(start) <= CompleteIn(usb.s)
      ensures Ops(usb.run) == Ops(old(usb.run)) + [AckInterrupt, PollOut]
    {
      Note(AckInterrupt, start);
      Note(PollOut, start);
      epOut := usb.s.epOut;
    }

    /** Only completions that have been read are taken down. */
    method AcknowledgeAndFinish(inComplete: set<nat>, ghost start: St)
      requires usb.Valid() && usb.s.poll == InRead(inComplete) && AllRely(usb.c, start, usb.s) && Calm(start)
      requires usb.s.epOut <= CompleteOut(usb.s)
      modifies usb`s, usb`run, usb`script
      ensures usb.Valid() && Polled(usb.c, start, usb.s, inComplete) && Calm(usb.s) && usb.s.poll.Idle?
      ensures usb.s.epOut == old(usb.s.epOut) <= CompleteOut(usb.s) && SetupStat(start) <= usb.s.epSetup == SetupStat(usb.s)
      ensures Ops(usb.run) == Ops(old(usb.run)) + [AckIn, PollSetup]
    {
      ghost var c, before := usb.c, usb.s;
      ghost var m := usb.Do(AckIn);
      ghost var acked := usb.s;
      AckedMasks(c, start, before, m);
      AllRelyReflexive(c, acked);
      Note(PollSetup, acked);
      AckedThenNoted(c, start, before, m, acked, usb.s, inComplete);
    }

    method PollData(ghost start: St) returns (r: PollResult)
      requires Valid() && usb.s.ui && AllRely(usb.c, start, usb.s) && Calm(start)
      modifies this`epOut, usb`s, usb`run, usb`script
      ensures Valid() && r.Data? && r.epOut == epOut && r.epSetup == usb.s.epSetup
      ensures Polled(usb.c, start, usb.s, r.epInComplete)
      ensures CompleteOut(start) <= r.epOut <= CompleteOut(usb.s) && CompleteIn(start) <= r.epInComplete
      ensures SetupStat(start) <= r.epSetup == SetupStat(usb.s)
      ensures Ops(usb.run) == Ops(old(usb.run)) + [AckInterrupt, PollOut, PollIn, AckIn, PollSetup]
    {
      var inComplete := ReadCompletions(start);
      AcknowledgeAndFinish(inComplete, start);
      r := Data(epOut, inComplete, usb.s.epSetup);
    }

    method PollReset()
      requires Valid() && usb.s.uri
      modifies usb`s, usb`run, usb`script
      ensures Valid() && AllRely(usb.c, old(usb.s), usb.s) && !usb.s.uri && Ops(usb.run) == Ops(old(usb.run)) + [AckReset]
      ensures (old(usb.s.ui) ==> usb.s.ui) && usb.s.epSetup == old(usb.s.epSetup)
    {
      ghost var mid := usb.Do(AckReset);
      OpIsUncut(usb.c, mid, AckReset);
      UncutTransitive(old(usb.s), mid, usb.s);
      CalmKept(usb.c, {}, old(usb.s), mid);
      forall i | 0 <= i < MAX_ENDPOINTS ensures SlotRely(usb.c, i, old(usb.s), usb.s) {
        assert SlotRely(usb.c, i, old(usb.s), mid);
      }
    }

    /** A reset that the one look at USBSTS sees wins, and leaves everything else pending;
      * otherwise completions and setups are reported if UI is up, all that were there when the
      * call began among them, and none that are not there; otherwise nothing happens. */
    method Poll() returns (r: PollResult, ghost seen: St)
      requires Valid()
      modifies this`epOut, usb`s, usb`run, usb`script
      ensures Valid()
      ensures Rely(usb.c, old(usb.s), seen) && (r == Reset <==> seen.uri) && (r == NoEvent <==> !seen.uri && !seen.ui)
      ensures r == NoEvent ==> Rely(usb.c, old(usb.s), usb.s) && epOut == old(epOut) && Ops(usb.run) == Ops(old(usb.run))
                               && Looked(usb.run) == Looked(old(usb.run)) + [Usbsts]
      ensures r == Reset ==> AllRely(usb.c, old(usb.s), usb.s) && (old(usb.s.ui) ==> usb.s.ui) && epOut == old(epOut)
                             && Ops(usb.run) == Ops(old(usb.run)) + [AckReset]
      ensures r.Data? ==>
                && Polled(usb.c, old(usb.s), usb.s, r.epInComplete) && r.epOut == epOut && r.epSetup == usb.s.epSetup
                && CompleteOut(old(usb.s)) <= r.epOut <= CompleteOut(usb.s) && CompleteIn(old(usb.s)) <= r.epInComplete
                && SetupStat(old(usb.s)) <= r.epSetup == SetupStat(usb.s)
                && Ops(usb.run) == Ops(old(usb.run)) + [AckInterrupt, PollOut, PollIn, AckIn, PollSetup]
    {
      ghost var c, s0 := usb.c, usb.s;
      var now := usb.Sample(Usbsts);
      CalmKept(c, {}, s0, usb.s);
      seen := usb.s;
      if now.uri {
        PollReset();
        AllRelyTransitive(c, s0, seen, usb.s);
        r := Reset;
        return;
      }
      if now.ui {
        r := PollData(s0);
      } else {
        r := NoEvent;
      }
    }

    /** Schedules the largest packet, if the driver has the endpoint. An unread packet is lost. */
    method Reprime(slot: nat, ack: bool) returns (ghost done: bool)
      requires Valid() && slot < MAX_ENDPOINTS && IsOut(slot) && Allocated(usb.c, slot)
      modifies usb`s, usb`run, usb`script
      ensures Valid() && RelyExcept(usb.c, {slot}, old(usb.s), usb.s)
      ensures Reprimed(old(usb.s.ep[slot]), usb.s.ep[slot], done, MaxLen(usb.c, slot))
      ensures !done ==> Rely(usb.c, old(usb.s), usb.s) && Ops(usb.run) == Ops(old(usb.run))
      ensures done ==> Ops(usb.run) == Ops(old(usb.run)) + (if ack then [Op.ClearNak(slot)] else [])
                                       + ScheduleOps(slot, MaxLen(usb.c, slot))
      ensures SameControl(old(usb.s.ep[slot]), usb.s.ep[slot]) && SetupRely(old(usb.s.ep[slot]), usb.s.ep[slot])
      ensures Renewed(old(usb.s.ep[slot]), usb.s.ep[slot])
    {
      ghost var c, s0 := usb.c, usb.s;
      var primed := TestPrimed(slot, ack);
      ghost var s1 := usb.s;
      done := !primed;
      assert SlotRely(c, slot, s0, s1) && AtRest(s0.ep[slot]);
      if !primed {
        ScheduleUnread(slot, s0);
      } else {
        assert Holds(c, slot, s1);
      }
    }

    method ScheduleUnread(slot: nat, ghost start: St)
      requires Valid() && slot < MAX_ENDPOINTS && IsOut(slot) && Allocated(usb.c, slot)
      requires Rely(usb.c, start, usb.s) && usb.s.ep[slot].Quiet() && !start.ep[slot].reg.prime
      modifies usb`s, usb`run, usb`script
      ensures Valid() && RelyExcept(usb.c, {slot}, start, usb.s)
      ensures Ops(usb.run) == Ops(old(usb.run)) + ScheduleOps(slot, MaxLen(usb.c, slot))
      ensures Reprimed(start.ep[slot], usb.s.ep[slot], true, MaxLen(usb.c, slot)) && Renewed(start.ep[slot], usb.s.ep[slot])
      ensures SameControl(old(usb.s.ep[slot]), usb.s.ep[slot]) && SetupRely(old(usb.s.ep[slot]), usb.s.ep[slot])
    {
      ghost var s1 := usb.s;
      assert AtRest(s1.ep[slot]) && SlotRely(usb.c, slot, start, s1) && Holds(usb.c, slot, s1);
      ScheduleLargest(slot);
      RelyExceptTransitive(usb.c, {slot}, start, s1, usb.s);
      SettledUnread(usb.c, slot, s1.ep[slot], s1.mem, usb.s.ep[slot], MaxLen(usb.c, slot));
      ReprimedFrom(start.ep[slot], s1.ep[slot], usb.s.ep[slot], true, MaxLen(usb.c, slot));
    }

    /** Who has the endpoint; if it is the driver, its NAK is acknowledged on request. */
    method TestPrimed(slot: nat, ack: bool) returns (primed: bool)
      requires Valid() && slot < MAX_ENDPOINTS && Allocated(usb.c, slot)
      modifies usb`s, usb`run, usb`script
      ensures Valid() && Rely(usb.c, old(usb.s), usb.s)
      ensures Ops(usb.run) == Ops(old(usb.run)) + (if ack && !primed then [Op.ClearNak(slot)] else [])
      ensures if primed then usb.s.ep[slot].reg.stat else usb.s.ep[slot].Quiet()
      ensures old(usb.s.ep[slot]).Quiet() ==> !primed
    {
      var ep := eps[slot];
      ghost var c, s0 := usb.c, usb.s;
      primed := ep.IsPrimed();
      ghost var s1 := usb.s;
      assert SlotRely(c, slot, s0, s1);
      CalmKept(c, {}, s0, s1);
      assert AtRest(s1.ep[slot]);
      if ack && !primed {
        ep.ClearNak();
        RelyTransitive(c, s0, s1, usb.s);
        assert SlotRely(c, slot, s1, usb.s);
        CalmKept(c, {}, s1, usb.s);
      }
    }

    method ScheduleLargest(slot: nat)
      requires usb.Valid() && slot < MAX_ENDPOINTS && IsOut(slot) && Allocated(usb.c, slot)
      requires |eps| == MAX_ENDPOINTS && eps[slot] != null && eps[slot].usb == usb && eps[slot].slot == slot
      requires usb.s.ep[slot].Quiet() && Calm(usb.s)
      modifies usb`s, usb`run, usb`script
      ensures usb.Valid() && Calm(usb.s) && RelyExcept(usb.c, {slot}, old(usb.s), usb.s)
      ensures Ops(usb.run) == Ops(old(usb.run)) + ScheduleOps(slot, MaxLen(usb.c, slot))
      ensures HistoryRely(ScheduledHistory(usb.c, slot, old(usb.s.ep[slot]), old(usb.s.mem), MaxLen(usb.c, slot)), usb.s.ep[slot].h)
      ensures SameControl(old(usb.s.ep[slot]), usb.s.ep[slot]) && SetupRely(old(usb.s.ep[slot]), usb.s.ep[slot])
      ensures Rearmed(old(usb.s.ep[slot]), usb.s.ep[slot]) && usb.s.ep[slot].td.last == MaxLen(usb.c, slot)
    {
      var ep := eps[slot];
      assert AtRest(usb.s.ep[slot]);
      var max := ep.MaxPacketLen();
      ep.ScheduleTransfer(max);
      CalmKept(usb.c, {slot}, old(usb.s), usb.s);
    }

    /** Stalls an endpoint, or unstalls it and primes it again if it is an OUT endpoint that
      * the driver has. */
    method EpStall(stall: bool, addr: Address) returns (ghost done: bool)
      requires Valid() && Index(addr) < MAX_ENDPOINTS && Allocated(usb.c, Index(addr))
      modifies usb`s, usb`run, usb`script
      ensures Valid() && RelyExcept(usb.c, {Index(addr)}, old(usb.s), usb.s)
      ensures StallSet(usb.c, Index(addr), old(usb.s), usb.s, stall, done)
      ensures Ops(usb.run) == Ops(old(usb.run)) + StallOps(usb.c, Index(addr), stall, done)
    {
      var slot := Index(addr);
      ghost var c, s0 := usb.c, usb.s;
      StallSlot(slot, stall);
      ghost var s1 := usb.s;
      done := false;
      if !stall && addr.dir == Out {
        done := Unstalled(slot, s0);
        UnstalledThenPrimed(c, slot, s0, s1, usb.s, done);
      } else {
        StalledOnly(c, slot, s0, usb.s, stall);
      }
      Joined(Ops(old(usb.run)), [Op.SetStalled(slot, stall)], if done then ScheduleOps(slot, MaxLen(c, slot)) else []);
    }

    /** The write to ENDPTCTRL. */
    method StallSlot(slot: nat, stall: bool)
      requires Valid() && slot < MAX_ENDPOINTS && Allocated(usb.c, slot)
      modifies usb`s, usb`run, usb`script
      ensures Valid() && RelyExcept(usb.c, {slot}, old(usb.s), usb.s) && AtRest(old(usb.s.ep[slot]))
      ensures EpRely(old(usb.s.ep[slot]), Uncontrolled(usb.s.ep[slot], old(usb.s.ep[slot]).reg))
      ensures ControlDone(Op.SetStalled(slot, stall), usb.c.slots[slot].value.kind, old(usb.s.ep[slot]).reg, usb.s.ep[slot].reg)
      ensures Ops(usb.run) == Ops(old(usb.run)) + [Op.SetStalled(slot, stall)]
    {
      ghost var s0 := usb.s;
      var ep := eps[slot];
      assert AtRest(s0.ep[slot]);
      ep.Control(Op.SetStalled(slot, stall));
      CalmKept(usb.c, {slot}, s0, usb.s);
    }

    /** An OUT endpoint has been unstalled: it is primed, unless it is already. */
    method Unstalled(slot: nat, ghost start: St) returns (ghost done: bool)
      requires Valid() && slot < MAX_ENDPOINTS && IsOut(slot) && Allocated(usb.c, slot)
      requires RelyExcept(usb.c, {slot}, start, usb.s) && AtRest(start.ep[slot])
      requires EpRely(start.ep[slot], Uncontrolled(usb.s.ep[slot], start.ep[slot].reg))
      modifies usb`s, usb`run, usb`script
      ensures Valid() && RelyExcept(usb.c, {slot}, start, usb.s) && SameControl(old(usb.s.ep[slot]), usb.s.ep[slot])
      ensures Reprimed(start.ep[slot], usb.s.ep[slot], done, MaxLen(usb.c, slot)) && Renewed(start.ep[slot], usb.s.ep[slot])
      ensures !done ==> EpRely(start.ep[slot], Uncontrolled(usb.s.ep[slot], start.ep[slot].reg))
      ensures Ops(usb.run) == Ops(old(usb.run)) + (if done then ScheduleOps(slot, MaxLen(usb.c, slot)) else [])
    {
      ghost var s1 := usb.s;
      done := Reprime(slot, false);
      RelyExceptTransitive(usb.c, {slot}, start, s1, usb.s);
      assert !done ==> SlotRely(usb.c, slot, s1, usb.s);
      UnstalledFrom(start.ep[slot], s1.ep[slot], usb.s.ep[slot], done, MaxLen(usb.c, slot));
    }

    method IsEpStalled(addr: Address) returns (r: bool)
      requires Valid() && Index(addr) < MAX_ENDPOINTS && Allocated(usb.c, Index(addr))
      modifies usb`s, usb`run, usb`script
      ensures Valid() && Rely(usb.c, old(usb.s), usb.s) && Ops(usb.run) == Ops(old(usb.run))
      ensures r == old(usb.s.ep[Index(addr)]).reg.stalled
    {
      ghost var s0 := usb.s;
      var ep := eps[Index(addr)];
      r := ep.IsStalled();
      CalmKept(usb.c, {}, s0, usb.s);
    }

    /** The setup branch of a control read: one whole setup packet, the latest at some instant
      * of the call, and the endpoint is primed for data unless it already is. */
    method ReadSetupPacket() returns (setup: Packet, ghost rounds: nat, ghost primed: bool)
      requires Valid() && Allocated(usb.c, 0)
      modifies usb`s, usb`run, usb`script
      ensures Valid() && RelyExcept(usb.c, {0}, old(usb.s), usb.s)
      ensures rounds > 0 && LatestDuring(old(usb.s.ep[0]), usb.s.ep[0], setup)
      ensures Reprimed(old(usb.s.ep[0]), usb.s.ep[0], primed, MaxLen(usb.c, 0))
      ensures Ops(usb.run) == Ops(old(usb.run)) + SetupOps(usb.c, rounds, primed)
    {
      ghost var c, s0 := usb.c, usb.s;
      var ep := eps[0];
      setup, rounds := ep.ReadSetup();
      ghost var s1 := usb.s;
      assert AtRest(s0.ep[0]);
      CalmKept(c, {0}, s0, s1);
      primed := PrimeForData(s0);
      LatestThen(s0.ep[0], s1.ep[0], usb.s.ep[0], setup);
      SetupInOrder(c, rounds, primed, Ops(old(usb.run)));
    }

    /** A setup packet has been read: its data stage is scheduled, unless the controller has
      * the endpoint. */
    method PrimeForData(ghost start: St) returns (ghost primed: bool)
      requires Valid() && Allocated(usb.c, 0) && RelyExcept(usb.c, {0}, start, usb.s) && AtRest(start.ep[0])
      requires EpRely(start.ep[0], usb.s.ep[0].(setup := start.ep[0].setup))
      modifies usb`s, usb`run, usb`script
      ensures Valid() && RelyExcept(usb.c, {0}, start, usb.s) && SetupRely(old(usb.s.ep[0]), usb.s.ep[0])
      ensures Reprimed(start.ep[0], usb.s.ep[0], primed, MaxLen(usb.c, 0))
      ensures Ops(usb.run) == Ops(old(usb.run)) + (if primed then [Op.ClearNak(0)] + ScheduleOps(0, MaxLen(usb.c, 0)) else [])
    {
      ghost var s1 := usb.s;
      primed := Reprime(0, true);
      RelyExceptTransitive(usb.c, {0}, start, s1, usb.s);
      ReprimedFrom(start.ep[0], s1.ep[0], usb.s.ep[0], primed, MaxLen(usb.c, 0));
    }

    /** Reads a setup packet, or data, from endpoint zero. */
    method Ctrl0Read(cap: nat) returns (r: Result<Packet>, ghost way: ControlWay, ghost looks: Looks)
      requires Valid() && Allocated(usb.c, 0)
      modifies usb`s, usb`run, usb`script
      ensures Valid() && RelyExcept(usb.c, {0}, old(usb.s), usb.s)
      ensures ControlRead(usb.c, old(usb.s), usb.s, looks, way, cap, r)
      ensures Ops(usb.run) == Ops(old(usb.run)) + ControlReadOps(usb.c, way, cap, r)
    {
      ghost var c, s0 := usb.c, usb.s;
      var ep := eps[0];
      var has := ep.HasSetup();
      ghost var s1 := usb.s;
      assert SlotRely(c, 0, s0, s1);
      CalmKept(c, {}, s0, s1);
      if has && cap >= 8 {
        var packet;
        packet, way := ReadSetupNow(s0);
        r, looks := Ok(packet), Looks(s0, s1);
      } else {
        r, looks := ReadData(0, cap, s0);
        way := DataWay;
      }
    }

    method ReadSetupNow(ghost start: St) returns (packet: Packet, ghost way: ControlWay)
      requires Valid() && Allocated(usb.c, 0) && Rely(usb.c, start, usb.s) && AtRest(start.ep[0])
      requires usb.s.ep[0].setup.pending
      modifies usb`s, usb`run, usb`script
      ensures Valid() && RelyExcept(usb.c, {0}, start, usb.s)
      ensures way.SetupWay? && way.rounds > 0 && SetupTaken(start.ep[0], usb.s.ep[0], 8, Ok(packet))
      ensures Reprimed(start.ep[0], usb.s.ep[0], way.primed, MaxLen(usb.c, 0))
      ensures Ops(usb.run) == Ops(old(usb.run)) + SetupOps(usb.c, way.rounds, way.primed)
    {
      ghost var s1 := usb.s;
      assert SlotRely(usb.c, 0, start, s1) && Holds(usb.c, 0, s1);
      ghost var rounds, primed;
      packet, rounds, primed := ReadSetupPacket();
      way := SetupWay(rounds, primed);
      LatestSince(start.ep[0], s1.ep[0], usb.s.ep[0], packet);
      ReprimedFrom(start.ep[0], s1.ep[0], usb.s.ep[0], primed, MaxLen(usb.c, 0));
      RelyExceptTransitive(usb.c, {0}, start, s1, usb.s);
    }

    /** The part that the data branch of a control read shares with `EpRead`. */
    method ReadData(slot: nat, cap: nat, ghost start: St) returns (r: Result<Packet>, ghost looks: Looks)
      requires Valid() && slot < MAX_ENDPOINTS && IsOut(slot) && Allocated(usb.c, slot) && Rely(usb.c, start, usb.s)
      modifies usb`s, usb`run, usb`script
      ensures Valid() && RelyExcept(usb.c, {slot}, start, usb.s)
      ensures DataRead(usb.c, slot, true, start, usb.s, looks, cap, r)
      ensures Ops(usb.run) == Ops(old(usb.run)) + DataReadOps(usb.c, slot, cap, r)
    {
      ghost var c, s1 := usb.c, usb.s;
      var refusal;
      refusal, looks := Gate(slot);
      LooksFromEarlier(c, slot, start, s1, looks);
      assert SlotRely(c, slot, start, s1);
      if refusal.Some? {
        ReadRefused(c, slot, true, start, usb.s, looks, cap, refusal.value);
        RelyIsExcept(c, {slot}, start, usb.s);
        return Err(refusal.value), looks;
      }
      var data := TakePassed(slot, cap, start, looks);
      ReadAccepted(c, slot, start, usb.s, looks, cap, data);
      r := Ok(data);
    }

    /** Accepts a packet on endpoint zero, and schedules an empty OUT transfer for the status
      * stage if the driver has that direction. */
    method Ctrl0Write(buffer: Packet) returns (r: Result<nat>, ghost status: bool, ghost looks: Looks)
      requires Valid() && Allocated(usb.c, 0) && Allocated(usb.c, 1)
      modifies usb`s, usb`run, usb`script
      ensures Valid() && RelyExcept(usb.c, {0, 1}, old(usb.s), usb.s)
      ensures ControlWritten(usb.c, old(usb.s), usb.s, looks, status, buffer, r)
      ensures Ops(usb.run) == Ops(old(usb.run)) + ControlWriteOps(status, buffer, r)
    {
      ghost var c, s0 := usb.c, usb.s;
      r, looks := EpWrite(buffer, Address(0, In));
      status := false;
      if r.Ok? {
        status := StatusAfterWrite(buffer, r.value, s0, looks);
      } else {
        RelyWiden(c, {1}, {0, 1}, s0, usb.s);
      }
      ControlWriteInOrder(status, buffer, r, Ops(old(usb.run)));
    }

    method StatusAfterWrite(buffer: Packet, written: nat, ghost start: St, ghost looks: Looks) returns (ghost done: bool)
      requires Valid() && Allocated(usb.c, 0) && Allocated(usb.c, 1) && RelyExcept(usb.c, {1}, start, usb.s) && Calm(start)
      requires DataWritten(usb.c, 1, start, usb.s, looks, buffer, Ok(written))
      modifies usb`s, usb`run, usb`script
      ensures Valid() && RelyExcept(usb.c, {0, 1}, start, usb.s)
      ensures ControlWritten(usb.c, start, usb.s, looks, done, buffer, Ok(written))
      ensures Ops(usb.run) == Ops(old(usb.run)) + (if done then StatusOps() else [])
    {
      ghost var s1 := usb.s;
      done := StatusStage();
      WriteThenStatus(usb.c, start, s1, usb.s, looks, buffer, written, done);
    }

    method StatusStage() returns (ghost done: bool)
      requires Valid() && Allocated(usb.c, 0)
      modifies usb`s, usb`run, usb`script
      ensures Valid() && RelyExcept(usb.c, {0}, old(usb.s), usb.s) && Reprimed(old(usb.s.ep[0]), usb.s.ep[0], done, 0)
      ensures Ops(usb.run) == Ops(old(usb.run)) + (if done then StatusOps() else [])
    {
      ghost var c, s0 := usb.c, usb.s;
      assert AtRest(s0.ep[0]);
      var primed := TestPrimed(0, false);
      ghost var s1 := usb.s;
      done := !primed;
      assert SlotRely(c, 0, s0, s1);
      if !primed {
        assert AtRest(s1.ep[0]);
        ScheduleStatus();
        RelyExceptTransitive(c, {0}, s0, s1, usb.s);
        ReprimedFrom(s0.ep[0], s1.ep[0], usb.s.ep[0], true, 0);
      }
    }

    method ScheduleStatus()
      requires Valid() && Allocated(usb.c, 0) && usb.s.ep[0].Quiet() && AtRest(usb.s.ep[0])
      modifies usb`s, usb`run, usb`script
      ensures Valid() && RelyExcept(usb.c, {0}, old(usb.s), usb.s) && Reprimed(old(usb.s.ep[0]), usb.s.ep[0], true, 0)
      ensures Ops(usb.run) == Ops(old(usb.run)) + StatusOps()
    {
      ghost var c, s0 := usb.c, usb.s;
      var ep := eps[0];
      assert Holds(c, 0, s0);
      ep.Acknowledge();
      ghost var s1 := usb.s;
      ep.ScheduleTransfer(0);
      SettledUnread(c, 0, s1.ep[0], s1.mem, usb.s.ep[0], 0);
      RelyExceptTransitive(c, {0}, s0, s1, usb.s);
      CalmKept(c, {0}, s0, usb.s);
    }

    // ------------------------------------------------------------ reset and configuration

    /** One write of a reset that touches every endpoint. */
    method ResetAll(op: Op, ghost start: St)
      requires Valid() && AllSteady(start, usb.s) && (op.ResetComplete? || op.ResetNak?)
      modifies usb`s, usb`run, usb`script
      ensures Valid() && AllSteady(start, usb.s) && Ops(usb.run) == Ops(old(usb.run)) + [op]
    {
      ghost var s0 := usb.s;
      ghost var mid := usb.Do(op);
      RelyIsSteady(usb.c, s0, mid);
      ResetIsSteady(usb.c, mid, op);
      AllSteadyTransitive(s0, mid, usb.s);
      AllSteadyTransitive(start, s0, usb.s);
      SteadyIsCalm(s0, usb.s);
    }

    /** ENDPTPRIME runs dry, everything is flushed, and the flush is waited for. */
    method FlushEverything(ghost start: St)
      requires Valid() && AllSteady(start, usb.s)
      modifies usb`s, usb`run, usb`script
      ensures Valid() && AllSteady(start, usb.s) && AllQuiet(usb.s) && NoneFlushing(usb.s) && Ops(usb.run) == Ops(old(usb.run)) + [FlushAll]
    {
      ghost var s0 := usb.s;
      usb.AwaitPrimed();
      ghost var s1 := usb.s;
      ghost var mid := usb.Do(FlushAll);
      RelyTransitive(usb.c, s0, s1, mid);
      RelyIsSteady(usb.c, s0, mid);
      PrimedStays(usb.c, s1, mid);
      ResetIsSteady(usb.c, mid, FlushAll);
      ghost var flushed := usb.s;
      usb.AwaitFlushed();
      RelyIsSteady(usb.c, flushed, usb.s);
      FlushedIsQuiet(usb.c, mid, flushed, usb.s);
      AllSteadyTransitive(s0, mid, flushed);
      AllSteadyTransitive(s0, flushed, usb.s);
      AllSteadyTransitive(start, s0, usb.s);
      SteadyIsCalm(s0, usb.s);
    }

    /** Completions and NAKs are read and written back; then everything is flushed. */
    method Quiesce() returns (ghost first: St, ghost second: St)
      requires Valid()
      modifies usb`s, usb`run, usb`script
      ensures Valid() && AllSteady(old(usb.s), usb.s) && AllQuiet(usb.s) && NoneFlushing(usb.s)
      ensures AllSteady(old(usb.s), first) && CompleteSlots(old(usb.s)) <= CompleteSlots(first) && AllSteady(old(usb.s), second)
      ensures Ops(usb.run) == Ops(old(usb.run)) + [ResetComplete(CompleteSlots(first)), ResetNak(NakSlots(second)), FlushAll]
    {
      ghost var start := usb.s;
      var now := SampleCalmly(EndptComplete, start);
      first := usb.s;
      ResetAll(ResetComplete(CompleteSlots(now)), start);
      now := SampleCalmly(EndptNak, start);
      second := usb.s;
      ResetAll(ResetNak(NakSlots(now)), start);
      FlushEverything(start);
    }

    method SampleCalmly(at: Register, ghost start: St) returns (now: St)
      requires Valid() && AllSteady(start, usb.s)
      modifies usb`s, usb`run, usb`script
      ensures Valid() && AllSteady(start, usb.s) && Ops(usb.run) == Ops(old(usb.run)) && now == usb.s
      ensures CompleteSlots(old(usb.s)) <= CompleteSlots(usb.s)
    {
      ghost var s0 := usb.s;
      now := usb.Sample(at);
      RelyIsSteady(usb.c, s0, usb.s);
      CompletionsStay(usb.c, s0, usb.s);
      AllSteadyTransitive(start, s0, usb.s);
      SteadyIsCalm(s0, usb.s);
    }

    /** One endpoint's turn in a pass over ENDPTCTRL. */
    method ControlSlot(k: nat, enable: bool, ghost start: St)
      requires Valid() && Calm(start) && 2 <= k < MAX_ENDPOINTS && Allocated(usb.c, k)
      requires AllControlled(usb.c, start, usb.s) && ConfiguredBelow(usb.c, k, usb.s, enable)
      modifies usb`s, usb`run, usb`script
      ensures Valid() && AllControlled(usb.c, start, usb.s) && ConfiguredBelow(usb.c, k + 1, usb.s, enable)
      ensures Ops(usb.run) == Ops(old(usb.run)) + [if enable then EnableEp(k) else DisableEp(k)]
    {
      ghost var s1 := usb.s;
      var ep := eps[k];
      ep.Control(if enable then EnableEp(k) else DisableEp(k));
      ControlledStep(usb.c, start, s1, usb.s, k);
      ControlledIsCalm(usb.c, start, usb.s);
      ConfiguredStays(usb.c, k, s1, usb.s, enable);
    }

    method ControlTurn(k: nat, enable: bool, ghost start: St)
      requires Valid() && Calm(start) && 2 <= k < MAX_ENDPOINTS
      requires AllControlled(usb.c, start, usb.s) && ConfiguredBelow(usb.c, k, usb.s, enable)
      modifies usb`s, usb`run, usb`script
      ensures Valid() && AllControlled(usb.c, start, usb.s) && ConfiguredBelow(usb.c, k + 1, usb.s, enable)
      ensures Ops(usb.run) == Ops(old(usb.run)) + ControlOp(usb.c, k, enable)
    {
      if eps[k] != null {
        ControlSlot(k, enable, start);
      }
    }

    /** The pass of `enable_endpoints` and of `initialize_endpoints`. */
    method ControlNonzero(enable: bool)
      requires Valid()
      modifies usb`s, usb`run, usb`script
      ensures Valid() && AllControlled(usb.c, old(usb.s), usb.s) && ConfiguredBelow(usb.c, MAX_ENDPOINTS, usb.s, enable)
      ensures Ops(usb.run) == Ops(old(usb.run)) + ControlOps(usb.c, MAX_ENDPOINTS, enable)
    {
      ghost var s0 := usb.s;
      ControlledReflexive(usb.c, s0);
      for k := 2 to MAX_ENDPOINTS
        invariant Valid() && AllControlled(usb.c, s0, usb.s) && ConfiguredBelow(usb.c, k, usb.s, enable)
        invariant Ops(usb.run) == Ops(old(usb.run)) + ControlOps(usb.c, k, enable)
      {
        ControlTurn(k, enable, s0);
        OneMoreControl(usb.c, k, enable, Ops(old(usb.run)));
      }
    }

    /** Answers a bus reset. From whatever state, every endpoint is the driver's afterwards,
      * and every allocated non-zero endpoint is disabled. No packet is handed out, accepted or
      * overwritten. `first` and `second` are the states in which completions and NAKs are
      * read. */
    method BusReset() returns (ghost first: St, ghost second: St)
      requires Valid()
      modifies usb`s, usb`run, usb`script
      ensures Valid() && AllQuiet(usb.s) && NoneFlushing(usb.s) && AllReset(old(usb.s), usb.s)
      ensures ConfiguredBelow(usb.c, MAX_ENDPOINTS, usb.s, false)
      ensures AllSteady(old(usb.s), first) && CompleteSlots(old(usb.s)) <= CompleteSlots(first) && AllSteady(old(usb.s), second)
      ensures Ops(usb.run) == Ops(old(usb.run)) + [ResetComplete(CompleteSlots(first)), ResetNak(NakSlots(second)), FlushAll]
                              + ControlOps(usb.c, MAX_ENDPOINTS, false)
    {
      ghost var s0 := usb.s;
      first, second := Quiesce();
      ghost var s1 := usb.s;
      ControlNonzero(false);
      ControlledIsCalm(usb.c, s1, usb.s);
      SteadyThenControlled(usb.c, s0, s1, usb.s);
    }

    /** One endpoint's turn in `prime_endpoints`. */
    method PrimeSlot(k: nat, ghost start: St)
      requires Valid() && 2 <= k < MAX_ENDPOINTS && Allocated(usb.c, k) && usb.s.ep[k].reg.enabled
      requires PrimedBelow(usb.c, k, start, usb.s) && Calm(start) && DataOutQuiet(usb.c, start)
      modifies usb`s, usb`run, usb`script
      ensures Valid() && PrimedBelow(usb.c, k + 1, start, usb.s)
      ensures Ops(usb.run) == Ops(old(usb.run)) + (if IsOut(k) then ScheduleOps(k, MaxLen(usb.c, k)) else [])
    {
      ghost var c, m := usb.c, usb.s;
      var ep := eps[k];
      var enabled := ep.IsEnabled();
      ghost var found := usb.s;
      CalmKept(c, {}, m, found);
      assert PrimedSlot(c, k, k, start, m) && SlotRely(c, k, m, found);
      if enabled && IsOut(k) {
        ScheduleLargest(k);
        RelyExceptTransitive(c, {k}, m, found, usb.s);
        assert AtRest(start.ep[k]);
        ArmedBySchedule(c, k, start, m, found, usb.s);
      } else {
        EpRelyTransitive(start.ep[k], m.ep[k], found.ep[k]);
      }
      PrimedStep(c, k, start, m, usb.s);
    }

    method PrimeTurn(k: nat, ghost start: St)
      requires Valid() && 2 <= k < MAX_ENDPOINTS && ConfiguredBelow(usb.c, MAX_ENDPOINTS, start, true)
      requires PrimedBelow(usb.c, k, start, usb.s) && Calm(start) && DataOutQuiet(usb.c, start)
      modifies usb`s, usb`run, usb`script
      ensures Valid() && PrimedBelow(usb.c, k + 1, start, usb.s)
      ensures Ops(usb.run) == Ops(old(usb.run)) + TurnOps(usb.c, k)
    {
      if eps[k] != null {
        assert PrimedSlot(usb.c, k, k, start, usb.s) && Configured(usb.c, k, start.ep[k], true);
        PrimeSlot(k, start);
      } else {
        PrimedStepOver(usb.c, k, start, usb.s);
      }
    }

    method PrimeEndpoints()
      requires Valid() && DataOutQuiet(usb.c, usb.s) && ConfiguredBelow(usb.c, MAX_ENDPOINTS, usb.s, true)
      modifies usb`s, usb`run, usb`script
      ensures Valid() && PrimedBelow(usb.c, MAX_ENDPOINTS, old(usb.s), usb.s)
      ensures Ops(usb.run) == Ops(old(usb.run)) + PrimeOps(usb.c, MAX_ENDPOINTS)
    {
      ghost var start, before := usb.s, Ops(usb.run);
      PrimedReflexive(usb.c, start);
      NoTurn(usb.c, before);
      for k := 2 to MAX_ENDPOINTS
        invariant PrimedSoFar(k, start, before)
      {
        PrimeNext(k, start, before);
      }
    }

    /** The pass has reached slot `k`. */
    ghost predicate PrimedSoFar(k: nat, start: St, before: seq<Op>)
      reads this, usb
    {
      Valid() && PrimedBelow(usb.c, k, start, usb.s) && Ops(usb.run) == before + PrimeOps(usb.c, k)
    }

    method PrimeNext(k: nat, ghost start: St, ghost before: seq<Op>)
      requires PrimedSoFar(k, start, before) && 2 <= k < MAX_ENDPOINTS
      requires ConfiguredBelow(usb.c, MAX_ENDPOINTS, start, true) && Calm(start) && DataOutQuiet(usb.c, start)
      modifies usb`s, usb`run, usb`script
      ensures PrimedSoFar(k + 1, start, before)
    {
      PrimeTurn(k, start);
      OneMoreTurn(usb.c, k, before);
    }

    /** The device is configured: every allocated non-zero endpoint is enabled with its type,
      * and exactly the OUT ones are primed, once each, for their largest packet. No other
      * endpoint is touched. The call relies on finding no non-zero OUT endpoint primed. */
    method OnConfigured()
      requires Valid() && DataOutQuiet(usb.c, usb.s)
      modifies usb`s, usb`run, usb`script
      ensures Valid() && ConfiguredAll(usb.c, old(usb.s), usb.s)
      ensures Ops(usb.run) == Ops(old(usb.run)) + ControlOps(usb.c, MAX_ENDPOINTS, true) + PrimeOps(usb.c, MAX_ENDPOINTS)
    {
      ghost var s0 := usb.s;
      ControlNonzero(true);
      ghost var s1 := usb.s;
      DataOutStaysQuiet(usb.c, s0, s1);
      PrimeEndpoints();
      EnabledThenPrimed(usb.c, s0, s1, usb.s);
    }

    predicate IsAllocated(addr: Address)
    {
      Index(addr) < |eps| && eps[Index(addr)] != null
    }

    /** The controller adds zero-length packets to this endpoint's transfers from now on. The
      * write may come at any time, also while the endpoint is primed; it changes one bit of
      * one queue head, and nothing at all if the endpoint is not allocated. */
    method EnableZlt(addr: Address)
      requires Valid()
      modifies usb`s, usb`run, usb`script
      ensures Valid()
      ensures !IsAllocated(addr) ==> usb.s == old(usb.s) && usb.run == old(usb.run)
      ensures IsAllocated(addr) ==>
                && Index(addr) < MAX_ENDPOINTS && Ops(usb.run) == Ops(old(usb.run)) + [Op.EnableZlt(Index(addr))]
                && RelyExcept(usb.c, {Index(addr)}, old(usb.s), usb.s)
                && !usb.s.ep[Index(addr)].qh.zltDisabled
                && EpRely(old(usb.s.ep[Index(addr)]), WithZltOf(usb.s.ep[Index(addr)], old(usb.s.ep[Index(addr)])))
    {
      if Index(addr) < |eps| {
        var ep := eps[Index(addr)];
        if ep != null {
          ghost var s0 := usb.s;
          ep.EnableZlt();
          assert AtRest(s0.ep[Index(addr)]);
          CalmKept(usb.c, {Index(addr)}, s0, usb.s);
        }
      }
    }
  }
}
