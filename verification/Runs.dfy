/** Runs: interleavings of controller steps and driver accesses, of any length. */
module Runs {
  import opened Types
  import opened TransferDescriptor
  import opened QueueHead
  import opened Memory
  import opened Device
  import opened Invariant
  import opened ControllerSteps
  import opened DriverSteps

  /** What the driver looks at: STATUS of a descriptor, a slot's bit of ENDPTSTAT, of
    * ENDPTSETUPSTAT and of ENDPTCTRL, one of the two setup words, SUTW, USBSTS, and whole words
    * of ENDPTCOMPLETE, ENDPTNAK, ENDPTPRIME and ENDPTFLUSH. */
  datatype Register =
    | TdStatus(slot: nat)
    | EndptStat(slot: nat)
    | SetupStatus(slot: nat)
    | EndptCtrl(slot: nat)
    | SetupLow(slot: nat)
    | SetupHigh(slot: nat)
    | Sutw
    | Usbsts
    | EndptComplete
    | EndptNak
    | EndptPrime
    | EndptFlush

  datatype Event = Ctl(act: Act) | Drv(op: Op) | Look(at: Register)

  /** One event; the driver keeps to the agreement. */
  ghost predicate Follows(c: Config, s: St, e: Event, s': St)
    requires GoodConfig(c)
  {
    && |s.ep| == |s'.ep| == MAX_ENDPOINTS
    && match e
       case Ctl(a) => s' == DoAct(c, s, a)
       case Drv(op) => Legal(c, s, op) && s' == DoOp(c, s, op)
       case Look(_) => s' == s
  }

  /** The states before, between and after the events of a run from power-up, with every
    * allocated endpoint constructed. */
  ghost predicate IsTrail(c: Config, mem: Mem, run: seq<Event>, trail: seq<St>)
    requires GoodConfig(c)
  {
    && |trail| == |run| + 1 && trail[0] == Initial(c, mem)
    && forall k :: 0 <= k < |run| ==> FollowsAt(c, run, trail, k)
  }

  ghost predicate FollowsAt(c: Config, run: seq<Event>, trail: seq<St>, k: nat)
    requires GoodConfig(c) && k < |run| && |trail| == |run| + 1
  {
    Follows(c, trail[k], run[k], trail[k + 1])
  }

  /** The run leads from power-up to `s`, and the driver has kept the agreement all along. */
  ghost predicate Reached(c: Config, mem: Mem, run: seq<Event>, s: St)
    requires GoodConfig(c)
  {
    |s.ep| == MAX_ENDPOINTS && exists trail :: IsTrail(c, mem, run, trail) && trail[|run|] == s
  }

  /** The driver's part of a run: its writes, and its looks. */
  function Ops(run: seq<Event>): seq<Op> {
    if run == [] then []
    else Ops(run[..|run| - 1]) + (match Last(run) case Drv(op) => [op] case _ => [])
  }

  function Looked(run: seq<Event>): seq<Register> {
    if run == [] then []
    else Looked(run[..|run| - 1]) + (match Last(run) case Look(at) => [at] case _ => [])
  }

  lemma ReachedInitially(c: Config, mem: Mem)
    requires GoodConfig(c)
    ensures Reached(c, mem, [], Initial(c, mem))
  {
    assert IsTrail(c, mem, [], [Initial(c, mem)]);
  }

  lemma ReachedNext(c: Config, mem: Mem, run: seq<Event>, s: St, e: Event)
    requires GoodConfig(c) && |s.ep| == MAX_ENDPOINTS && Reached(c, mem, run, s)
    ensures e.Ctl? ==> Reached(c, mem, run + [e], DoAct(c, s, e.act)) && Ops(run + [e]) == Ops(run)
    ensures e.Drv? && Legal(c, s, e.op) ==>
              Reached(c, mem, run + [e], DoOp(c, s, e.op)) && Ops(run + [e]) == Ops(run) + [e.op]
    ensures e.Look? ==> Reached(c, mem, run + [e], s) && Ops(run + [e]) == Ops(run)
    ensures Looked(run + [e]) == Looked(run) + (if e.Look? then [e.at] else [])
  {
    if e.Ctl? {
      ReachedBy(c, mem, run, s, e, DoAct(c, s, e.act));
    } else if e.Look? {
      ReachedBy(c, mem, run, s, e, s);
    } else if Legal(c, s, e.op) {
      ReachedBy(c, mem, run, s, e, DoOp(c, s, e.op));
    }
    assert (run + [e])[..|run|] == run;
  }

  lemma ReachedBy(c: Config, mem: Mem, run: seq<Event>, s: St, e: Event, s': St)
    requires GoodConfig(c) && Reached(c, mem, run, s) && Follows(c, s, e, s')
    ensures Reached(c, mem, run + [e], s')
  {
    var trail :| IsTrail(c, mem, run, trail) && trail[|run|] == s;
    TrailGrows(c, mem, run, trail, e, s');
  }

  lemma TrailGrows(c: Config, mem: Mem, run: seq<Event>, trail: seq<St>, e: Event, s': St)
    requires GoodConfig(c) && IsTrail(c, mem, run, trail) && Follows(c, trail[|run|], e, s')
    ensures IsTrail(c, mem, run + [e], trail + [s'])
  {
    forall k | 0 <= k < |run + [e]| ensures FollowsAt(c, run + [e], trail + [s'], k) {
      if k < |run| {
        assert FollowsAt(c, run, trail, k);
      }
    }
  }

  /** The invariant holds in every state of every run from power-up. */
  lemma ReachableInv(c: Config, mem: Mem, run: seq<Event>, s: St)
    requires GoodConfig(c) && Reached(c, mem, run, s)
    ensures Inv(c, s)
  {
    var trail :| IsTrail(c, mem, run, trail) && trail[|run|] == s;
    TrailKeepsInv(c, mem, run, trail, |run|);
  }

  lemma {:induction false} TrailKeepsInv(c: Config, mem: Mem, run: seq<Event>, trail: seq<St>, k: nat)
    requires GoodConfig(c) && IsTrail(c, mem, run, trail) && k <= |run|
    ensures Inv(c, trail[k])
  {
    if k == 0 {
      InitialInv(c, mem);
    } else {
      TrailKeepsInv(c, mem, run, trail, k - 1);
      assert FollowsAt(c, run, trail, k - 1);
      EventKeeps(c, trail[k - 1], run[k - 1], trail[k]);
    }
  }

  lemma EventKeeps(c: Config, s: St, e: Event, s': St)
    requires GoodConfig(c) && Inv(c, s) && Follows(c, s, e, s')
    ensures Inv(c, s')
  {
    match e
    case Ctl(a) => ActKeeps(c, s, a);
    case Drv(op) => OpKeeps(c, s, op);
    case Look(_) =>
  }

  /** An access that writes, or reads, what the controller works on while it has the slot. */
  predicate Handles(op: Op, i: nat) {
    && IsSlotOp(op) && op.slot == i
    && (IsEditOp(op) || op.WritePrime? || op.LoadBuffer? || op.StoreBuffer?)
  }

  /** At step `k` of the run the driver had every endpoint that it handled. */
  ghost predicate HandledQuiet(c: Config, mem: Mem, run: seq<Event>, k: nat)
    requires GoodConfig(c) && k < |run|
  {
    run[k].Drv? ==>
      exists s :: Reached(c, mem, run[..k], s) && Legal(c, s, run[k].op)
                  && forall i :: 0 <= i < MAX_ENDPOINTS ==> Spared(c, s, run[k].op, i)
  }

  /** The access leaves alone what the controller works on. */
  ghost predicate Spared(c: Config, s: St, op: Op, i: nat)
    requires GoodConfig(c) && |s.ep| == MAX_ENDPOINTS && Legal(c, s, op) && i < MAX_ENDPOINTS
  {
    var s' := DoOp(c, s, op);
    && (Handles(op, i) ==> s.ep[i].Quiet())
    && (!s.ep[i].Quiet() ==> SameWords(s.ep[i], s'.ep[i]))
    && (!s.ep[i].Quiet() && Allocated(c, i) ==> SameBytes(s.mem, s'.mem, BufferOf(c, i).ptr, BufferOf(c, i).len))
  }

  ghost predicate SameWords(e: Ep, e': Ep) {
    e'.td == e.td && e'.qh.overlay == e.qh.overlay && e'.qh.current == e.qh.current
  }

  lemma SlotOpSparesWords(c: Config, s: St, op: Op, i: nat)
    requires GoodConfig(c) && |s.ep| == MAX_ENDPOINTS && Legal(c, s, op) && i < MAX_ENDPOINTS && IsSlotOp(op)
    ensures !s.ep[i].Quiet() ==> SameWords(s.ep[i], DoOp(c, s, op).ep[i]) && (op.slot == i ==> !op.StoreBuffer?)
    ensures Handles(op, i) ==> s.ep[i].Quiet()
  {
  }

  lemma LegalSpares(c: Config, s: St, op: Op, i: nat)
    requires GoodConfig(c) && |s.ep| == MAX_ENDPOINTS && Legal(c, s, op) && i < MAX_ENDPOINTS
    ensures Spared(c, s, op, i)
  {
    if IsSlotOp(op) {
      SlotOpSparesWords(c, s, op, i);
      if op.StoreBuffer? && op.slot != i && Allocated(c, i) {
        StoreOnlyIn(c, op.slot, s.mem, op.data);
        OthersUndisturbed(c, op.slot, i, s.mem, DoOp(c, s, op).mem);
      }
    } else {
      GlobalOpsSpare(c, s, op, i);
    }
  }

  /** In a run that the driver has kept to the agreement, every access of the driver, in the
    * state in which it took place, handled only endpoints that were neither primed nor
    * priming, and left descriptor, overlay and buffer of all others alone. */
  lemma OwnershipSafety(c: Config, mem: Mem, run: seq<Event>, s: St, k: nat)
    requires GoodConfig(c) && Reached(c, mem, run, s) && k < |run|
    ensures HandledQuiet(c, mem, run, k)
  {
    var trail :| IsTrail(c, mem, run, trail) && trail[|run|] == s;
    TrailPrefix(c, mem, run, trail, k);
    assert FollowsAt(c, run, trail, k);
    if run[k].Drv? {
      forall i | 0 <= i < MAX_ENDPOINTS ensures Spared(c, trail[k], run[k].op, i) {
        LegalSpares(c, trail[k], run[k].op, i);
      }
    }
  }

  lemma TrailPrefix(c: Config, mem: Mem, run: seq<Event>, trail: seq<St>, k: nat)
    requires GoodConfig(c) && IsTrail(c, mem, run, trail) && k < |run|
    ensures Reached(c, mem, run[..k], trail[k])
  {
    var before, states := run[..k], trail[..k + 1];
    forall n | 0 <= n < k ensures FollowsAt(c, before, states, n) {
      assert FollowsAt(c, run, trail, n);
    }
    assert IsTrail(c, mem, before, states) && states[k] == trail[k];
    assert FollowsAt(c, run, trail, k);
  }

  lemma GlobalOpsSpare(c: Config, s: St, op: Op, i: nat)
    requires GoodConfig(c) && |s.ep| == MAX_ENDPOINTS && i < MAX_ENDPOINTS && !IsSlotOp(op)
    ensures DoOp(c, s, op).ep[i].td == s.ep[i].td && DoOp(c, s, op).ep[i].qh == s.ep[i].qh
    ensures DoOp(c, s, op).mem == s.mem
  {
    var s' := DoOp(c, s, op);
    match op
    case AckIn => assert s'.ep[i] == AckInEp(i, s.ep[i], if s.poll.InRead? then s.poll.mask else {});
    case ResetComplete(slots) => assert s'.ep[i] == ResetEp(i, s.ep[i], slots);
    case ResetNak(slots) => assert s'.ep[i] == NakEp(i, s.ep[i], slots);
    case FlushAll => assert s'.ep[i] == FlushEp(s.ep[i]);
    case _ =>
  }

  /** The buffer of slot `i` and its descriptor hold the packet `p`. */
  ghost predicate Waits(c: Config, s: St, i: nat, p: Packet)
    requires GoodConfig(c) && |s.ep| == MAX_ENDPOINTS && i < MAX_ENDPOINTS && Allocated(c, i)
  {
    Load(s.mem, BufferOf(c, i).ptr, |p|) == p && s.ep[i].td.BytesTransferred() == |p|
  }

  /** An OUT endpoint is a mailbox with one place. In every run the packets received so far
    * are, in order, those whose outcome is settled and at most one that waits. A settled
    * packet was handed to a caller, as long a prefix as the caller asked for, or it was
    * overwritten unread. The waiting packet lies whole in the buffer. */
  lemma OutMailbox(c: Config, mem: Mem, run: seq<Event>, s: St, i: nat)
    requires GoodConfig(c) && Reached(c, mem, run, s)
    requires i < MAX_ENDPOINTS && IsOut(i) && Allocated(c, i)
    ensures var h := s.ep[i].h;
            && |h.rx| == |h.done| + (if h.Pending() then 1 else 0)
            && (forall k :: 0 <= k < |h.done| && h.done[k].Delivered? ==>
                  h.done[k].data == h.rx[k][..Min(h.done[k].cap, |h.rx[k]|)])
            && (h.Pending() ==> s.ep[i].Quiet() && Waits(c, s, i, Last(h.rx)))
            && (h.armed ==> !s.ep[i].Quiet() || h.Pending())
  {
    ReachableInv(c, mem, run, s);
    assert Holds(c, i, s);
  }

  /** An IN endpoint is a queue with one place: every packet on the wire is, byte for byte,
    * the packet accepted in its place, and at most the last accepted packet is still to be
    * sent; it lies whole in the buffer while the controller has the slot. */
  lemma InQueue(c: Config, mem: Mem, run: seq<Event>, s: St, i: nat)
    requires GoodConfig(c) && Reached(c, mem, run, s)
    requires i < MAX_ENDPOINTS && !IsOut(i) && Allocated(c, i)
    ensures var h := s.ep[i].h;
            && |h.queued| == |h.fates| + (if s.ep[i].Quiet() then 0 else 1)
            && (forall k :: 0 <= k < |h.fates| && h.fates[k].Sent? ==> h.fates[k].data == h.queued[k])
            && (!s.ep[i].Quiet() ==> Load(s.mem, BufferOf(c, i).ptr, s.ep[i].td.last) == Last(h.queued))
  {
    ReachableInv(c, mem, run, s);
    assert Holds(c, i, s);
  }

  /** No wake-up is lost: outside a poll, a completion or setup bit that is set is announced
    * by UI, or the driver already knows of it. */
  lemma NoLostWakeUp(c: Config, mem: Mem, run: seq<Event>, s: St, k: nat)
    requires GoodConfig(c) && Reached(c, mem, run, s)
    requires s.poll.Idle? && k < 8
    ensures s.ep[2 * k + 1].reg.complete ==> s.ui
    ensures s.ep[2 * k].reg.complete ==> s.ui || k in s.epOut
    ensures s.ep[2 * k].setup.pending ==> s.ui || k in s.epSetup
  {
    ReachableInv(c, mem, run, s);
    assert Holds(c, 2 * k, s) && Holds(c, 2 * k + 1, s);
  }

  /** Every IN completion is accounted for once: the completions are exactly those reported,
    * those taken down without a report, those that landed while another one was still up,
    * and the one that the next poll will report. */
  lemma CompletionsReportedOnce(c: Config, mem: Mem, run: seq<Event>, s: St, i: nat)
    requires GoodConfig(c) && Reached(c, mem, run, s)
    requires i < MAX_ENDPOINTS && !IsOut(i) && Allocated(c, i)
    ensures var e := s.ep[i];
            e.h.completions == e.h.reported + e.h.dropped + e.h.merged + (if e.reg.complete then 1 else 0)
  {
    ReachableInv(c, mem, run, s);
    assert Holds(c, i, s);
  }

  /** The byte addresses that a transfer on slot `i` may touch. */
  ghost predicate Touches(s: St, i: nat, a: int)
    requires |s.ep| == MAX_ENDPOINTS && i < MAX_ENDPOINTS
  {
    s.ep[i].reg.stat && |s.ep[i].td.pages| == PAGES
    && exists k :: 0 <= k < s.ep[i].td.total && PageByte(s.ep[i].td.pages, k) == a
  }

  /** In every run, whatever the controller does next, it touches bytes of the primed
    * endpoint's own buffer only, and leaves the bytes of every other buffer alone. */
  lemma DmaContainment(c: Config, mem: Mem, run: seq<Event>, s: St, i: nat, a: Act)
    requires GoodConfig(c) && Reached(c, mem, run, s) && i < MAX_ENDPOINTS
    ensures forall x :: Touches(s, i, x) ==> Allocated(c, i) && BufferOf(c, i).ptr <= x < BufferOf(c, i).End()
    ensures Allocated(c, i) && !((a.Receive? || a.Fail?) && a.slot == i) ==>
              SameBytes(s.mem, DoAct(c, s, a).mem, BufferOf(c, i).ptr, BufferOf(c, i).len)
  {
    ReachableInv(c, mem, run, s);
    assert Holds(c, i, s);
    var e := s.ep[i];
    forall x | Touches(s, i, x)
      ensures Allocated(c, i) && BufferOf(c, i).ptr <= x < BufferOf(c, i).End()
    {
      var k :| 0 <= k < e.td.total && PageByte(e.td.pages, k) == x;
      PageWalkIsIdentity(BufferOf(c, i).ptr, e.td.last, k);
    }
    if (a.Receive? || a.Fail?) && a.slot < MAX_ENDPOINTS && a.slot != i && Allocated(c, i) && s.ep[a.slot].reg.stat {
      ActMemory(c, s, a);
      OthersUndisturbed(c, a.slot, i, s.mem, DoAct(c, s, a).mem);
    }
  }

  lemma ActMemory(c: Config, s: St, a: Act)
    requires GoodConfig(c) && Inv(c, s) && (a.Receive? || a.Fail?) && a.slot < MAX_ENDPOINTS && s.ep[a.slot].reg.stat
    ensures OnlyIn(c, a.slot, s.mem, DoAct(c, s, a).mem)
  {
    assert Holds(c, a.slot, s);
    var e := s.ep[a.slot];
    var data := if a.Receive? then a.data else a.partial;
    ChainIsSingleAndPrivate(c, s, a.slot);
    if |data| <= e.td.total {
      DmaInPlace(c, a.slot, e, s.mem, data);
    }
  }

  /** Distinct primed endpoints reach distinct descriptors, and each list ends there. */
  lemma DescriptorsArePrivate(c: Config, mem: Mem, run: seq<Event>, s: St, i: nat, j: nat)
    requires GoodConfig(c) && Reached(c, mem, run, s)
    requires i < MAX_ENDPOINTS && j < MAX_ENDPOINTS && s.ep[i].reg.stat && s.ep[j].reg.stat
    ensures Loaded(c, s, i) == Some(i)
    ensures Loaded(c, s, i) == Loaded(c, s, j) <==> i == j
    ensures s.ep[i].td.next % 2 == 1 && s.ep[i].qh.overlay.next % 2 == 1
  {
    ReachableInv(c, mem, run, s);
    assert Holds(c, i, s) && Holds(c, j, s);
    ChainIsSingleAndPrivate(c, s, i);
    ChainIsSingleAndPrivate(c, s, j);
  }

  /** The count of bytes transferred never underflows, whatever the controller has done, and
    * the size it starts from was never truncated. */
  lemma CountNeverUnderflows(c: Config, mem: Mem, run: seq<Event>, s: St, i: nat)
    requires GoodConfig(c) && Reached(c, mem, run, s) && i < MAX_ENDPOINTS && Allocated(c, i)
    ensures 0 <= s.ep[i].td.BytesTransferred() <= s.ep[i].td.last <= Clamp(BufferOf(c, i).len)
  {
    ReachableInv(c, mem, run, s);
    assert Holds(c, i, s);
  }
}
