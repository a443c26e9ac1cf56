/** What the driver may rely on while the controller runs. */
module Agreement {
  import opened Types
  import opened Memory
  import opened Device
  import opened Invariant

  /** The controller only appends to its own histories and never touches the driver's. */
  ghost predicate HistoryRely(h: History, h': History) {
    && h'.done == h.done && h'.phantom == h.phantom && h'.got == h.got && h'.queued == h.queued
    && h'.reported == h.reported && h'.dropped == h.dropped && h.merged <= h'.merged && h'.editing == h.editing
    && h.rx <= h'.rx && h.fates <= h'.fates
    && h.completions <= h'.completions && h.fails <= h'.fails && h.cuts <= h'.cuts
    && (h'.armed ==> h.armed)
    && (h'.fails == h.fails && h'.cuts == h.cuts ==> h'.armed == h.armed)
  }

  /** Setup packets arrive whole, each announced by its bit. */
  ghost predicate SetupRely(e: Ep, e': Ep) {
    && e.setup.log <= e'.setup.log
    && (e'.setup.log == e.setup.log ==> e'.setup == e.setup)
    && (e'.setup.log != e.setup.log ==> e'.setup.pending)
  }

  /** Prime bits are the driver's to set, completions the driver's to clear; a flush that is
    * over has left the endpoint to the driver, unless it was priming. */
  ghost predicate FlagsRely(e: Ep, e': Ep) {
    && (e'.reg.prime ==> e.reg.prime)
    && (e.reg.complete ==> e'.reg.complete)
    && (e'.reg.flush ==> e.reg.flush)
    && (e.reg.flush && !e.reg.prime && !e'.reg.flush ==> e'.Quiet())
  }

  /** A quiet endpoint is left alone; a transfer that ends leaves its traces. */
  ghost predicate TransferRely(e: Ep, e': Ep) {
    && (e.Quiet() ==> e'.Quiet() && e'.td == e.td && e'.qh == e.qh && e'.h == e.h && e'.reg.complete == e.reg.complete)
    && e'.qh.maxPacket == e.qh.maxPacket && e'.qh.zltDisabled == e.qh.zltDisabled && e'.td.last == e.td.last
    && (if e'.h.fails == e.h.fails then e'.td.status.IsError() == e.td.status.IsError()
        else e'.Quiet() && e'.td.status.IsError())
    && (e'.h.completions != e.h.completions ==>
          e'.Quiet() && e'.h.completions == e.h.completions + 1 && LastSent(e'.h))
    && (Tidy(e) ==> Tidy(e') && e'.h.merged == e.h.merged)
    && (e'.reg.complete && !e.reg.complete ==> e'.h.rx != e.h.rx || e'.h.fates != e.h.fates)
  }

  /** The endpoint's half of ENDPTCTRL is the driver's. */
  ghost predicate SameControl(e: Ep, e': Ep) {
    e'.reg.enabled == e.reg.enabled && e'.reg.stalled == e.reg.stalled && e'.reg.kind == e.reg.kind
  }

  ghost predicate EpRely(e: Ep, e': Ep) {
    FlagsRely(e, e') && TransferRely(e, e') && SameControl(e, e') && HistoryRely(e.h, e'.h) && SetupRely(e, e')
  }

  /** On an OUT slot: a transfer waits for a packet, a packet waits, or the last transfer
    * failed. Only a flush, a cancellation or power-up leaves neither. */
  ghost predicate Live(e: Ep) {
    e.h.armed || e.td.status.IsError()
  }

  /** The driver has the endpoint, and its descriptor shows an error. */
  ghost predicate Stuck(e: Ep) {
    e.Quiet() && e.td.status.IsError()
  }

  /** On an OUT slot: a completion that is up belongs to the packet that waits. */
  ghost predicate Matched(e: Ep) {
    e.reg.complete ==> e.h.Pending()
  }

  /** The controller alone takes none of that away, short of a flush or a cancellation. */
  lemma RelyKeepsOut(e: Ep, e': Ep)
    requires EpRely(e, e')
    ensures Live(e) && e'.h.cuts == e.h.cuts ==> Live(e')
    ensures Stuck(e) ==> Stuck(e')
    ensures Matched(e) && e'.h.fates == [] && |e.h.done| <= |e.h.rx| ==> Matched(e')
  {
    assert e'.h.rx[..|e'.h.rx|] == e'.h.rx;
  }

  /** The buffer of a quiet slot keeps its bytes. */
  ghost predicate QuietBuffer(c: Config, i: nat, s: St, s': St)
    requires |s.ep| == MAX_ENDPOINTS && i < MAX_ENDPOINTS
  {
    Allocated(c, i) && s.ep[i].Quiet() ==> SameBytes(s.mem, s'.mem, BufferOf(c, i).ptr, BufferOf(c, i).len)
  }

  /** A setup packet takes the tripwire down; as long as it stays up, none has arrived. */
  ghost predicate TripwireRely(s: St, s': St)
    requires |s.ep| == |s'.ep| == MAX_ENDPOINTS
  {
    s'.sutw ==> s.sutw && forall i :: 0 <= i < MAX_ENDPOINTS ==> s'.ep[i].setup.log == s.ep[i].setup.log
  }

  ghost predicate SlotRely(c: Config, i: nat, s: St, s': St)
    requires |s.ep| == |s'.ep| == MAX_ENDPOINTS && i < MAX_ENDPOINTS
  {
    EpRely(s.ep[i], s'.ep[i]) && QuietBuffer(c, i, s, s')
  }

  /** A transfer of a data endpoint is cut by a flush alone. */
  ghost predicate UncutEp(e: Ep, e': Ep) {
    !e.reg.flush ==> !e'.reg.flush && e'.h.cuts == e.h.cuts && NoneCut(e.h.fates, e'.h.fates)
  }

  ghost predicate NoneCut(fates: seq<Fate>, fates': seq<Fate>) {
    fates <= fates' && forall k :: |fates| <= k < |fates'| ==> !fates'[k].Cut?
  }

  ghost predicate UncutAt(i: nat, s: St, s': St)
    requires |s.ep| == |s'.ep| == MAX_ENDPOINTS && i < MAX_ENDPOINTS
  {
    UncutEp(s.ep[i], s'.ep[i])
  }

  ghost predicate Uncut(s: St, s': St) {
    |s.ep| == |s'.ep| == MAX_ENDPOINTS && forall i :: 2 <= i < MAX_ENDPOINTS ==> UncutAt(i, s, s')
  }

  lemma UncutReflexive(s: St)
    requires |s.ep| == MAX_ENDPOINTS
    ensures Uncut(s, s)
  {
  }

  lemma UncutTransitive(s1: St, s2: St, s3: St)
    requires Uncut(s1, s2) && Uncut(s2, s3)
    ensures Uncut(s1, s3)
  {
    forall i | 2 <= i < MAX_ENDPOINTS ensures UncutAt(i, s1, s3) {
      assert UncutAt(i, s1, s2) && UncutAt(i, s2, s3);
      UncutJoin(s1.ep[i], s2.ep[i], s3.ep[i]);
    }
  }

  lemma UncutJoin(a: Ep, b: Ep, d: Ep)
    requires UncutEp(a, b) && UncutEp(b, d)
    ensures UncutEp(a, d)
  {
  }

  /** A step on one slot. */
  lemma UncutStep(s: St, s': St, i: nat, e': Ep)
    requires |s.ep| == MAX_ENDPOINTS && i < MAX_ENDPOINTS && s'.ep == s.ep[i := e']
    requires i < 2 || UncutEp(s.ep[i], e')
    ensures Uncut(s, s')
  {
    forall j | 2 <= j < MAX_ENDPOINTS ensures UncutAt(j, s, s') {
    }
  }

  /** No access of the driver cuts a transfer, or asks for a flush, but that of a reset. */
  lemma OpIsUncut(c: Config, s: St, op: Op)
    requires GoodConfig(c) && |s.ep| == MAX_ENDPOINTS && !op.FlushAll? && (IsSlotOp(op) ==> Allocated(c, op.slot))
    ensures Uncut(s, DoOp(c, s, op))
  {
    if IsSlotOp(op) {
      SlotOpIsUncut(c, op.slot, s.ep[op.slot], s.mem, op);
      UncutStep(s, DoOp(c, s, op), op.slot, DoSlotOp(c, op.slot, s.ep[op.slot], s.mem, op));
    } else if op.AckIn? {
      AckIsUncut(c, s);
    } else if op.ResetComplete? || op.ResetNak? {
      FlagsAreUncut(c, s, op);
    } else if op.ClearSetup? && op.index < 8 {
      UncutStep(s, DoOp(c, s, op), 2 * op.index, DoOp(c, s, op).ep[2 * op.index]);
    } else {
      UncutReflexive(s);
    }
  }

  lemma SlotOpIsUncut(c: Config, i: nat, e: Ep, mem: Mem, op: Op)
    requires GoodConfig(c) && Allocated(c, i)
    ensures UncutEp(e, DoSlotOp(c, i, e, mem, op))
  {
  }

  lemma AckIsUncut(c: Config, s: St)
    requires GoodConfig(c) && |s.ep| == MAX_ENDPOINTS
    ensures Uncut(s, DoOp(c, s, AckIn))
  {
    var mask := if s.poll.InRead? then s.poll.mask else {};
    forall i | 2 <= i < MAX_ENDPOINTS ensures UncutAt(i, s, DoOp(c, s, AckIn)) {
      assert DoOp(c, s, AckIn).ep[i] == AckInEp(i, s.ep[i], mask);
    }
  }

  lemma FlagsAreUncut(c: Config, s: St, op: Op)
    requires GoodConfig(c) && |s.ep| == MAX_ENDPOINTS && (op.ResetComplete? || op.ResetNak?)
    ensures Uncut(s, DoOp(c, s, op))
  {
    forall i | 2 <= i < MAX_ENDPOINTS ensures UncutAt(i, s, DoOp(c, s, op)) {
      assert DoOp(c, s, op).ep[i]
          == if op.ResetComplete? then ResetEp(i, s.ep[i], op.slots) else NakEp(i, s.ep[i], op.slots);
    }
  }

  ghost predicate Rely(c: Config, s: St, s': St) {
    && |s.ep| == |s'.ep| == MAX_ENDPOINTS
    && (forall i :: 0 <= i < MAX_ENDPOINTS ==> SlotRely(c, i, s, s'))
    && (s.ui ==> s'.ui) && (s.uri ==> s'.uri)
    && s'.poll == s.poll && s'.epOut == s.epOut && s'.epSetup == s.epSetup
    && TripwireRely(s, s') && Uncut(s, s')
  }

  lemma RelyReflexive(c: Config, s: St)
    requires |s.ep| == MAX_ENDPOINTS
    ensures Rely(c, s, s)
  {
  }

  lemma EpRelyTransitive(a: Ep, b: Ep, d: Ep)
    requires EpRely(a, b) && EpRely(b, d)
    ensures EpRely(a, d)
  {
  }

  lemma RelyTransitive(c: Config, s1: St, s2: St, s3: St)
    requires Rely(c, s1, s2) && Rely(c, s2, s3)
    ensures Rely(c, s1, s3)
  {
    UncutTransitive(s1, s2, s3);
    forall i | 0 <= i < MAX_ENDPOINTS ensures SlotRely(c, i, s1, s3) {
      assert SlotRely(c, i, s1, s2) && SlotRely(c, i, s2, s3);
      EpRelyTransitive(s1.ep[i], s2.ep[i], s3.ep[i]);
    }
  }

  /** A step on one slot keeps the invariant of all and stays within the agreement, if it
    * keeps its own slot's part and writes memory only in the buffer of a slot that is not
    * quiet. */
  lemma LocalStep(c: Config, s: St, s': St, i: nat, e': Ep)
    requires GoodConfig(c) && Inv(c, s) && i < MAX_ENDPOINTS
    requires s'.ep == s.ep[i := e'] && OnlyIn(c, i, s.mem, s'.mem) && (s.ep[i].Quiet() ==> s'.mem == s.mem)
    requires s'.uri == s.uri && s'.poll == s.poll && s'.epOut == s.epOut && s'.epSetup == s.epSetup && (s.ui ==> s'.ui)
    requires s'.sutw ==> s.sutw && e'.setup.log == s.ep[i].setup.log
    requires EpRely(s.ep[i], e') && (i < 2 || UncutEp(s.ep[i], e'))
    requires EpInv(c, i, e', s'.mem) && Announced(s', i, e') && MaskCurrent(s', i, e')
    ensures Inv(c, s') && Rely(c, s, s')
  {
    SlotStep(c, s, s', i, e');
    LocalRely(c, s, s', i, e');
  }

  lemma LocalRely(c: Config, s: St, s': St, i: nat, e': Ep)
    requires GoodConfig(c) && |s.ep| == MAX_ENDPOINTS && i < MAX_ENDPOINTS
    requires s'.ep == s.ep[i := e'] && OnlyIn(c, i, s.mem, s'.mem) && (s.ep[i].Quiet() ==> s'.mem == s.mem)
    requires s'.poll == s.poll && s'.epOut == s.epOut && s'.epSetup == s.epSetup
    requires (s.ui ==> s'.ui) && (s.uri ==> s'.uri)
    requires s'.sutw ==> s.sutw && e'.setup.log == s.ep[i].setup.log
    requires EpRely(s.ep[i], e') && (i < 2 || UncutEp(s.ep[i], e'))
    ensures Rely(c, s, s')
  {
    UncutStep(s, s', i, e');
    forall j | 0 <= j < MAX_ENDPOINTS ensures SlotRely(c, j, s, s') {
      if j != i && Allocated(c, j) {
        OthersUndisturbed(c, i, j, s.mem, s'.mem);
      }
    }
  }

  /** Everything but the slots in `own` is as the controller alone would have left it. */
  ghost predicate RelyExcept(c: Config, own: set<nat>, s: St, s': St) {
    && |s.ep| == |s'.ep| == MAX_ENDPOINTS
    && (forall j :: 0 <= j < MAX_ENDPOINTS && j !in own ==> SlotRely(c, j, s, s'))
    && (s.ui ==> s'.ui) && (s.uri ==> s'.uri)
    && s'.poll == s.poll && s'.epOut == s.epOut && s'.epSetup == s.epSetup && Uncut(s, s')
  }

  lemma RelyExceptTransitive(c: Config, own: set<nat>, s1: St, s2: St, s3: St)
    requires RelyExcept(c, own, s1, s2) && RelyExcept(c, own, s2, s3)
    ensures RelyExcept(c, own, s1, s3)
  {
    UncutTransitive(s1, s2, s3);
    forall j | 0 <= j < MAX_ENDPOINTS && j !in own ensures SlotRely(c, j, s1, s3) {
      assert SlotRely(c, j, s1, s2) && SlotRely(c, j, s2, s3);
      EpRelyTransitive(s1.ep[j], s2.ep[j], s3.ep[j]);
    }
  }

  /** An endpoint's own access reaches no other endpoint. */
  lemma SlotOpIsLocal(c: Config, s: St, op: Op)
    requires GoodConfig(c) && |s.ep| == MAX_ENDPOINTS && Legal(c, s, op) && IsSlotOp(op)
    ensures RelyExcept(c, {op.slot}, s, DoOp(c, s, op))
  {
    var s' := DoOp(c, s, op);
    OpIsUncut(c, s, op);
    if op.StoreBuffer? {
      StoreOnlyIn(c, op.slot, s.mem, op.data);
      forall j | 0 <= j < MAX_ENDPOINTS && j != op.slot ensures SlotRely(c, j, s, s') {
        if Allocated(c, j) {
          OthersUndisturbed(c, op.slot, j, s.mem, s'.mem);
        }
      }
    }
  }

  /** The driver has had slot `i` all along: nobody has touched its descriptor, its queue
    * head, its histories or its buffer. */
  ghost predicate Kept(c: Config, i: nat, s: St, s': St) {
    && |s.ep| == |s'.ep| == MAX_ENDPOINTS && i < MAX_ENDPOINTS
    && var e, e' := s.ep[i], s'.ep[i];
    && e.Quiet() && e'.Quiet() && e'.td == e.td && e'.qh == e.qh && e'.h == e.h
    && SameControl(e, e') && (e'.reg.complete ==> e.reg.complete) && SetupRely(e, e')
    && QuietBuffer(c, i, s, s')
  }

  lemma QuietIsKept(c: Config, i: nat, s: St, s': St)
    requires Rely(c, s, s') && i < MAX_ENDPOINTS && s.ep[i].Quiet()
    ensures Kept(c, i, s, s')
  {
    assert SlotRely(c, i, s, s');
  }

  lemma KeptTransitive(c: Config, i: nat, s1: St, s2: St, s3: St)
    requires Kept(c, i, s1, s2) && Kept(c, i, s2, s3)
    ensures Kept(c, i, s1, s3)
  {
  }
}
