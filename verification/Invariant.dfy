/** What holds in every reachable state, and what the controller cannot change. */
module Invariant {
  import opened Types
  import opened Memory
  import opened Device

  function Last<T>(s: seq<T>): T
    requires s != []
  {
    s[|s| - 1]
  }

  /** Every outcome matches the packet it belongs to. */
  ghost predicate OutcomesMatch(h: History) {
    && |h.done| <= |h.rx| <= |h.done| + 1
    && forall k :: 0 <= k < |h.done| && h.done[k].Delivered? ==>
         h.done[k].data == h.rx[k][..Min(h.done[k].cap, |h.rx[k]|)]
  }

  /** Every packet on the wire is the packet that was queued in its place. */
  ghost predicate FatesMatch(h: History) {
    && |h.fates| <= |h.queued| <= |h.fates| + 1
    && forall k :: 0 <= k < |h.fates| && h.fates[k].Sent? ==> h.fates[k].data == h.queued[k]
  }

  ghost predicate LastSent(h: History) {
    h.fates != [] && Last(h.fates).Sent?
  }

  ghost predicate LastFailed(h: History) {
    h.fates != [] && Last(h.fates).Failed?
  }

  /** Completions are reported, dropped without a report, merged with a later one, or still
    * there to be polled. */
  ghost predicate CompletionsBalance(i: nat, e: Ep) {
    !IsOut(i) ==>
      && e.h.completions == e.h.reported + e.h.dropped + e.h.merged + (if e.reg.complete then 1 else 0)
      && (e.reg.complete ==> e.h.fates != [])
  }

  /** On an IN slot: a completion that is up belongs to the last packet, which was sent. */
  ghost predicate Tidy(e: Ep) {
    e.reg.complete ==> e.Quiet() && (e.h.fates != [] ==> LastSent(e.h))
  }

  /** The controller has the slot: it holds a finished schedule, reached through the queue
    * head and ending there. */
  ghost predicate OwnedInv(c: Config, i: nat, e: Ep, mem: Mem)
    requires GoodConfig(c) && Allocated(c, i)
  {
    && Scheduled(c, i, e)
    && !e.h.editing && e.h.got == None
    && (e.reg.prime ==> !e.reg.stat && e.qh.overlay.next == TdAddress(c, i))
    && (e.reg.stat ==> e.qh.current == TdAddress(c, i) && e.qh.overlay.next == 1)
    && (IsOut(i) ==> !e.h.Pending() && e.h.armed)
    && (!IsOut(i) ==> |e.h.queued| == |e.h.fates| + 1 && Load(mem, BufferOf(c, i).ptr, e.td.last) == Last(e.h.queued))
  }

  /** The packet waits in the buffer, whole. */
  ghost predicate WaitsInv(c: Config, i: nat, e: Ep, mem: Mem, p: Packet)
    requires GoodConfig(c) && Allocated(c, i)
  {
    && !e.td.status.IsError() && e.td.BytesTransferred() == |p|
    && Load(mem, BufferOf(c, i).ptr, |p|) == p
    && (e.h.got.Some? ==> e.h.got.value.1 == p[..Min(e.h.got.value.0, |p|)])
  }

  /** The driver has an OUT slot: its buffer holds the pending packet, if there is one. */
  ghost predicate QuietOutInv(c: Config, i: nat, e: Ep, mem: Mem)
    requires GoodConfig(c) && Allocated(c, i)
  {
    && (e.h.armed ==> e.h.Pending())
    && (e.h.editing ==> !e.h.Pending() && e.h.got == None)
    && (!e.h.editing && e.h.Pending() ==>
          WaitsInv(c, i, e, mem, Last(e.h.rx)))
    && (!e.h.editing && !e.h.Pending() ==>
          && (!e.td.status.IsError() ==> e.td.BytesTransferred() == 0)
          && (e.h.got.Some? ==> |e.h.got.value.1| <= e.td.BytesTransferred()))
  }

  /** The driver has an IN slot: the descriptor shows an error if and only if the last packet
    * was lost to a failure. */
  ghost predicate QuietInInv(e: Ep) {
    |e.h.queued| == |e.h.fates| && (!e.h.editing ==> (e.td.status.IsError() <==> LastFailed(e.h)))
  }

  ghost predicate SlotInv(c: Config, i: nat, e: Ep, mem: Mem)
    requires GoodConfig(c) && Allocated(c, i)
  {
    && SizesInv(c, i, e)
    && OutcomesMatch(e.h) && FatesMatch(e.h) && CompletionsBalance(i, e)
    && (if IsOut(i) then e.h.queued == [] else e.h.got == None)
    && OwnerInv(c, i, e, mem)
  }

  ghost predicate SizesInv(c: Config, i: nat, e: Ep)
    requires GoodConfig(c) && Allocated(c, i)
  {
    e.td.WellFormed() && e.td.total <= e.td.last <= MaxLen(c, i) && e.qh.maxPacket == MaxLen(c, i)
  }

  ghost predicate OwnerInv(c: Config, i: nat, e: Ep, mem: Mem)
    requires GoodConfig(c) && Allocated(c, i)
  {
    if !e.Quiet() then OwnedInv(c, i, e, mem) else if IsOut(i) then QuietOutInv(c, i, e, mem) else QuietInInv(e)
  }

  ghost predicate SetupInv(e: Ep) {
    && |e.setup.lo| == 4 && |e.setup.hi| == 4
    && (e.setup.log != [] ==> Last(e.setup.log) == e.setup.lo + e.setup.hi)
    && (e.setup.pending ==> e.setup.log != [])
  }

  ghost predicate EpInv(c: Config, i: nat, e: Ep, mem: Mem)
    requires GoodConfig(c)
  {
    SetupInv(e) && if Allocated(c, i) then SlotInv(c, i, e, mem) else e.Quiet()
  }

  /** A set completion or setup bit is announced: by UI, by what the driver already
    * remembers, or by the poll that is under way. */
  ghost predicate OutAnnounced(s: St, k: nat, e: Ep) {
    e.reg.complete ==> s.ui || k in s.epOut || s.poll.Acked?
  }

  ghost predicate InAnnounced(s: St, k: nat, e: Ep) {
    e.reg.complete ==> s.ui || s.poll.Acked? || s.poll.OutRead? || (s.poll.InRead? && k in s.poll.mask)
  }

  ghost predicate SetupAnnounced(s: St, k: nat, e: Ep) {
    e.setup.pending ==> s.ui || k in s.epSetup || !s.poll.Idle?
  }

  ghost predicate Announced(s: St, i: nat, e: Ep) {
    if IsOut(i) then OutAnnounced(s, i / 2, e) && SetupAnnounced(s, i / 2, e) else InAnnounced(s, i / 2, e)
  }

  /** What a poll has read and not yet acknowledged is still there to be acknowledged. */
  ghost predicate MaskCurrent(s: St, i: nat, e: Ep) {
    s.poll.InRead? && !IsOut(i) && i / 2 in s.poll.mask ==> e.reg.complete
  }

  ghost predicate Holds(c: Config, i: nat, s: St)
    requires GoodConfig(c) && |s.ep| == MAX_ENDPOINTS && i < MAX_ENDPOINTS
  {
    EpInv(c, i, s.ep[i], s.mem) && Announced(s, i, s.ep[i]) && MaskCurrent(s, i, s.ep[i])
  }

  ghost predicate Inv(c: Config, s: St)
    requires GoodConfig(c)
  {
    |s.ep| == MAX_ENDPOINTS && forall i :: 0 <= i < MAX_ENDPOINTS ==> Holds(c, i, s)
  }

  // ---------------------------------------------------------------- locality

  /** Only the bytes of its own buffer matter to a slot. */
  lemma FrameEp(c: Config, i: nat, e: Ep, mem: Mem, mem': Mem)
    requires GoodConfig(c) && EpInv(c, i, e, mem) && i < MAX_ENDPOINTS
    requires Allocated(c, i) ==> SameBytes(mem, mem', BufferOf(c, i).ptr, BufferOf(c, i).len)
    ensures EpInv(c, i, e, mem')
  {
    if Allocated(c, i) {
      var b := BufferOf(c, i);
      if !e.Quiet() {
        LoadSame(mem, mem', b.ptr, b.len, e.td.last);
      } else if IsOut(i) && e.h.Pending() && !e.h.editing {
        LoadSame(mem, mem', b.ptr, b.len, |Last(e.h.rx)|);
      }
    }
  }

  /** The memory changes in the buffer of slot `i` only. */
  ghost predicate OnlyIn(c: Config, i: nat, mem: Mem, mem': Mem) {
    mem' == mem
    || (Allocated(c, i)
        && forall a :: !(BufferOf(c, i).ptr <= a < BufferOf(c, i).End()) ==> Peek(mem', a) == Peek(mem, a))
  }

  /** No transfer and no copy into one buffer changes a byte of another. */
  lemma OthersUndisturbed(c: Config, i: nat, j: nat, mem: Mem, mem': Mem)
    requires GoodConfig(c) && OnlyIn(c, i, mem, mem') && i != j && i < MAX_ENDPOINTS && Allocated(c, j)
    ensures SameBytes(mem, mem', BufferOf(c, j).ptr, BufferOf(c, j).len)
  {
    if mem' != mem {
      if i < j {
        assert Apart(c, i, j);
      } else {
        assert Apart(c, j, i);
      }
    }
  }

  lemma StoreOnlyIn(c: Config, i: nat, mem: Mem, data: Packet)
    requires GoodConfig(c) && Allocated(c, i) && |data| <= BufferOf(c, i).len
    ensures OnlyIn(c, i, mem, Store(mem, BufferOf(c, i).ptr, data))
  {
    StoreEverywhere(mem, BufferOf(c, i).ptr, data);
  }

  /** A step on one slot keeps the invariant of the others. */
  lemma SlotStep(c: Config, s: St, s': St, i: nat, e': Ep)
    requires GoodConfig(c) && Inv(c, s) && i < MAX_ENDPOINTS
    requires s'.ep == s.ep[i := e'] && OnlyIn(c, i, s.mem, s'.mem)
    requires s'.poll == s.poll && s'.epOut == s.epOut && s'.epSetup == s.epSetup && (s.ui ==> s'.ui)
    requires EpInv(c, i, e', s'.mem) && Announced(s', i, e') && MaskCurrent(s', i, e')
    ensures Inv(c, s')
  {
    forall j | 0 <= j < MAX_ENDPOINTS ensures Holds(c, j, s') {
      if j != i {
        assert Holds(c, j, s);
        if Allocated(c, j) {
          OthersUndisturbed(c, i, j, s.mem, s'.mem);
        }
        FrameEp(c, j, s.ep[j], s.mem, s'.mem);
      }
    }
  }

  /** The reset flag and the tripwire are of no concern to any slot. */
  lemma FlagStep(c: Config, s: St, s': St)
    requires GoodConfig(c) && Inv(c, s) && s' == s.(uri := s'.uri, sutw := s'.sutw)
    ensures Inv(c, s')
  {
    forall i | 0 <= i < MAX_ENDPOINTS ensures Holds(c, i, s') {
      assert Holds(c, i, s);
    }
  }

  lemma InitialInv(c: Config, mem: Mem)
    requires GoodConfig(c)
    ensures Inv(c, Initial(c, mem))
  {
    forall i | 0 <= i < MAX_ENDPOINTS ensures Holds(c, i, Initial(c, mem)) {
    }
  }
}
