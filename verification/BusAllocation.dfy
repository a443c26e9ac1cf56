/** Allocation of endpoints before the bus runs (src/bus.rs, src/driver.rs). */
module BusAllocation {
  import opened Types
  import opened Buffers
  import opened EndpointTable
  import opened Device

  /** A panic ends the program; the source panics on an address that has no slot. */
  datatype Allocation = Given(addr: Address) | Refused(error: UsbError) | Panicked

  datatype Request = Request(dir: Direction, addr: Option<Address>, kind: EndpointType, size: nat)

  class AllocatingBus {
    const state: EndpointState
    const arena: Allocator

    /** The buffers of the endpoints lie in the part of the arena that is given away, and no
      * two overlap. */
    ghost predicate Valid()
      reads this, state, arena
    {
      && state.Valid() && arena.Valid() && arena.ptr <= arena.end
      && (forall i :: 0 <= i < |state.slots| && state.slots[i].Some? ==> InArena(state.slots[i].value.buffer))
      && (forall i, j :: 0 <= i < j < |state.slots| && state.slots[i].Some? && state.slots[j].Some? ==>
            state.slots[i].value.buffer.Disjoint(state.slots[j].value.buffer))
    }

    ghost predicate InArena(b: Buffer)
      reads arena
    {
      arena.ptr <= b.ptr && b.End() <= arena.end
    }

    constructor (state: EndpointState, arena: Allocator)
      requires state.Valid() && arena.Valid() && state.alloc_mask <= {ALLOCATOR_TAKEN} && arena.given == []
      ensures Valid() && this.state == state && this.arena == arena
    {
      this.state, this.arena := state, arena;
    }

    predicate IsAllocated(addr: Address)
      reads state
    {
      state.CheckAllocated(Index(addr))
    }

    ghost predicate Fits(size: nat)
      reads arena
      requires arena.Valid()
    {
      size <= arena.ptr - arena.start
    }

    /** Mask, slots and arena are as they were. */
    twostate predicate Untouched()
      reads state, arena
    {
      && state.alloc_mask == old(state.alloc_mask) && state.slots == old(state.slots)
      && state.handedOut == old(state.handedOut)
      && arena.ptr == old(arena.ptr) && arena.given == old(arena.given)
    }

    /** A buffer, then the endpoint; the endpoint's slot must be free, and must exist. */
    method AllocateAt(addr: Address, kind: EndpointType, size: nat) returns (r: Allocation)
      requires Valid() && !IsAllocated(addr)
      modifies state, arena
      ensures Valid() && |state.slots| == old(|state.slots|)
      ensures !old(Fits(size)) ==> r == Refused(EndpointMemoryOverflow) && Untouched()
      ensures old(Fits(size)) ==> r == if Index(addr) < state.Len() then Given(addr) else Panicked
      ensures r.Given? ==>
                && state.alloc_mask == old(state.alloc_mask) + {Index(addr)}
                && arena.ptr == old(arena.ptr) - size
                && state.slots == old(state.slots)[Index(addr) := Some(Entry(addr, Buffer(arena.ptr, size), kind))]
      ensures r.Panicked? ==> state.alloc_mask == old(state.alloc_mask) && state.slots == old(state.slots)
    {
      ArenaConservation(arena.given, arena.ptr, arena.end);
      var buffer := arena.Allocate(size);
      if buffer == None {
        return Refused(EndpointMemoryOverflow);
      }
      var ok := state.AllocateEndpoint(addr, buffer.value, kind);
      r := if ok then Given(addr) else Panicked;
    }

    /** The lowest index from 1 to 7 that is free in a direction; 8 if there is none. */
    ghost function FirstFree(dir: Direction, from: nat): (idx: nat)
      requires from <= 8
      reads state
      decreases 8 - from
      ensures from <= idx <= 8 && (idx < 8 ==> !IsAllocated(Address(idx, dir)))
      ensures forall j :: from <= j < idx ==> IsAllocated(Address(j, dir))
    {
      if from == 8 || !IsAllocated(Address(from, dir)) then from else FirstFree(dir, from + 1)
    }

    /** The address that a request is about. */
    ghost function Target(q: Request): Address
      reads state
    {
      if q.addr.Some? then q.addr.value else Address(FirstFree(q.dir, 1), q.dir)
    }

    /** First fit, and nothing changes on an error. A request that names an address gets that
      * one or an error; one that does not gets the lowest free index, or the answer that all
      * seven are taken. The panic is reached exactly when there is memory for an address that
      * has no slot. */
    method AllocEp(q: Request) returns (r: Allocation)
      requires Valid()
      modifies state, arena
      ensures Valid() && |state.slots| == old(|state.slots|)
      ensures r.Refused? ==> Untouched()
      ensures r == Refused(InvalidEndpoint) <==> q.addr.Some? && old(IsAllocated(q.addr.value))
      ensures r == Refused(EndpointOverflow) <==> q.addr == None && old(FirstFree(q.dir, 1)) == 8
      ensures r == Refused(EndpointMemoryOverflow) <==>
                !old(Fits(q.size)) && r != Refused(InvalidEndpoint) && r != Refused(EndpointOverflow)
      ensures |state.slots| >= MAX_ENDPOINTS && (q.addr.Some? ==> q.addr.value.index < 8) ==> !r.Panicked?
      ensures old(state.alloc_mask) <= state.alloc_mask
      ensures r.Panicked? <==> !r.Refused? && Index(old(Target(q))) >= state.Len()
      ensures r.Panicked? ==> state.alloc_mask == old(state.alloc_mask) && state.slots == old(state.slots)
      ensures r.Given? ==>
                && r.addr == old(Target(q)) && !old(IsAllocated(r.addr)) && Index(r.addr) < state.Len()
                && state.alloc_mask == old(state.alloc_mask) + {Index(r.addr)}
                && arena.ptr == old(arena.ptr) - q.size
                && state.slots == old(state.slots)[Index(r.addr) := Some(Entry(r.addr, Buffer(arena.ptr, q.size), q.kind))]
    {
      if q.addr.Some? {
        var addr := q.addr.value;
        if IsAllocated(addr) {
          return Refused(InvalidEndpoint);
        }
        r := AllocateAt(addr, q.kind, q.size);
      } else {
        for idx := 1 to 8
          invariant Valid() && Untouched() && FirstFree(q.dir, 1) == FirstFree(q.dir, idx)
        {
          var addr := Address(idx, q.dir);
          if !IsAllocated(addr) {
            r := AllocateAt(addr, q.kind, q.size);
            return;
          }
        }
        r := Refused(EndpointOverflow);
      }
    }

    method AllocNext(requests: seq<Request>, replies: seq<Allocation>, ghost mask: set<nat>) returns (r: Allocation)
      requires Valid() && |replies| < |requests| && Served(requests, replies, mask, state.alloc_mask, state.slots)
      modifies state, arena
      ensures Valid() && |state.slots| == old(|state.slots|)
      ensures Served(requests, replies + [r], mask, state.alloc_mask, state.slots)
      ensures |state.slots| >= MAX_ENDPOINTS && AllUsb(requests) ==> !r.Panicked?
    {
      ghost var before, slots := state.alloc_mask, state.slots;
      r := AllocEp(requests[|replies|]);
      ServedNext(requests, replies, r, mask, before, slots, state.slots);
    }

    /** Any sequence of requests ends in a table whose buffers are disjoint, which is what the
      * running driver and the controller build on. With all sixteen slots, and indices that
      * USB allows for, none of them panics. */
    method Serve(requests: seq<Request>, ghost tdBase: nat) returns (replies: seq<Allocation>)
      requires Valid() && arena.end < WORD_SIZE && tdBase % 32 == 0 && tdBase + 32 * MAX_ENDPOINTS <= WORD_SIZE
      modifies state, arena
      ensures Valid() && GoodConfig(ConfigOf(state.slots, tdBase))
      ensures |replies| <= |requests| && (|replies| < |requests| ==> replies != [] && replies[|replies| - 1].Panicked?)
      ensures |state.slots| == old(|state.slots|)
      ensures |state.slots| >= MAX_ENDPOINTS && AllUsb(requests) ==> |replies| == |requests| && NonePanicked(replies)
      ensures state.alloc_mask == old(state.alloc_mask) + GivenSlots(replies)
      ensures forall k :: 0 <= k < |replies| && replies[k].Given? ==> Honoured(requests[k], replies[k].addr, state.slots)
      ensures forall k :: 0 <= k < |replies| - 1 ==> !replies[k].Panicked?
    {
      replies := [];
      for k := 0 to |requests|
        invariant Valid() && |state.slots| == old(|state.slots|) && |replies| == k
        invariant Served(requests, replies, old(state.alloc_mask), state.alloc_mask, state.slots) && NonePanicked(replies)
      {
        var r := AllocNext(requests, replies, old(state.alloc_mask));
        replies := replies + [r];
        if r.Panicked? {
          break;
        }
      }
      TableIsGood(state.slots, arena.ptr, arena.end, tdBase);
    }
  }

  function GivenSlots(replies: seq<Allocation>): set<nat> {
    set r | r in replies && r.Given? :: Index(r.addr)
  }

  /** The first requests have been answered: the mask has grown by the slots given, and each
    * holds what was asked for. */
  ghost predicate Served(requests: seq<Request>, replies: seq<Allocation>, mask: set<nat>, now: set<nat>, slots: seq<Option<Entry>>) {
    && |replies| <= |requests| && now == mask + GivenSlots(replies)
    && forall n :: 0 <= n < |replies| && replies[n].Given? ==> Honoured(requests[n], replies[n].addr, slots)
  }

  lemma ServedNext(requests: seq<Request>, replies: seq<Allocation>, r: Allocation, mask: set<nat>, now: set<nat>,
                   slots: seq<Option<Entry>>, slots': seq<Option<Entry>>)
    requires Served(requests, replies, mask, now, slots) && |replies| < |requests|
    requires r.Given? ==> Index(r.addr) !in now && Index(r.addr) < |slots| && |slots'| == |slots|
                          && slots' == slots[Index(r.addr) := slots'[Index(r.addr)]]
                          && Honoured(requests[|replies|], r.addr, slots')
    requires !r.Given? ==> slots' == slots
    ensures Served(requests, replies + [r], mask, now + (if r.Given? then {Index(r.addr)} else {}), slots')
  {
    GivenGrow(replies, r);
    forall n | 0 <= n < |replies| && replies[n].Given? ensures Honoured(requests[n], replies[n].addr, slots') {
      assert Honoured(requests[n], replies[n].addr, slots) && replies[n] in replies;
      assert Index(replies[n].addr) in GivenSlots(replies);
    }
  }

  lemma GivenGrow(replies: seq<Allocation>, r: Allocation)
    ensures GivenSlots(replies + [r]) == GivenSlots(replies) + (if r.Given? then {Index(r.addr)} else {})
  {
    assert forall q :: q in replies + [r] <==> q in replies || q == r;
  }

  /** The slot holds what was asked for, at the address asked for, if one was. */
  ghost predicate Honoured(q: Request, addr: Address, slots: seq<Option<Entry>>) {
    && Index(addr) < |slots| && slots[Index(addr)].Some?
    && (var entry := slots[Index(addr)].value; entry.addr == addr && entry.kind == q.kind && entry.buffer.len == q.size)
    && (if q.addr.Some? then addr == q.addr.value else addr.dir == q.dir && 1 <= addr.index < 8)
  }

  ghost predicate AllUsb(requests: seq<Request>) {
    forall q <- requests :: q.addr.Some? ==> q.addr.value.index < 8
  }

  ghost predicate NonePanicked(replies: seq<Allocation>) {
    forall r <- replies :: !r.Panicked?
  }

  /** The configuration that the table describes, with the descriptors at `tdBase`. */
  function ConfigOf(slots: seq<Option<Entry>>, tdBase: nat): Config {
    Config(seq(MAX_ENDPOINTS, i requires 0 <= i < MAX_ENDPOINTS => ConfigSlot(slots, i)), tdBase)
  }

  function ConfigSlot(slots: seq<Option<Entry>>, i: nat): Option<EpConfig> {
    if i < |slots| && slots[i].Some? then Some(EpConfig(slots[i].value.kind, slots[i].value.buffer)) else None
  }

  lemma TableIsGood(slots: seq<Option<Entry>>, low: nat, high: nat, tdBase: nat)
    requires high < WORD_SIZE && tdBase % 32 == 0 && tdBase + 32 * MAX_ENDPOINTS <= WORD_SIZE
    requires forall i :: 0 <= i < |slots| && slots[i].Some? ==> low <= slots[i].value.buffer.ptr && slots[i].value.buffer.End() <= high
    requires forall i, j :: 0 <= i < j < |slots| && slots[i].Some? && slots[j].Some? ==>
               slots[i].value.buffer.Disjoint(slots[j].value.buffer)
    ensures GoodConfig(ConfigOf(slots, tdBase))
  {
    var c := ConfigOf(slots, tdBase);
    forall i, j | 0 <= i < j < MAX_ENDPOINTS ensures Apart(c, i, j) {
    }
  }
}
