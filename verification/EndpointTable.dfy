/** The endpoint table (src/state.rs): the allocation mask, the slots behind it, and the walk
  * over the endpoints that exist. */
module EndpointTable {
  import opened Types
  import opened EndpointRegisters
  import opened Buffers

  datatype Entry = Entry(addr: Address, buffer: Buffer, kind: EndpointType)

  /** Bit 31 of the mask: the allocator has been taken. */
  const ALLOCATOR_TAKEN: nat := 31

  /** An atomic `fetch_or` of one bit: the new word, and whether the bit was clear before. */
  function FetchOr(mask: Bits, bit: nat): (Bits, bool)
    requires bit < 32
  {
    (mask + {bit}, bit !in mask)
  }

  /** The outcomes of `n` attempts to take the allocator, in the order in which the atomic
    * accesses happen. */
  function Attempts(mask: Bits, n: nat): seq<bool>
    decreases n
  {
    if n == 0 then [] else [FetchOr(mask, ALLOCATOR_TAKEN).1] + Attempts(FetchOr(mask, ALLOCATOR_TAKEN).0, n - 1)
  }

  /** However many race for it, the first to get there wins, and nobody else. */
  lemma {:induction false} OneWinner(mask: Bits, n: nat, k: nat)
    requires k < n
    ensures |Attempts(mask, n)| == n
    ensures Attempts(mask, n)[k] <==> k == 0 && ALLOCATOR_TAKEN !in mask
    decreases n
  {
    var taken := FetchOr(mask, ALLOCATOR_TAKEN).0;
    if k > 0 {
      OneWinner(taken, n - 1, k - 1);
    } else if n > 1 {
      OneWinner(taken, n - 1, 0);
    }
  }

  /** `slots` is as long as the state was declared; no more than sixteen are ever used. */
  class EndpointState {
    var alloc_mask: Bits
    var slots: seq<Option<Entry>>
    ghost var handedOut: seq<nat>

    /** How many slots the allocator sees. */
    function Len(): nat
      reads this
    {
      Min(|slots|, MAX_ENDPOINTS)
    }

    /** A mask bit is set if and only if its slot is initialised, with an endpoint whose
      * address maps to it; queue head and descriptor of a slot are handed out with the bit,
      * and only once; bit 31 is no slot's. */
    ghost predicate Valid()
      reads this
    {
      && (forall i :: 0 <= i < |slots| ==> (i in alloc_mask && i < MAX_ENDPOINTS <==> slots[i].Some?))
      && (forall i :: 0 <= i < |slots| && slots[i].Some? ==> Index(slots[i].value.addr) == i)
      && (forall i <- alloc_mask :: i < Len() || i == ALLOCATOR_TAKEN)
      && (forall j, k :: 0 <= j < k < |handedOut| ==> handedOut[j] != handedOut[k])
      && (forall i :: i in handedOut <==> i in alloc_mask && i != ALLOCATOR_TAKEN)
    }

    constructor (count: nat)
      ensures Valid() && alloc_mask == {} && |slots| == count && forall i :: 0 <= i < count ==> slots[i] == None
    {
      alloc_mask, slots, handedOut := {}, seq(count, _ => None), [];
    }

    /** Taking the allocator changes no endpoint. */
    method TakeAllocator() returns (won: bool)
      requires Valid()
      modifies this`alloc_mask
      ensures Valid() && won == (ALLOCATOR_TAKEN !in old(alloc_mask)) && alloc_mask == old(alloc_mask) + {ALLOCATOR_TAKEN}
    {
      var r := FetchOr(alloc_mask, ALLOCATOR_TAKEN);
      alloc_mask, won := r.0, r.1;
    }

    predicate CheckAllocated(index: nat)
      reads this
    {
      index < Len() && index in alloc_mask
    }

    /** An endpoint that is found is the one that was asked for. */
    method Endpoint(addr: Address) returns (r: Option<Entry>)
      requires Valid()
      ensures r.Some? <==> CheckAllocated(Index(addr))
      ensures r.Some? ==> r == slots[Index(addr)] && r.value.addr == addr
    {
      if CheckAllocated(Index(addr)) {
        r := slots[Index(addr)];
        IndexIsBijection(r.value.addr, addr, 0);
      } else {
        r := None;
      }
    }

    /** Succeeds once per address, for addresses that have a slot. */
    method AllocateEndpoint(addr: Address, buffer: Buffer, kind: EndpointType) returns (ok: bool)
      requires Valid()
      modifies this
      ensures Valid() && ok == (Index(addr) < old(Len()) && !old(CheckAllocated(Index(addr))))
      ensures !ok ==> alloc_mask == old(alloc_mask) && slots == old(slots) && handedOut == old(handedOut)
      ensures ok ==> alloc_mask == old(alloc_mask) + {Index(addr)} && handedOut == old(handedOut) + [Index(addr)]
                     && slots == old(slots)[Index(addr) := Some(Entry(addr, buffer, kind))]
    {
      var index := Index(addr);
      if index >= Len() {
        return false;
      }
      var r := FetchOr(alloc_mask, index);
      if !r.1 {
        assert alloc_mask + {index} == alloc_mask;
      }
      alloc_mask, ok := r.0, r.1;
      if !ok {
        return;
      }
      slots := slots[index := Some(Entry(addr, buffer, kind))];
      handedOut := handedOut + [index];
    }

    /** The walk over the endpoints: each allocated endpoint once, in the order of the slots;
      * on request without the control endpoints. */
    method Iterate(nonzero: bool) returns (eps: seq<Entry>)
      requires Valid()
      ensures forall e <- eps :: CheckAllocated(Index(e.addr)) && slots[Index(e.addr)] == Some(e) && (nonzero ==> e.addr.index != 0)
      ensures forall i :: (if nonzero then 2 else 0) <= i < Len() && CheckAllocated(i) ==> slots[i].value in eps
      ensures forall j, k :: 0 <= j < k < |eps| ==> Index(eps[j].addr) < Index(eps[k].addr)
    {
      eps := [];
      for index := 0 to 8
        invariant Walked(eps, nonzero, 2 * index)
      {
        eps := Visit(eps, nonzero, Address(index, Out));
        eps := Visit(eps, nonzero, Address(index, In));
      }
    }

    /** The walk has passed the slots below `n`. */
    ghost predicate Walked(eps: seq<Entry>, nonzero: bool, n: nat)
      requires Valid()
      reads this
    {
      && (forall e <- eps :: Index(e.addr) < n && CheckAllocated(Index(e.addr)) && slots[Index(e.addr)] == Some(e)
                             && (nonzero ==> e.addr.index != 0))
      && (forall i :: (if nonzero then 2 else 0) <= i < n && CheckAllocated(i) ==> slots[i].value in eps)
      && (forall j, k :: 0 <= j < k < |eps| ==> Index(eps[j].addr) < Index(eps[k].addr))
    }

    method Visit(eps: seq<Entry>, nonzero: bool, addr: Address) returns (more: seq<Entry>)
      requires Valid() && Walked(eps, nonzero, Index(addr))
      ensures Walked(more, nonzero, Index(addr) + 1)
    {
      var r := Endpoint(addr);
      more := if r.Some? && !(nonzero && addr.index == 0) then eps + [r.value] else eps;
    }
  }
}
