/** The endpoint memory (src/buffer.rs): an arena handed out from its end downwards, and
  * buffers that are copied byte by byte. */
module Buffers {
  import opened Types
  import opened Memory

  datatype Buffer = Buffer(ptr: nat, len: nat) {
    function End(): nat {
      ptr + len
    }

    ghost predicate Disjoint(other: Buffer) {
      End() <= other.ptr || other.End() <= ptr
    }
  }

  /** The buffers given out so far, oldest first, tile the arena from `low` up to `high`. */
  ghost predicate Stacked(given: seq<Buffer>, low: nat, high: nat) {
    if given == [] then low == high
    else
      var newest := given[|given| - 1];
      newest.ptr == low && Stacked(given[..|given| - 1], newest.End(), high)
  }

  function TotalLength(given: seq<Buffer>): nat {
    if given == [] then 0 else TotalLength(given[..|given| - 1]) + given[|given| - 1].len
  }

  /** Every buffer lies in the arena, no two overlap, and no byte is lost: the lengths and
    * the free space add up to the arena. */
  lemma {:induction false} ArenaConservation(given: seq<Buffer>, low: nat, high: nat)
    requires Stacked(given, low, high)
    ensures low + TotalLength(given) == high
    ensures forall i :: 0 <= i < |given| ==> low <= given[i].ptr && given[i].End() <= high
    ensures forall i, j :: 0 <= i < j < |given| ==> given[i].Disjoint(given[j])
  {
    if given != [] {
      var older := given[..|given| - 1];
      ArenaConservation(older, given[|given| - 1].End(), high);
      forall i, j | 0 <= i < j < |given| ensures given[i].Disjoint(given[j]) {
        assert given[i] == older[i];
        if j < |older| {
          assert given[j] == older[j];
        }
      }
      forall i | 0 <= i < |given| ensures low <= given[i].ptr && given[i].End() <= high {
        if i < |older| {
          assert given[i] == older[i];
        }
      }
    }
  }

  /** One request against the free space between `start` and `ptr`. */
  function AllocateFrom(start: nat, ptr: nat, size: nat): Option<Buffer> {
    if ptr < size || ptr - size < start then None else Some(Buffer(ptr - size, size))
  }

  class Allocator {
    const start: nat
    var ptr: nat
    ghost const end: nat
    ghost var given: seq<Buffer>

    ghost predicate Valid()
      reads this
    {
      start <= ptr && Stacked(given, ptr, end)
    }

    constructor FromBuffer(base: nat, size: nat)
      ensures Valid() && start == base && end == base + size && given == []
    {
      start, ptr, end, given := base, base + size, base + size, [];
    }

    /** Fails exactly when the request exceeds the free space, and then changes nothing. */
    method Allocate(size: nat) returns (r: Option<Buffer>)
      requires Valid()
      modifies this
      ensures Valid()
      ensures r == AllocateFrom(start, old(ptr), size)
      ensures r == None <==> size > old(ptr) - start
      ensures r == None ==> ptr == old(ptr) && given == old(given)
      ensures r.Some? ==> r.value.len == size && r.value.ptr == ptr && given == old(given) + [r.value]
    {
      if ptr < size {
        return None;
      }
      var p := ptr - size;
      if p < start {
        r := None;
      } else {
        assert Stacked(given + [Buffer(p, size)], p, end) by {
          assert (given + [Buffer(p, size)])[..|given|] == given;
        }
        ptr := p;
        given := given + [Buffer(p, size)];
        r := Some(Buffer(p, size));
      }
    }
  }

  /** The memory behind an arena, and the guard that hands its allocator out once. */
  class EndpointMemory {
    const base: nat
    const bytes: array<Byte>
    var taken: bool

    constructor (base: nat, size: nat)
      ensures fresh(bytes) && bytes.Length == size && this.base == base && !taken
    {
      this.base := base;
      bytes := new Byte[size](_ => 0);
      taken := false;
    }

    method TakeAllocator() returns (r: Option<Allocator>)
      modifies this`taken
      ensures taken
      ensures r.Some? <==> !old(taken)
      ensures r.Some? ==> fresh(r.value) && r.value.Valid() && r.value.start == base
                          && r.value.end == base + bytes.Length && r.value.given == []
    {
      var was := taken;
      taken := true;
      if was {
        r := None;
      } else {
        var a := new Allocator.FromBuffer(base, bytes.Length);
        r := Some(a);
      }
    }

    ghost predicate Holds(b: Buffer) {
      base <= b.ptr && b.End() <= base + bytes.Length
    }

    ghost function View(): Mem
      reads bytes
    {
      Store(map[], base, bytes[..])
    }

    /** Copies out as much as fits on both sides, and leaves the rest of `buffer` alone. */
    method VolatileRead(b: Buffer, buffer: array<Byte>) returns (size: nat)
      requires Holds(b) && buffer != bytes
      modifies buffer
      ensures size == Min(buffer.Length, b.len)
      ensures buffer[..size] == Load(View(), b.ptr, size)
      ensures buffer[size..] == old(buffer[size..])
    {
      size := Min(buffer.Length, b.len);
      StoreEverywhere(map[], base, bytes[..]);
      for k := 0 to size
        invariant forall i :: 0 <= i < k ==> buffer[i] == Peek(View(), b.ptr + i)
        invariant forall i :: k <= i < buffer.Length ==> buffer[i] == old(buffer[i])
      {
        buffer[k] := bytes[b.ptr + k - base];
      }
    }

    /** Copies in as much as fits on both sides; no byte outside `b` changes. */
    method VolatileWrite(b: Buffer, buffer: seq<Byte>) returns (size: nat)
      requires Holds(b)
      modifies bytes
      ensures size == Min(|buffer|, b.len)
      ensures forall a :: Peek(View(), a) == Peek(Store(old(View()), b.ptr, buffer[..size]), a)
    {
      size := Min(|buffer|, b.len);
      for k := 0 to size
        invariant forall i :: 0 <= i < bytes.Length ==>
                    bytes[i] == if b.ptr - base <= i < b.ptr - base + k then buffer[i - (b.ptr - base)] else old(bytes[i])
      {
        bytes[b.ptr + k - base] := buffer[k];
      }
      StoreEverywhere(map[], base, bytes[..]);
      StoreEverywhere(map[], base, old(bytes[..]));
      StoreEverywhere(old(View()), b.ptr, buffer[..size]);
    }
  }
}
