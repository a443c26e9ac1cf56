/** Byte-addressed memory as the controller sees it. */
module Memory {
  import opened Types
  import opened TransferDescriptor

  type Mem = map<int, Byte>

  function Peek(m: Mem, a: int): Byte {
    if a in m then m[a] else 0
  }

  /** `data` at consecutive addresses from `ptr`. */
  function Store(m: Mem, ptr: int, data: Packet): Mem {
    if data == [] then m
    else
      var last := |data| - 1;
      Store(m, ptr, data[..last])[ptr + last := data[last]]
  }

  function StoredByte(m: Mem, ptr: int, data: Packet, a: int): Byte {
    if ptr <= a < ptr + |data| then data[a - ptr] else Peek(m, a)
  }

  lemma {:induction false} StoreAt(m: Mem, ptr: int, data: Packet, a: int)
    ensures Peek(Store(m, ptr, data), a) == StoredByte(m, ptr, data, a)
  {
    if data != [] {
      StoreAt(m, ptr, data[..|data| - 1], a);
    }
  }

  lemma StoreEverywhere(m: Mem, ptr: int, data: Packet)
    ensures forall a :: Peek(Store(m, ptr, data), a) == StoredByte(m, ptr, data, a)
  {
    forall a ensures Peek(Store(m, ptr, data), a) == StoredByte(m, ptr, data, a) {
      StoreAt(m, ptr, data, a);
    }
  }

  function Load(m: Mem, ptr: int, n: nat): (data: Packet)
    ensures |data| == n
  {
    seq<Byte>(n, k requires 0 <= k < n => Peek(m, ptr + k))
  }

  /** Two memories hold the same bytes in a range. */
  ghost predicate SameBytes(m: Mem, m': Mem, ptr: int, n: nat) {
    forall a :: ptr <= a < ptr + n ==> Peek(m, a) == Peek(m', a)
  }

  /** What was written is read back, cut to what is asked for, and every disjoint range is
    * undisturbed. */
  lemma LoadAfterStore(m: Mem, ptr: int, data: Packet, n: nat)
    requires n <= |data|
    ensures Load(Store(m, ptr, data), ptr, n) == data[..n]
    ensures forall q, k: nat {:trigger SameBytes(m, Store(m, ptr, data), q, k)} ::
              q + k <= ptr || ptr + |data| <= q ==> SameBytes(m, Store(m, ptr, data), q, k)
  {
    StoreEverywhere(m, ptr, data);
  }

  lemma LoadSame(m: Mem, m': Mem, ptr: int, len: nat, n: nat)
    requires SameBytes(m, m', ptr, len) && n <= len
    ensures Load(m, ptr, n) == Load(m', ptr, n)
  {
  }

  /** The controller writes a received packet one byte at a time, each where the pointer
    * list of the descriptor sends it. */
  function Scatter(m: Mem, pages: seq<Word>, data: Packet): Mem
    requires |pages| == PAGES
  {
    if data == [] then m
    else
      var last := |data| - 1;
      Scatter(m, pages, data[..last])[PageByte(pages, last) := data[last]]
  }

  /** The bytes of a packet to send, collected through the pointer list. */
  function Gather(m: Mem, pages: seq<Word>, n: nat): (data: Packet)
    requires |pages| == PAGES
    ensures |data| == n
  {
    seq<Byte>(n, k requires 0 <= k < n => Peek(m, PageByte(pages, k)))
  }

  /** Whatever the pointer list, a received packet changes only the addresses that the list
    * gives for its bytes. */
  lemma {:induction false} ScatterTouches(m: Mem, pages: seq<Word>, data: Packet, a: int)
    requires |pages| == PAGES
    requires forall k :: 0 <= k < |data| ==> PageByte(pages, k) != a
    ensures Peek(Scatter(m, pages, data), a) == Peek(m, a)
  {
    if data != [] {
      ScatterTouches(m, pages, data[..|data| - 1], a);
    }
  }

  /** Through the list that `set_buffer` leaves, the controller's byte walk stores and loads
    * the packet in place. */
  lemma {:induction false} ScatterStores(m: Mem, ptr: Word, size: nat, data: Packet)
    requires |data| <= size && ptr % PAGE + size <= PAGES * PAGE && ptr + size <= WORD_SIZE
    ensures Scatter(m, PageList(ptr, size), data) == Store(m, ptr, data)
  {
    if data != [] {
      var last := |data| - 1;
      ScatterStores(m, ptr, size, data[..last]);
      PageWalkIsIdentity(ptr, size, last);
    }
  }

  lemma GatherLoads(m: Mem, ptr: Word, size: nat, n: nat)
    requires n <= size && ptr % PAGE + size <= PAGES * PAGE && ptr + size <= WORD_SIZE
    ensures Gather(m, PageList(ptr, size), n) == Load(m, ptr, n)
  {
    forall k | 0 <= k < n
      ensures Gather(m, PageList(ptr, size), n)[k] == Load(m, ptr, n)[k]
    {
      PageWalkIsIdentity(ptr, size, k);
    }
  }
}
