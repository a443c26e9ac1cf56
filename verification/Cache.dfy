/** Cache maintenance (src/cache.rs): which bytes the line loop reaches. */
module Cache {
  import opened Buffers

  const LINE: nat := 32

  /** The lines that hold at least one byte of a range. */
  function NumLines(size: nat): (n: nat)
    ensures n * LINE >= size && (size > 0 ==> (n - 1) * LINE < size)
  {
    if size == 0 then 0 else (size - 1) / LINE + 1
  }

  /** The loop: one register write per line, each with the address of the line, from the one
    * that holds `addr`.*/
  method CleanInvalidate(addr: nat, size: nat) returns (lines: seq<nat>)
    ensures |lines| == NumLines(size) == (size + 31) / 32
    ensures forall k :: 0 <= k < |lines| ==> lines[k] == addr - addr % LINE + k * LINE == (addr / 32 + k) * 32
  {
    lines := [];
    if size == 0 {
      return;
    }
    var num := (size - 1) / LINE + 1;
    var at := addr - addr % LINE;
    for k := 0 to num
      invariant |lines| == k && at == addr - addr % LINE + k * LINE
      invariant forall j :: 0 <= j < k ==> lines[j] == addr - addr % LINE + j * LINE
    {
      lines := lines + [at];
      at := at + LINE;
    }
  }

  /** The loop reaches byte `a`. */
  ghost predicate Reached(addr: nat, size: nat, a: nat) {
    exists k: nat :: k < NumLines(size) && InLine(addr - addr % LINE + k * LINE, a)
  }

  ghost predicate InLine(line: int, a: nat) {
    line <= a < line + LINE
  }

  /** The lines follow one another without gaps. */
  lemma ReachedRange(addr: nat, size: nat, a: nat)
    ensures var first := addr - addr % LINE;
            Reached(addr, size, a) <==> first <= a < first + NumLines(size) * LINE
  {
    var first := addr - addr % LINE;
    if first <= a < first + NumLines(size) * LINE {
      var k := (a - first) / LINE;
      assert InLine(first + k * LINE, a);
    }
  }

  /** The routine promises to finish once `size` bytes have been maintained; it maintains the
    * range from `addr` if and only if the range's first line has room for the rest of its
    * last. */
  lemma CoversRange(addr: nat, size: nat)
    ensures (forall a :: addr <= a < addr + size ==> Reached(addr, size, a))
            <==> size == 0 || addr % LINE + size <= NumLines(size) * LINE
  {
    forall a: nat ensures Reached(addr, size, a) <==> addr - addr % LINE <= a < addr - addr % LINE + NumLines(size) * LINE {
      ReachedRange(addr, size, a);
    }
    if size > 0 && addr % LINE + size > NumLines(size) * LINE {
      assert !Reached(addr, size, addr + size - 1);
    }
  }

  /** A range of two bytes that straddles two lines: the second byte is missed. */
  lemma StraddlingRangeIsMissed()
    ensures !Reached(31, 2, 32)
  {
    ReachedRange(31, 2, 32);
  }

  /** In an arena whose end lies on a line, handed out in multiples of the line, every buffer
    * starts and ends on one. */
  lemma {:induction false} BuffersAreAligned(given: seq<Buffer>, low: nat, high: nat, i: nat)
    requires Stacked(given, low, high) && high % LINE == 0 && i < |given|
    requires forall b <- given :: b.len % LINE == 0
    ensures low % LINE == 0 && given[i].ptr % LINE == 0 && given[i].End() % LINE == 0
  {
    var older := given[..|given| - 1];
    var newest := given[|given| - 1];
    assert newest in given;
    if older == [] {
      assert newest.End() == high;
    } else {
      assert forall b <- older :: b in given;
      BuffersAreAligned(older, newest.End(), high, if i < |older| then i else 0);
    }
    assert (newest.End() - newest.len) % LINE == 0;
  }

  /** The lines of a prefix stay within whole lines. */
  lemma PrefixLines(len: nat, n: nat)
    requires len % LINE == 0 && n <= len
    ensures n <= NumLines(n) * LINE <= len
  {
  }

  /** There, cleaning any prefix of a buffer reaches the whole prefix, and no byte of another
    * buffer. */
  lemma CleaningStaysInside(given: seq<Buffer>, low: nat, high: nat, i: nat, j: nat, n: nat, a: nat)
    requires Stacked(given, low, high) && high % LINE == 0 && i < |given| && j < |given| && i != j && n <= given[i].len
    requires forall b <- given :: b.len % LINE == 0
    ensures given[i].ptr <= a < given[i].ptr + n ==> Reached(given[i].ptr, n, a)
    ensures given[j].ptr <= a < given[j].End() ==> !Reached(given[i].ptr, n, a)
  {
    BuffersAreAligned(given, low, high, i);
    ArenaConservation(given, low, high);
    ReachedRange(given[i].ptr, n, a);
    PrefixLines(given[i].len, n);
    assert given[i].Disjoint(given[j]) || given[j].Disjoint(given[i]);
  }
}
