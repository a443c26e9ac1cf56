/** Transfer descriptors (src/td.rs): the words the controller reads by DMA, as a packed
  * class and as the decoded image that the rest of the model works on. */
module TransferDescriptor {
  import opened Types
  import opened Words

  /** The four flags that the driver and the controller use of the STATUS byte. */
  datatype Status = Status(active: bool, halted: bool, bufferError: bool, transactionError: bool) {
    predicate IsError() {
      halted || bufferError || transactionError
    }
  }

  const CLEAR := Status(false, false, false, false)
  const ACTIVE := Status(true, false, false, false)

  const PAGE: nat := 4096
  const PAGES: nat := 5

  /** The address of the first byte of page `k` of a transfer that starts at `ptr`. */
  function PageWord(ptr: Word, k: nat): (w: Word) {
    if k == 0 then ptr else (ptr - ptr % PAGE + k * PAGE) % WORD_SIZE
  }

  /** What `set_buffer` leaves in the five buffer pointers. */
  function PageList(ptr: Word, size: nat): (pages: seq<Word>)
    ensures |pages| == PAGES
  {
    seq(PAGES, k requires 0 <= k < PAGES => if size == 0 then 0 else PageWord(ptr, k))
  }

  /** The address the controller uses for byte `k` of a transfer (EHCI 1.0, section 3.5.4):
    * the offset in the first pointer, then the frames of the following pointers. */
  function PageByte(pages: seq<Word>, k: nat): (addr: int)
    requires |pages| == PAGES
  {
    var offset := pages[0] % PAGE + k;
    if offset / PAGE < PAGES
    then pages[offset / PAGE] - pages[offset / PAGE] % PAGE + offset % PAGE
    else -1
  }

  /** Walking the pointer list is the identity map on every transfer that five pages hold
    * and that does not run past the end of the address space. */
  lemma PageWalkIsIdentity(ptr: Word, size: nat, k: nat)
    requires k < size && ptr % PAGE + size <= PAGES * PAGE
    requires ptr + size <= WORD_SIZE
    ensures PageByte(PageList(ptr, size), k) == ptr + k
  {
    var offset := ptr % PAGE + k;
    var page := offset / PAGE;
    assert ptr - ptr % PAGE + page * PAGE + offset % PAGE == ptr + k;
    assert PageList(ptr, size)[0] == ptr;
    assert PageList(ptr, size)[page] == PageWord(ptr, page);
    PageWordIsAligned(ptr, page);
  }

  lemma PageWordIsAligned(ptr: Word, k: nat)
    requires ptr - ptr % PAGE + k * PAGE < WORD_SIZE
    ensures PageWord(ptr, k) - PageWord(ptr, k) % PAGE == ptr - ptr % PAGE + k * PAGE
  {
    if k > 0 {
      assert (ptr - ptr % PAGE) % PAGE == 0;
      assert (ptr - ptr % PAGE + k * PAGE) % PAGE == 0;
    }
  }

  /** One byte more than the five pages hold has no address. */
  lemma PageWalkStops(ptr: Word, size: nat, k: nat)
    requires size > 0 && ptr % PAGE + k >= PAGES * PAGE
    ensures PageByte(PageList(ptr, size), k) == -1
  {
    assert PageList(ptr, size)[0] == ptr;
  }

  /** The words of the list: the pointer as it is, then the addresses of the next four frames
    * of 4096 bytes. */
  lemma PageFrames(ptr: Word, size: nat, k: nat)
    requires size > 0 && k < 5
    ensures |PageList(ptr, size)| == 5
    ensures PageList(ptr, size)[k] == if k == 0 then ptr else (ptr / 4096 + k) * 4096 % 0x1_0000_0000
  {
    assert ptr == ptr / 4096 * 4096 + ptr % 4096;
  }

  /** A descriptor with its TOKEN word decoded. */
  datatype TdImage = TdImage(next: Word, status: Status, ioc: bool, total: nat, pages: seq<Word>, last: nat) {
    predicate WellFormed() {
      |pages| == PAGES && total < 0x8000
    }

    function SetTerminate(): TdImage {
      this.(next := 1)
    }

    function SetNext(td: Word): TdImage {
      this.(next := td)
    }

    /** The count is truncated to the 15 bits of TOTAL_BYTES; the size kept aside is not. */
    function SetBuffer(ptr: Word, size: nat): TdImage {
      this.(total := size % 0x8000, pages := PageList(ptr, size), last := size)
    }

    function SetInterruptOnComplete(on: bool): TdImage {
      this.(ioc := on)
    }

    function SetActive(): TdImage {
      this.(status := ACTIVE)
    }

    function ClearStatus(): TdImage {
      this.(status := CLEAR)
    }

    /** `last_transfer_size - TOTAL_BYTES`; a negative value is an underflow. */
    function BytesTransferred(): int {
      last - total
    }
  }

  const ZERO_TD := TdImage(0, CLEAR, false, 0, [0, 0, 0, 0, 0], 0)

  /** The STATUS byte: ACTIVE is bit 7, HALTED bit 6, DATA_BUFFER_ERROR bit 5 and
    * TRANSACTION_ERROR bit 3. The other bits are dropped when the driver reads it. */
  function DecodeStatus(b: nat): Status {
    Status(b / 128 % 2 == 1, b / 64 % 2 == 1, b / 32 % 2 == 1, b / 8 % 2 == 1)
  }

  /** Which flags make a transfer call refuse: HALTED, DATA_BUFFER_ERROR, TRANSACTION_ERROR. */
  lemma ErrorFlags(b: nat)
    requires b < 256
    ensures DecodeStatus(b).IsError() <==> b / 64 % 2 == 1 || b / 32 % 2 == 1 || b / 8 % 2 == 1
  {
  }

  function StatusByte(token: Word): nat {
    token % 256
  }

  function Ioc(token: Word): nat {
    token / 0x8000 % 2
  }

  function TotalBytes(token: Word): nat {
    token / 0x1_0000 % 0x8000
  }

  function WithStatusByte(token: Word, v: nat): int {
    token - StatusByte(token) + v
  }

  function WithIoc(token: Word, v: nat): int {
    token - Ioc(token) * 0x8000 + v * 0x8000
  }

  function WithTotalBytes(token: Word, v: nat): int {
    token - TotalBytes(token) * 0x1_0000 + v % 0x8000 * 0x1_0000
  }

  function DecodeToken(next: Word, token: Word, pages: seq<Word>, last: nat): TdImage {
    TdImage(next, DecodeStatus(StatusByte(token)), Ioc(token) == 1, TotalBytes(token), pages, last)
  }

  /** TOKEN put together from its fields and the bits between them. */
  function Token(status: nat, gap: nat, ioc: nat, total: nat, top: nat): int {
    status + gap * 256 + ioc * 0x8000 + total * 0x1_0000 + top * 0x8000_0000
  }

  lemma FieldsOfToken(status: nat, gap: nat, ioc: nat, total: nat, top: nat)
    requires status < 256 && gap < 128 && ioc < 2 && total < 0x8000 && top < 2
    ensures var t := Token(status, gap, ioc, total, top);
            0 <= t < WORD_SIZE && StatusByte(t) == status
            && Ioc(t) == ioc && TotalBytes(t) == total
  {
    var upper := total + top * 0x8000;
    DivMod(gap + ioc * 128 + upper * 256, status, 256);
    DivMod(ioc + upper * 2, status + gap * 256, 0x8000);
    DivMod(upper, ioc, 2);
    DivMod(upper, status + gap * 256 + ioc * 0x8000, 0x1_0000);
    DivMod(top, total, 0x8000);
  }

  lemma TokenOfFields(token: Word) returns (gap: nat, top: nat)
    ensures gap < 128 && top < 2
    ensures token == Token(StatusByte(token), gap, Ioc(token), TotalBytes(token), top)
  {
    gap, top := token / 256 % 128, token / 0x8000_0000;
    assert token == token / 256 * 256 + token % 256;
    assert token / 256 == token / 256 / 128 * 128 + gap;
    assert token / 256 / 128 == token / 0x8000;
    assert token / 0x8000 == token / 0x8000 / 2 * 2 + token / 0x8000 % 2;
    assert token / 0x8000 / 2 == token / 0x1_0000;
    assert token / 0x1_0000 == token / 0x1_0000 / 0x8000 * 0x8000 + token / 0x1_0000 % 0x8000;
    assert token / 0x1_0000 / 0x8000 == top;
  }

  /** Each read-modify-write of TOKEN stays a word, sets its own field (the count to the
    * truncated size), and leaves the two other fields alone. */
  lemma StatusByteIsIndependent(token: Word, v: nat)
    requires v < 256
    ensures var t := WithStatusByte(token, v);
            0 <= t < WORD_SIZE && StatusByte(t) == v
            && Ioc(t) == Ioc(token) && TotalBytes(t) == TotalBytes(token)
  {
    var gap, top := TokenOfFields(token);
    FieldsOfToken(v, gap, Ioc(token), TotalBytes(token), top);
  }

  lemma IocIsIndependent(token: Word, v: nat)
    requires v < 2
    ensures var t := WithIoc(token, v);
            0 <= t < WORD_SIZE && Ioc(t) == v
            && StatusByte(t) == StatusByte(token) && TotalBytes(t) == TotalBytes(token)
  {
    var gap, top := TokenOfFields(token);
    FieldsOfToken(StatusByte(token), gap, v, TotalBytes(token), top);
  }

  lemma TotalBytesIsIndependent(token: Word, v: nat)
    ensures var t := WithTotalBytes(token, v);
            0 <= t < WORD_SIZE && TotalBytes(t) == v % 0x8000
            && StatusByte(t) == StatusByte(token) && Ioc(t) == Ioc(token)
  {
    var gap, top := TokenOfFields(token);
    FieldsOfToken(StatusByte(token), gap, Ioc(token), v % 0x8000, top);
  }

  /** The descriptor as the driver owns it: four words of DMA memory and the size aside. */
  class Td {
    var NEXT: Word
    var TOKEN: Word
    const BUFFER_POINTERS: array<Word>
    var last_transfer_size: nat

    ghost predicate Valid()
      reads this
    {
      BUFFER_POINTERS.Length == PAGES
    }

    ghost function Image(): (td: TdImage)
      requires Valid()
      reads this, BUFFER_POINTERS
      ensures td.WellFormed()
    {
      DecodeToken(NEXT, TOKEN, BUFFER_POINTERS[..], last_transfer_size)
    }

    constructor ()
      ensures Valid() && fresh(BUFFER_POINTERS) && Image() == ZERO_TD
    {
      NEXT, TOKEN, last_transfer_size := 0, 0, 0;
      BUFFER_POINTERS := new Word[PAGES](_ => 0);
      new;
      assert BUFFER_POINTERS[..] == [0, 0, 0, 0, 0];
    }

    method SetBuffer(ptr: Word, size: nat)
      requires Valid() && size < WORD_SIZE
      modifies this`TOKEN, this`last_transfer_size, BUFFER_POINTERS
      ensures Image() == old(Image()).SetBuffer(ptr, size)
      ensures TOKEN / 0x1_0000 % 0x8000 == size % 0x8000 && last_transfer_size == size
      ensures forall k :: 0 <= k < 5 ==>
                BUFFER_POINTERS[k] == if size == 0 then 0
                                      else if k == 0 then ptr else (ptr / 4096 + k) * 4096 % 0x1_0000_0000
    {
      TotalBytesIsIndependent(TOKEN, size);
      TOKEN := WithTotalBytes(TOKEN, size);
      last_transfer_size := size;
      if size != 0 {
        BUFFER_POINTERS[0] := ptr;
        for idx := 1 to BUFFER_POINTERS.Length
          modifies BUFFER_POINTERS
          invariant forall k :: 0 <= k < idx ==> BUFFER_POINTERS[k] == PageWord(ptr, k)
        {
          var p := BUFFER_POINTERS[idx - 1];
          NextPage(ptr, idx);
          p := p - p % PAGE;
          BUFFER_POINTERS[idx] := (p + PAGE) % WORD_SIZE;
        }
      } else {
        for idx := 0 to BUFFER_POINTERS.Length
          modifies BUFFER_POINTERS
          invariant forall k :: 0 <= k < idx ==> BUFFER_POINTERS[k] == 0
        {
          BUFFER_POINTERS[idx] := 0;
        }
      }
      assert BUFFER_POINTERS[..] == PageList(ptr, size);
      forall k | 0 <= k < 5 && size > 0
        ensures BUFFER_POINTERS[k] == if k == 0 then ptr else (ptr / 4096 + k) * 4096 % 0x1_0000_0000
      {
        PageFrames(ptr, size, k);
      }
    }

    method BytesTransferred() returns (n: int)
      requires Valid()
      ensures n == Image().BytesTransferred() == last_transfer_size - TOKEN / 0x1_0000 % 0x8000
    {
      n := last_transfer_size - TotalBytes(TOKEN);
    }

    method ClearStatus()
      requires Valid()
      modifies this`TOKEN
      ensures Image() == old(Image()).ClearStatus()
      ensures TOKEN == old(TOKEN) - old(TOKEN) % 256 && Image().status == Status(false, false, false, false)
    {
      StatusByteIsIndependent(TOKEN, 0);
      TOKEN := WithStatusByte(TOKEN, 0);
    }

    method SetTerminate()
      requires Valid()
      modifies this`NEXT
      ensures Image() == old(Image()).SetTerminate() && NEXT == 1
    {
      NEXT := 1;
    }

    method SetNext(next: Word)
      requires Valid()
      modifies this`NEXT
      ensures Image() == old(Image()).SetNext(next) && NEXT == next
    {
      NEXT := next;
    }

    method SetActive()
      requires Valid()
      modifies this`TOKEN
      ensures Image() == old(Image()).SetActive()
      ensures TOKEN == old(TOKEN) - old(TOKEN) % 256 + 128 && Image().status == Status(true, false, false, false)
    {
      assert DecodeStatus(128) == ACTIVE;
      StatusByteIsIndependent(TOKEN, 128);
      TOKEN := WithStatusByte(TOKEN, 128);
    }

    method SetInterruptOnComplete(ioc: bool)
      requires Valid()
      modifies this`TOKEN
      ensures Image() == old(Image()).SetInterruptOnComplete(ioc)
      ensures TOKEN / 0x8000 % 2 == (if ioc then 1 else 0) && Image().ioc == ioc
    {
      IocIsIndependent(TOKEN, if ioc then 1 else 0);
      TOKEN := WithIoc(TOKEN, if ioc then 1 else 0);
    }
  }

  /** Masking the previous pointer and adding a page gives the next pointer, also when the
    * sum wraps. */
  lemma NextPage(ptr: Word, idx: nat)
    requires 0 < idx < PAGES
    ensures (PageWord(ptr, idx - 1) - PageWord(ptr, idx - 1) % PAGE + PAGE) % WORD_SIZE == PageWord(ptr, idx)
  {
    var frame := ptr - ptr % PAGE;
    assert frame % PAGE == 0;
    var p := frame + (idx - 1) * PAGE;
    assert p % PAGE == 0;
    assert p % WORD_SIZE == p || p % WORD_SIZE == p - WORD_SIZE;
    assert (p % WORD_SIZE) % PAGE == 0;
    assert (p % WORD_SIZE + PAGE) % WORD_SIZE == (p + PAGE) % WORD_SIZE;
  }

  /** A size below 0x8000 is never truncated, so the count left in the descriptor after `k`
    * bytes have moved gives back exactly `k`; and a size of 0x8000 or more always is, so
    * that before any byte has moved the driver already sees a wrong count. */
  lemma BytesTransferredIsExact(td: TdImage, ptr: Word, size: nat, k: nat)
    requires k <= size
    ensures size < 0x8000 <==> td.SetBuffer(ptr, size).BytesTransferred() == 0
    ensures size < 0x8000 ==>
              var done := td.SetBuffer(ptr, size);
              done.total >= k && done.(total := done.total - k).BytesTransferred() == k
  {
    assert size < 0x8000 ==> size % 0x8000 == size;
  }
}
