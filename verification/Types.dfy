/** Vocabulary shared by every module: bytes, 32-bit words, endpoint addresses and errors. */
module Types {

  datatype Option<+T> = None | Some(value: T)

  type Byte = b: int | 0 <= b < 256

  /** A 32-bit word. Pointers and sizes are words too: the target is 32 bits wide. */
  type Word = w: int | 0 <= w < WORD_SIZE

  const WORD_SIZE: int := 0x1_0000_0000

  type Packet = seq<Byte>

  datatype Direction = Out | In

  datatype EndpointType = Control | Isochronous | Bulk | Interrupt

  /** The low seven bits of a USB endpoint address, and its direction bit. */
  datatype Address = Address(index: nat, dir: Direction)

  /** Eight endpoints, two directions each. */
  const MAX_ENDPOINTS: nat := 16

  /** Position of an address in the queue-head, descriptor and endpoint lists. */
  function Index(addr: Address): (slot: nat) {
    addr.index * 2 + (if addr.dir == In then 1 else 0)
  }

  function AddressOf(slot: nat): Address {
    Address(slot / 2, if slot % 2 == 1 then In else Out)
  }

  lemma IndexIsBijection(a: Address, b: Address, slot: nat)
    ensures AddressOf(Index(a)) == a
    ensures Index(AddressOf(slot)) == slot
    ensures Index(a) == Index(b) <==> a == b
  {
  }

  function Min(a: nat, b: nat): nat {
    if a <= b then a else b
  }

  /** Lists are put together in any order of the pluses. */
  lemma Joined<T>(a: seq<T>, b: seq<T>, c: seq<T>)
    ensures a + b + c == a + (b + c)
  {
  }

  datatype UsbError = WouldBlock | InvalidState | InvalidEndpoint | EndpointMemoryOverflow | EndpointOverflow

  datatype Result<+T> = Ok(value: T) | Err(error: UsbError)
}

/** Arithmetic of fields packed into words. Masking a field and shifting it down is a
  * division by its weight (two to its offset) and a remainder by its range. */
module Words {

  lemma DivMod(q: int, r: int, d: int)
    requires 0 <= r < d
    ensures (q * d + r) / d == q && (q * d + r) % d == r
  {
    Grows(q - (q * d + r) / d, d);
  }

  /** Two divisions, one after the other. */
  lemma DivDiv(w: nat, d: nat, m: nat)
    requires d > 0 && m > 0
    ensures d * m > 0 && w / d == w / (d * m) * m + w / d % m
  {
    var q := w / d;
    var p, t := q / m, q % m;
    assert t * d <= (m - 1) * d;
    assert w == p * (d * m) + (t * d + w % d);
    DivMod(p, t * d + w % d, d * m);
  }

  lemma Grows(k: int, d: int)
    requires d > 0
    ensures k >= 1 ==> k * d >= d
    ensures k <= -1 ==> k * d <= -d
  {
  }
}
