/** Queue heads (src/qh.rs): the CAPABILITIES word, and the overlay through which the
  * controller finds the descriptor of a transfer. */
module QueueHead {
  import opened Types
  import opened Words
  import opened TransferDescriptor

  /** Packets never exceed this, whatever the size of the buffer behind the endpoint. */
  const MAX_PACKET_LEN: nat := 1024

  function Clamp(len: nat): nat {
    Min(len, MAX_PACKET_LEN)
  }

  /** An endpoint's packets are as long as its buffer, up to 1024 bytes, which the 11 bits of
    * the field hold. */
  lemma PacketLength(len: nat)
    ensures Clamp(len) == (if len <= 1024 then len else 1024) < 0x800
  {
  }

  /** A queue head with CAPABILITIES decoded. `current` is the descriptor that the
    * controller has loaded. */
  datatype QhImage = QhImage(zltDisabled: bool, maxPacket: nat, ios: bool, current: Word, overlay: TdImage) {
    function SetMaxPacketLen(len: nat): QhImage {
      this.(maxPacket := Clamp(len))
    }

    function SetZeroLengthTermination(zlt: bool): QhImage {
      this.(zltDisabled := !zlt)
    }

    function SetInterruptOnSetup(on: bool): QhImage {
      this.(ios := on)
    }
  }

  const ZERO_QH := QhImage(false, 0, false, 0, ZERO_TD)

  function Ios(caps: Word): nat {
    caps / 0x8000 % 2
  }

  function MaxPacket(caps: Word): nat {
    caps / 0x1_0000 % 0x800
  }

  function Zlt(caps: Word): nat {
    caps / 0x2000_0000 % 2
  }

  function WithIos(caps: Word, v: nat): int {
    caps - Ios(caps) * 0x8000 + v * 0x8000
  }

  function WithMaxPacket(caps: Word, v: nat): int {
    caps - MaxPacket(caps) * 0x1_0000 + v % 0x800 * 0x1_0000
  }

  function WithZlt(caps: Word, v: nat): int {
    caps - Zlt(caps) * 0x2000_0000 + v * 0x2000_0000
  }

  /** CAPABILITIES put together from its fields and the bits around them. */
  function Capabilities(low: nat, ios: nat, max: nat, gap: nat, zlt: nat, top: nat): int {
    low + ios * 0x8000 + max * 0x1_0000 + gap * 0x800_0000 + zlt * 0x2000_0000 + top * 0x4000_0000
  }

  lemma FieldsOfCapabilities(low: nat, ios: nat, max: nat, gap: nat, zlt: nat, top: nat)
    requires low < 0x8000 && ios < 2 && max < 0x800 && gap < 4 && zlt < 2 && top < 4
    ensures var c := Capabilities(low, ios, max, gap, zlt, top);
            0 <= c < WORD_SIZE && Ios(c) == ios && MaxPacket(c) == max && Zlt(c) == zlt
  {
    var upper := gap + zlt * 4 + top * 8;
    DivMod(ios + max * 2 + upper * 0x1000, low, 0x8000);
    DivMod(max + upper * 0x800, ios, 2);
    DivMod(max + upper * 0x800, low + ios * 0x8000, 0x1_0000);
    DivMod(upper, max, 0x800);
    DivMod(zlt + top * 2, low + ios * 0x8000 + max * 0x1_0000 + gap * 0x800_0000, 0x2000_0000);
    DivMod(top, zlt, 2);
  }

  lemma CapabilitiesOfFields(caps: Word) returns (low: nat, gap: nat, top: nat)
    ensures low < 0x8000 && gap < 4 && top < 4
    ensures caps == Capabilities(low, Ios(caps), MaxPacket(caps), gap, Zlt(caps), top)
  {
    low, gap, top := caps % 0x8000, caps / 0x800_0000 % 4, caps / 0x4000_0000;
    DivDiv(caps, 0x8000, 2);
    DivDiv(caps, 0x1_0000, 0x800);
    DivDiv(caps, 0x800_0000, 4);
    DivDiv(caps, 0x2000_0000, 2);
  }

  /** Each read-modify-write of CAPABILITIES sets its own field and leaves the others alone. */
  lemma IosIsIndependent(caps: Word, v: nat)
    requires v < 2
    ensures var c := WithIos(caps, v);
            0 <= c < WORD_SIZE && Ios(c) == v && MaxPacket(c) == MaxPacket(caps) && Zlt(c) == Zlt(caps)
  {
    var low, gap, top := CapabilitiesOfFields(caps);
    FieldsOfCapabilities(low, v, MaxPacket(caps), gap, Zlt(caps), top);
  }

  lemma MaxPacketIsIndependent(caps: Word, v: nat)
    ensures var c := WithMaxPacket(caps, v);
            0 <= c < WORD_SIZE && MaxPacket(c) == v % 0x800 && Ios(c) == Ios(caps) && Zlt(c) == Zlt(caps)
  {
    var low, gap, top := CapabilitiesOfFields(caps);
    FieldsOfCapabilities(low, Ios(caps), v % 0x800, gap, Zlt(caps), top);
  }

  lemma ZltIsIndependent(caps: Word, v: nat)
    requires v < 2
    ensures var c := WithZlt(caps, v);
            0 <= c < WORD_SIZE && Zlt(c) == v && MaxPacket(c) == MaxPacket(caps) && Ios(c) == Ios(caps)
  {
    var low, gap, top := CapabilitiesOfFields(caps);
    FieldsOfCapabilities(low, Ios(caps), MaxPacket(caps), gap, v, top);
  }

  class Qh {
    var CAPABILITIES: Word
    var current_td_pointer: Word
    const overlay: Td

    ghost predicate Valid()
      reads this, overlay
    {
      overlay.Valid()
    }

    ghost function Image(): (qh: QhImage)
      requires Valid()
      reads this, overlay, overlay.BUFFER_POINTERS
    {
      QhImage(Zlt(CAPABILITIES) == 1, MaxPacket(CAPABILITIES), Ios(CAPABILITIES) == 1, current_td_pointer, overlay.Image())
    }

    constructor ()
      ensures Valid() && fresh(overlay) && fresh(overlay.BUFFER_POINTERS) && Image() == ZERO_QH
    {
      CAPABILITIES, current_td_pointer := 0, 0;
      overlay := new Td();
    }

    method SetMaxPacketLen(len: nat)
      requires Valid()
      modifies this`CAPABILITIES
      ensures Image() == old(Image()).SetMaxPacketLen(len)
      ensures CAPABILITIES / 0x1_0000 % 0x800 == Image().maxPacket == if len <= 1024 then len else 1024
    {
      MaxPacketIsIndependent(CAPABILITIES, Clamp(len));
      CAPABILITIES := WithMaxPacket(CAPABILITIES, Clamp(len));
    }

    method MaxPacketLen() returns (len: nat)
      requires Valid()
      ensures len == Image().maxPacket
    {
      len := MaxPacket(CAPABILITIES);
    }

    method SetZeroLengthTermination(zlt: bool)
      requires Valid()
      modifies this`CAPABILITIES
      ensures Image() == old(Image()).SetZeroLengthTermination(zlt)
      ensures CAPABILITIES / 0x2000_0000 % 2 == (if zlt then 0 else 1) && Image().zltDisabled == !zlt
    {
      ZltIsIndependent(CAPABILITIES, if zlt then 0 else 1);
      CAPABILITIES := WithZlt(CAPABILITIES, if zlt then 0 else 1);
    }

    method SetInterruptOnSetup(ios: bool)
      requires Valid()
      modifies this`CAPABILITIES
      ensures Image() == old(Image()).SetInterruptOnSetup(ios)
      ensures CAPABILITIES / 0x8000 % 2 == (if ios then 1 else 0) && Image().ios == ios
    {
      IosIsIndependent(CAPABILITIES, if ios then 1 else 0);
      CAPABILITIES := WithIos(CAPABILITIES, if ios then 1 else 0);
    }
  }
}
