/** The registers of the controller that hold one bit, or one half word, per endpoint
  * direction: packed as the driver writes them, and as a record per list slot. */
module EndpointRegisters {
  import opened Types

  /** What the registers say about one slot. */
  datatype Reg = Reg(prime: bool, stat: bool, complete: bool, flush: bool, nak: bool,
                     enabled: bool, stalled: bool, kind: EndpointType) {
    function Prime(): Reg {
      this.(prime := true)
    }

    function ClearComplete(): Reg {
      this.(complete := false)
    }

    function ClearNak(): Reg {
      this.(nak := false)
    }

    function SetStalled(stall: bool): Reg {
      this.(stalled := stall)
    }

    function Enable(ty: EndpointType): Reg {
      this.(enabled := true, kind := ty)
    }

    /** Disabled, and parked as a bulk endpoint. */
    function Disable(): Reg {
      this.(enabled := false, kind := Bulk)
    }
  }

  const RESET_REG := Reg(false, false, false, false, false, false, false, Control)

  /** A 32-bit register, as the set of the positions of its ones: `&` is intersection, `|`
    * union, and `1 << k` the set holding `k`. */
  type Bits = s: set<nat> | forall b <- s :: b < 32

  /** The bit of a slot: in the low half of a register for an OUT endpoint, in its high half
    * for an IN endpoint. */
  function BitOf(slot: nat): (b: nat)
    requires slot < MAX_ENDPOINTS
    ensures b < 32
  {
    slot / 2 + (if slot % 2 == 1 then 16 else 0)
  }

  function Mask(slot: nat): Bits
    requires slot < MAX_ENDPOINTS
  {
    {BitOf(slot)}
  }

  /** Every slot has a bit of its own. */
  lemma MasksAreDisjoint(i: nat, j: nat)
    requires i < MAX_ENDPOINTS && j < MAX_ENDPOINTS
    ensures Mask(i) * Mask(j) != {} <==> i == j
  {
    if i != j {
      assert BitOf(i) != BitOf(j);
    } else {
      assert BitOf(i) in Mask(i) * Mask(j);
    }
  }

  /** Writing ones to bits that clear on ones, and to bits that set on ones. */
  function Write1ToClear(w: Bits, mask: Bits): Bits {
    w - mask
  }

  function Write1ToSet(w: Bits, mask: Bits): Bits {
    w + mask
  }

  predicate Test(w: Bits, slot: nat)
    requires slot < MAX_ENDPOINTS
  {
    w * Mask(slot) != {}
  }

  lemma TestIsMembership(w: Bits, slot: nat)
    requires slot < MAX_ENDPOINTS
    ensures Test(w, slot) <==> BitOf(slot) in w
  {
    assert BitOf(slot) in w ==> BitOf(slot) in w * Mask(slot);
  }

  lemma WritesAreLocal(w: Bits, i: nat, j: nat)
    requires i < MAX_ENDPOINTS && j < MAX_ENDPOINTS
    ensures Test(Write1ToClear(w, Mask(i)), j) == (i != j && Test(w, j))
    ensures Test(Write1ToSet(w, Mask(i)), j) == (i == j || Test(w, j))
  {
    TestIsMembership(w, j);
    TestIsMembership(Write1ToClear(w, Mask(i)), j);
    TestIsMembership(Write1ToSet(w, Mask(i)), j);
    assert BitOf(i) == BitOf(j) <==> i == j;
  }

  const TX_FIELD: Bits := {16, 17, 18, 19, 20, 21, 22, 23}

  // The bits of ENDPTCTRL, in its receive half; the transmit half is 16 higher. The toggle
  // reset bits read as zero.
  const STALL: nat := 0
  const TYPE: nat := 2
  const TOGGLE_RESET: nat := 6
  const ENABLE: nat := 7

  function Base(dir: Direction): nat {
    if dir == In then 16 else 0
  }

  /** The two low bits of a descriptor's attributes, moved up by `at`. */
  function RawType(kind: EndpointType, at: nat): (raw: set<nat>) {
    match kind
    case Control => {}
    case Isochronous => {at}
    case Bulk => {at + 1}
    case Interrupt => {at, at + 1}
  }

  function DecodeType(ctrl: Bits, at: nat): EndpointType {
    if at + 1 in ctrl
    then if at in ctrl then Interrupt else Bulk
    else if at in ctrl then Isochronous else Control
  }

  /** A read-modify-write of the fields in `mask`; toggle resets do not stick. */
  function Modify(w: Bits, mask: set<nat>, value: set<nat>): Bits
    requires forall b <- mask :: b < 32
  {
    (w - mask) + value * mask - {TOGGLE_RESET, 16 + TOGGLE_RESET}
  }

  datatype Half = Half(enabled: bool, stalled: bool, kind: EndpointType)

  function HalfOf(ctrl: Bits, dir: Direction): Half {
    var base := Base(dir);
    Half(base + ENABLE in ctrl, base + STALL in ctrl, DecodeType(ctrl, base + TYPE))
  }

  function Stall(ctrl: Bits, dir: Direction, stall: bool): Bits {
    var base := Base(dir);
    Modify(ctrl, {base + STALL}, if stall then {base + STALL} else {})
  }

  function EnableHalf(ctrl: Bits, dir: Direction, kind: EndpointType): Bits {
    var base := Base(dir);
    Modify(ctrl, {base + ENABLE, base + TOGGLE_RESET, base + TYPE, base + TYPE + 1},
           {base + ENABLE, base + TOGGLE_RESET} + RawType(kind, base + TYPE))
  }

  function DisableHalf(ctrl: Bits, dir: Direction): Bits {
    var base := Base(dir);
    Modify(ctrl, {base + ENABLE, base + TYPE, base + TYPE + 1}, RawType(Bulk, base + TYPE))
  }

  /** Each update of ENDPTCTRL does its work on its own half. */
  lemma StallOwnHalf(ctrl: Bits, dir: Direction, stall: bool)
    ensures HalfOf(Stall(ctrl, dir, stall), dir) == HalfOf(ctrl, dir).(stalled := stall)
  {
  }

  lemma EnableOwnHalf(ctrl: Bits, dir: Direction, kind: EndpointType)
    ensures HalfOf(EnableHalf(ctrl, dir, kind), dir) == HalfOf(ctrl, dir).(enabled := true, kind := kind)
  {
  }

  lemma DisableOwnHalf(ctrl: Bits, dir: Direction)
    ensures HalfOf(DisableHalf(ctrl, dir), dir) == HalfOf(ctrl, dir).(enabled := false, kind := Bulk)
  {
  }

  /** The words themselves: which bits of ENDPTCTRL an update of a slot's half leaves. */
  lemma StallWord(w: Bits, slot: nat, stall: bool)
    ensures Stall(w, AddressOf(slot).dir, stall)
            == if slot % 2 == 1 then w - {6, 16, 22} + (if stall then {16} else {}) else w - {0, 6, 22} + (if stall then {0} else {})
  {
  }

  lemma EnableWord(w: Bits, slot: nat, kind: EndpointType)
    ensures EnableHalf(w, AddressOf(slot).dir, kind)
            == if slot % 2 == 1 then w - {6, 18, 19, 22} + {23} + TypeBits(kind, 18, 19)
               else w - {2, 3, 6, 22} + {7} + TypeBits(kind, 2, 3)
  {
  }

  lemma DisableWord(w: Bits, slot: nat)
    ensures DisableHalf(w, AddressOf(slot).dir) == if slot % 2 == 1 then w - {6, 18, 22, 23} + {19} else w - {2, 6, 7, 22} + {3}
  {
  }

  /** The type of an endpoint in ENDPTCTRL: control 0, isochronous 1, bulk 2, interrupt 3. */
  function TypeBits(kind: EndpointType, low: nat, high: nat): (r: set<nat>)
    ensures low != high ==>
              (if low in r then 1 else 0) + (if high in r then 2 else 0)
              == match kind case Control => 0 case Isochronous => 1 case Bulk => 2 case Interrupt => 3
    ensures r <= {low, high}
  {
    (if kind.Isochronous? || kind.Interrupt? then {low} else {}) + (if kind.Bulk? || kind.Interrupt? then {high} else {})
  }

  function Opposite(dir: Direction): Direction {
    if dir == In then Out else In
  }

  /** And it keeps the enable bit, the stall bit and the type of the other half. */
  lemma StallKeepsOtherHalf(ctrl: Bits, dir: Direction, stall: bool)
    ensures HalfOf(Stall(ctrl, dir, stall), Opposite(dir)) == HalfOf(ctrl, Opposite(dir))
  {
  }

  lemma EnableKeepsOtherHalf(ctrl: Bits, dir: Direction, kind: EndpointType)
    ensures HalfOf(EnableHalf(ctrl, dir, kind), Opposite(dir)) == HalfOf(ctrl, Opposite(dir))
  {
  }

  lemma DisableKeepsOtherHalf(ctrl: Bits, dir: Direction)
    ensures HalfOf(DisableHalf(ctrl, dir), Opposite(dir)) == HalfOf(ctrl, Opposite(dir))
  {
  }

  /** The packed registers. */
  class RegisterFile {
    var ENDPTPRIME: Bits
    var ENDPTSTAT: Bits
    var ENDPTCOMPLETE: Bits
    var ENDPTFLUSH: Bits
    var ENDPTNAK: Bits
    var ENDPTCTRL: seq<Bits>

    ghost predicate Valid()
      reads this
    {
      |ENDPTCTRL| == 8
    }

    ghost function Record(slot: nat): Reg
      requires Valid() && slot < MAX_ENDPOINTS
      reads this
    {
      var half := HalfOf(ENDPTCTRL[slot / 2], AddressOf(slot).dir);
      Reg(Test(ENDPTPRIME, slot), Test(ENDPTSTAT, slot), Test(ENDPTCOMPLETE, slot), Test(ENDPTFLUSH, slot),
          Test(ENDPTNAK, slot), half.enabled, half.stalled, half.kind)
    }

    /** The record of every slot but one is what it was. */
    twostate predicate OthersUnchanged(slot: nat)
      requires old(Valid()) && Valid()
      reads this
    {
      forall j :: 0 <= j < MAX_ENDPOINTS && j != slot ==> Record(j) == old(Record(j))
    }

    constructor ()
      ensures Valid()
      ensures forall j :: 0 <= j < MAX_ENDPOINTS ==> Record(j) == RESET_REG
    {
      ENDPTPRIME, ENDPTSTAT, ENDPTCOMPLETE, ENDPTFLUSH, ENDPTNAK := {}, {}, {}, {}, {};
      ENDPTCTRL := [{}, {}, {}, {}, {}, {}, {}, {}];
    }

    /** The masked test finds the one bit of the slot, whatever the other bits are. */
    method IsPrimed(slot: nat) returns (r: bool)
      requires Valid() && slot < MAX_ENDPOINTS
      ensures r <==> (if slot % 2 == 1 then slot / 2 + 16 else slot / 2) in ENDPTSTAT
    {
      TestIsMembership(ENDPTSTAT, slot);
      r := ENDPTSTAT * Mask(slot) != {};
    }

    method WritePrime(slot: nat)
      requires Valid() && slot < MAX_ENDPOINTS
      modifies this`ENDPTPRIME
      ensures Valid() && Record(slot) == old(Record(slot)).Prime() && OthersUnchanged(slot)
      ensures ENDPTPRIME == old(ENDPTPRIME) + {if slot % 2 == 1 then slot / 2 + 16 else slot / 2}
    {
      forall j | 0 <= j < MAX_ENDPOINTS { WritesAreLocal(ENDPTPRIME, slot, j); }
      ENDPTPRIME := Write1ToSet(ENDPTPRIME, Mask(slot));
    }

    method ClearComplete(slot: nat)
      requires Valid() && slot < MAX_ENDPOINTS
      modifies this`ENDPTCOMPLETE
      ensures Valid() && Record(slot) == old(Record(slot)).ClearComplete() && OthersUnchanged(slot)
      ensures ENDPTCOMPLETE == old(ENDPTCOMPLETE) - {if slot % 2 == 1 then slot / 2 + 16 else slot / 2}
    {
      forall j | 0 <= j < MAX_ENDPOINTS { WritesAreLocal(ENDPTCOMPLETE, slot, j); }
      ENDPTCOMPLETE := Write1ToClear(ENDPTCOMPLETE, Mask(slot));
    }

    method ClearNak(slot: nat)
      requires Valid() && slot < MAX_ENDPOINTS
      modifies this`ENDPTNAK
      ensures Valid() && Record(slot) == old(Record(slot)).ClearNak() && OthersUnchanged(slot)
      ensures ENDPTNAK == old(ENDPTNAK) - {if slot % 2 == 1 then slot / 2 + 16 else slot / 2}
    {
      forall j | 0 <= j < MAX_ENDPOINTS { WritesAreLocal(ENDPTNAK, slot, j); }
      ENDPTNAK := Write1ToClear(ENDPTNAK, Mask(slot));
    }

    /** The write with which a poll acknowledges the transmit completions it has read:
      * it clears exactly those, and no receive completion. */
    method AcknowledgeIn(read: Bits)
      requires Valid()
      modifies this`ENDPTCOMPLETE
      ensures Valid()
      ensures forall j :: 0 <= j < MAX_ENDPOINTS ==>
                Record(j) == if j % 2 == 1 && Test(read, j) then old(Record(j)).ClearComplete() else old(Record(j))
      ensures forall b :: b in ENDPTCOMPLETE <==> b in old(ENDPTCOMPLETE) && !(b in read && 16 <= b < 24)
    {
      forall j | 0 <= j < MAX_ENDPOINTS { FieldOfSlot(ENDPTCOMPLETE, read, j); }
      ENDPTCOMPLETE := Write1ToClear(ENDPTCOMPLETE, read * TX_FIELD);
    }

    method SetStalled(slot: nat, stall: bool)
      requires Valid() && slot < MAX_ENDPOINTS
      modifies this`ENDPTCTRL
      ensures Valid() && Record(slot) == old(Record(slot)).SetStalled(stall) && OthersUnchanged(slot)
      ensures ENDPTCTRL == old(ENDPTCTRL)[slot / 2 := ENDPTCTRL[slot / 2]]
      ensures var w := old(ENDPTCTRL)[slot / 2];
              ENDPTCTRL[slot / 2] == if slot % 2 == 1 then w - {6, 16, 22} + (if stall then {16} else {})
                                     else w - {0, 6, 22} + (if stall then {0} else {})
    {
      StallWord(ENDPTCTRL[slot / 2], slot, stall);
      StallOwnHalf(ENDPTCTRL[slot / 2], AddressOf(slot).dir, stall);
      StallKeepsOtherHalf(ENDPTCTRL[slot / 2], AddressOf(slot).dir, stall);
      ENDPTCTRL := ENDPTCTRL[slot / 2 := Stall(ENDPTCTRL[slot / 2], AddressOf(slot).dir, stall)];
    }

    method Enable(slot: nat, kind: EndpointType)
      requires Valid() && slot < MAX_ENDPOINTS
      modifies this`ENDPTCTRL
      ensures Valid() && Record(slot) == old(Record(slot)).Enable(kind) && OthersUnchanged(slot)
      ensures ENDPTCTRL == old(ENDPTCTRL)[slot / 2 := ENDPTCTRL[slot / 2]]
      ensures var w := old(ENDPTCTRL)[slot / 2];
              ENDPTCTRL[slot / 2] == if slot % 2 == 1 then w - {6, 18, 19, 22} + {23} + TypeBits(kind, 18, 19)
                                     else w - {2, 3, 6, 22} + {7} + TypeBits(kind, 2, 3)
    {
      EnableWord(ENDPTCTRL[slot / 2], slot, kind);
      EnableOwnHalf(ENDPTCTRL[slot / 2], AddressOf(slot).dir, kind);
      EnableKeepsOtherHalf(ENDPTCTRL[slot / 2], AddressOf(slot).dir, kind);
      ENDPTCTRL := ENDPTCTRL[slot / 2 := EnableHalf(ENDPTCTRL[slot / 2], AddressOf(slot).dir, kind)];
    }

    method Disable(slot: nat)
      requires Valid() && slot < MAX_ENDPOINTS
      modifies this`ENDPTCTRL
      ensures Valid() && Record(slot) == old(Record(slot)).Disable() && OthersUnchanged(slot)
      ensures ENDPTCTRL == old(ENDPTCTRL)[slot / 2 := ENDPTCTRL[slot / 2]]
      ensures var w := old(ENDPTCTRL)[slot / 2];
              ENDPTCTRL[slot / 2] == if slot % 2 == 1 then w - {6, 18, 22, 23} + {19} else w - {2, 6, 7, 22} + {3}
    {
      DisableWord(ENDPTCTRL[slot / 2], slot);
      DisableOwnHalf(ENDPTCTRL[slot / 2], AddressOf(slot).dir);
      DisableKeepsOtherHalf(ENDPTCTRL[slot / 2], AddressOf(slot).dir);
      ENDPTCTRL := ENDPTCTRL[slot / 2 := DisableHalf(ENDPTCTRL[slot / 2], AddressOf(slot).dir)];
    }
  }

  lemma FieldOfSlot(w: Bits, read: Bits, j: nat)
    requires j < MAX_ENDPOINTS
    ensures Test(Write1ToClear(w, read * TX_FIELD), j) == (Test(w, j) && !(j % 2 == 1 && Test(read, j)))
  {
    TestIsMembership(w, j);
    TestIsMembership(read, j);
    TestIsMembership(Write1ToClear(w, read * TX_FIELD), j);
    assert BitOf(j) in TX_FIELD <==> j % 2 == 1;
  }

  /** The register writes that an endpoint makes. */
  datatype RegOp = Prime | ClearComplete | ClearNak | SetStalled(stall: bool) | Enable(kind: EndpointType) | Disable

  datatype Packed = Packed(prime: Bits, complete: Bits, nak: Bits, ctrl: seq<Bits>)

  /** The words after an endpoint's write. ENDPTCTRL is shared by the two directions of an
    * index, the other registers by all endpoints. */
  function Write(p: Packed, slot: nat, op: RegOp): (p': Packed)
    requires slot < MAX_ENDPOINTS && |p.ctrl| == 8
    ensures |p'.ctrl| == 8
  {
    match op
    case Prime => p.(prime := Write1ToSet(p.prime, Mask(slot)))
    case ClearComplete => p.(complete := Write1ToClear(p.complete, Mask(slot)))
    case ClearNak => p.(nak := Write1ToClear(p.nak, Mask(slot)))
    case _ => p.(ctrl := CtrlWrite(p.ctrl, slot, op))
  }

  function HalfWrite(ctrl: Bits, dir: Direction, op: RegOp): Bits {
    match op
    case SetStalled(stall) => Stall(ctrl, dir, stall)
    case Enable(kind) => EnableHalf(ctrl, dir, kind)
    case Disable => DisableHalf(ctrl, dir)
    case _ => ctrl
  }

  /** Writes for different endpoints commute, although they share words. */
  lemma WritesCommute(p: Packed, i: nat, j: nat, a: RegOp, b: RegOp)
    requires i < MAX_ENDPOINTS && j < MAX_ENDPOINTS && i != j && |p.ctrl| == 8
    ensures Write(Write(p, i, a), j, b) == Write(Write(p, j, b), i, a)
  {
    BitWritesCommute(p.prime, i, j);
    BitWritesCommute(p.complete, i, j);
    BitWritesCommute(p.nak, i, j);
    CtrlWritesCommute(p.ctrl, i, j, a, b);
  }

  lemma BitWritesCommute(w: Bits, i: nat, j: nat)
    requires i < MAX_ENDPOINTS && j < MAX_ENDPOINTS
    ensures Write1ToClear(Write1ToClear(w, Mask(i)), Mask(j)) == Write1ToClear(Write1ToClear(w, Mask(j)), Mask(i))
    ensures Write1ToSet(Write1ToSet(w, Mask(i)), Mask(j)) == Write1ToSet(Write1ToSet(w, Mask(j)), Mask(i))
  {
  }

  function CtrlWrite(ctrl: seq<Bits>, slot: nat, op: RegOp): (r: seq<Bits>)
    requires slot < MAX_ENDPOINTS && |ctrl| == 8
    ensures |r| == 8
  {
    ctrl[slot / 2 := HalfWrite(ctrl[slot / 2], AddressOf(slot).dir, op)]
  }

  lemma CtrlWritesCommute(ctrl: seq<Bits>, i: nat, j: nat, a: RegOp, b: RegOp)
    requires i < MAX_ENDPOINTS && j < MAX_ENDPOINTS && i != j && |ctrl| == 8
    ensures CtrlWrite(CtrlWrite(ctrl, i, a), j, b) == CtrlWrite(CtrlWrite(ctrl, j, b), i, a)
  {
    if i / 2 == j / 2 {
      HalfWritesCommute(ctrl[i / 2], a, b);
      HalfWritesCommute(ctrl[i / 2], b, a);
    }
  }

  lemma HalfWritesCommute(ctrl: Bits, a: RegOp, b: RegOp)
    ensures HalfWrite(HalfWrite(ctrl, Out, a), In, b) == HalfWrite(HalfWrite(ctrl, In, b), Out, a)
  {
  }
}
