/** The bus (src/bus.rs): the calls of the USB stack, guarded and passed on to the driver. */
module BusModel {
  import opened Types
  import opened Device
  import opened Invariant
  import opened Agreement
  import opened Runs
  import opened EndpointDriver
  import opened CallEffects
  import opened Calls
  import opened DriverModel

  /** The types of the stack let only OUT endpoints be read and IN endpoints be written. Both
    * control endpoints are allocated before anything else; the source panics without them,
    * and on a question about the stall of an endpoint that is not allocated. */
  predicate Proper(c: Config, call: Call) {
    match call
    case ReadCall(addr, _) => addr.dir == Out
    case WriteCall(addr, _) => addr.dir == In && (addr.index == 0 ==> Allocated(c, 0))
    case IsStalledCall(addr) => Index(addr) < MAX_ENDPOINTS && Allocated(c, Index(addr))
    case _ => true
  }

  /** What a call demands of the state. */
  ghost predicate MayCall(c: Config, call: Call, s: St) {
    Proper(c, call) && (call.ConfigureCall? ==> DataOutQuiet(c, s))
  }

  class Bus {
    const usb: Driver

    ghost predicate Valid()
      reads usb, usb.usb
    {
      usb.Valid()
    }

    ghost function S(): St
      reads usb, usb.usb
    {
      usb.usb.s
    }

    constructor (usb: Driver)
      requires usb.Valid()
      ensures this.usb == usb && Valid()
    {
      this.usb := usb;
    }

    /** `seen` is the state in which the call looks at USBSTS. A reset, and everything else, is
      * acknowledged only if it is up (see `Legal`). */
    method Poll() returns (r: PollResult, ghost seen: St)
      requires Valid()
      modifies usb`epOut, usb.usb`s, usb.usb`run, usb.usb`script
      ensures Valid() && Step(usb.usb.c, PollCall, PollReply(r), Looks(old(S()), old(S())), old(S()), S())
      ensures Rely(usb.usb.c, old(S()), seen) && (r == Reset <==> seen.uri) && (r == NoEvent <==> !seen.uri && !seen.ui)
      ensures Ops(usb.usb.run) == Ops(old(usb.usb.run)) + (match r
                                                           case NoEvent => []
                                                           case Reset => [AckReset]
                                                           case Data(_, _, _) => [AckInterrupt, PollOut, PollIn, AckIn, PollSetup])
    {
      ghost var c, s0 := usb.usb.c, S();
      r, seen := usb.Poll();
      if r.Data? {
        PolledStep(c, r, s0, S());
      } else {
        if r == NoEvent {
          RelyIsAllRely(c, s0, S());
        }
        QuietCall(c, PollCall, PollReply(r), s0, S());
      }
    }

    /** An endpoint that is not allocated is refused, and nothing happens. Endpoint zero reads
      * setup packets too, in one of the two ways that `way` names. */
    method Read(addr: Address, cap: nat) returns (r: Result<Packet>, ghost way: ControlWay, ghost looks: Looks)
      requires Valid() && addr.dir == Out
      modifies usb.usb`s, usb.usb`run, usb.usb`script
      ensures Valid() && Step(usb.usb.c, ReadCall(addr, cap), ReadReply(r), looks, old(S()), S())
      ensures r == Err(InvalidEndpoint) <==> !Allocated(usb.usb.c, Index(addr))
      ensures !Allocated(usb.usb.c, Index(addr)) ==> S() == old(S()) && usb.usb.run == old(usb.usb.run)
      ensures Allocated(usb.usb.c, Index(addr)) && addr.index == 0 ==>
                && ControlRead(usb.usb.c, old(S()), S(), looks, way, cap, r)
                && Ops(usb.usb.run) == Ops(old(usb.usb.run)) + ControlReadOps(usb.usb.c, way, cap, r)
      ensures Allocated(usb.usb.c, Index(addr)) && addr.index != 0 ==>
                && DataRead(usb.usb.c, Index(addr), addr.index in old(S()).epOut, old(S()), S(), looks, cap, r)
                && Ops(usb.usb.run) == Ops(old(usb.usb.run)) + DataReadOps(usb.usb.c, Index(addr), cap, r)
    {
      ghost var c, s0, call := usb.usb.c, S(), ReadCall(addr, cap);
      way, looks := DataWay, Looks(s0, s0);
      if !usb.IsAllocated(addr) {
        r := Err(InvalidEndpoint);
        NothingDone(c, call, ReadReply(r), s0);
      } else if addr.index == 0 {
        r, way, looks := usb.Ctrl0Read(cap);
        ControlReadIsStep(c, s0, S(), looks, way, cap, r);
      } else {
        r, looks := usb.EpRead(cap, addr);
        DataReadIsStep(c, addr, s0, S(), looks, cap, r);
      }
    }

    /** On endpoint zero, `status` tells whether the status stage was scheduled. */
    method Write(addr: Address, data: Packet) returns (r: Result<nat>, ghost status: bool, ghost looks: Looks)
      requires Valid() && Proper(usb.usb.c, WriteCall(addr, data))
      modifies usb.usb`s, usb.usb`run, usb.usb`script
      ensures Valid() && Step(usb.usb.c, WriteCall(addr, data), WriteReply(r), looks, old(S()), S())
      ensures r == Err(InvalidEndpoint) <==> !Allocated(usb.usb.c, Index(addr))
      ensures !Allocated(usb.usb.c, Index(addr)) ==> S() == old(S()) && usb.usb.run == old(usb.usb.run)
      ensures Allocated(usb.usb.c, Index(addr)) && addr.index == 0 ==>
                && ControlWritten(usb.usb.c, old(S()), S(), looks, status, data, r)
                && Ops(usb.usb.run) == Ops(old(usb.usb.run)) + ControlWriteOps(status, data, r)
      ensures Allocated(usb.usb.c, Index(addr)) && addr.index != 0 ==>
                && DataWritten(usb.usb.c, Index(addr), old(S()), S(), looks, data, r)
                && Ops(usb.usb.run) == Ops(old(usb.usb.run)) + DataWriteOps(Index(addr), data, r)
    {
      ghost var c, s0, call := usb.usb.c, S(), WriteCall(addr, data);
      status, looks := false, Looks(s0, s0);
      if !usb.IsAllocated(addr) {
        r := Err(InvalidEndpoint);
        NothingDone(c, call, WriteReply(r), s0);
      } else if addr.index == 0 {
        r, status, looks := usb.Ctrl0Write(data);
        ControlWriteIsStep(c, s0, S(), looks, status, data, r);
      } else {
        r, looks := usb.EpWrite(data, addr);
        DataWriteIsStep(c, addr, s0, S(), looks, data, r);
      }
    }

    method SetStalled(addr: Address, stalled: bool) returns (ghost done: bool)
      requires Valid()
      modifies usb.usb`s, usb.usb`run, usb.usb`script
      ensures Valid() && Step(usb.usb.c, StallCall(addr, stalled), Done, Looks(old(S()), old(S())), old(S()), S())
      ensures Allocated(usb.usb.c, Index(addr)) ==>
                && Index(addr) < MAX_ENDPOINTS && StallSet(usb.usb.c, Index(addr), old(S()), S(), stalled, done)
                && Ops(usb.usb.run) == Ops(old(usb.usb.run)) + StallOps(usb.usb.c, Index(addr), stalled, done)
      ensures !Allocated(usb.usb.c, Index(addr)) ==> S() == old(S()) && usb.usb.run == old(usb.usb.run)
    {
      ghost var c, s0, call := usb.usb.c, S(), StallCall(addr, stalled);
      done := false;
      if usb.IsAllocated(addr) {
        done := usb.EpStall(stalled, addr);
        StallIsStep(c, addr, stalled, done, s0, S());
        DataCall(c, call, Done, Looks(s0, s0), s0, S());
      } else {
        NothingDone(c, call, Done, s0);
      }
    }

    method IsStalled(addr: Address) returns (r: bool)
      requires Valid() && Proper(usb.usb.c, IsStalledCall(addr))
      modifies usb.usb`s, usb.usb`run, usb.usb`script
      ensures Valid() && Step(usb.usb.c, IsStalledCall(addr), StalledReply(r), Looks(old(S()), old(S())), old(S()), S())
      ensures r == old(S().ep[Index(addr)].reg.stalled) && Ops(usb.usb.run) == Ops(old(usb.usb.run))
    {
      ghost var c, s0 := usb.usb.c, S();
      r := usb.IsEpStalled(addr);
      RelyCall(c, IsStalledCall(addr), StalledReply(r), s0, S());
    }

    method EnableZlt(addr: Address)
      requires Valid()
      modifies usb.usb`s, usb.usb`run, usb.usb`script
      ensures Valid() && Step(usb.usb.c, ZltCall(addr), Done, Looks(old(S()), old(S())), old(S()), S())
      ensures Allocated(usb.usb.c, Index(addr)) ==>
                && Index(addr) < MAX_ENDPOINTS && !S().ep[Index(addr)].qh.zltDisabled
                && Ops(usb.usb.run) == Ops(old(usb.usb.run)) + [Op.EnableZlt(Index(addr))]
      ensures !Allocated(usb.usb.c, Index(addr)) ==> S() == old(S()) && usb.usb.run == old(usb.usb.run)
    {
      ghost var c, s0, call := usb.usb.c, S(), ZltCall(addr);
      usb.EnableZlt(addr);
      if usb.IsAllocated(addr) {
        ZltIsStep(c, addr, s0, S());
        DataCall(c, call, Done, Looks(s0, s0), s0, S());
      } else {
        NothingDone(c, call, Done, s0);
      }
    }

    method ResetBus() returns (ghost first: St, ghost second: St)
      requires Valid()
      modifies usb.usb`s, usb.usb`run, usb.usb`script
      ensures Valid() && Step(usb.usb.c, ResetCall, Done, Looks(old(S()), old(S())), old(S()), S())
      ensures AllReset(old(S()), S()) && |first.ep| == |second.ep| == MAX_ENDPOINTS
      ensures CompleteSlots(old(S())) <= CompleteSlots(first)
      ensures Ops(usb.usb.run) == Ops(old(usb.usb.run)) + [ResetComplete(CompleteSlots(first)), ResetNak(NakSlots(second)), FlushAll]
                                  + ControlOps(usb.usb.c, MAX_ENDPOINTS, false)
    {
      ghost var c, s0 := usb.usb.c, S();
      first, second := usb.BusReset();
      ResetStep(c, s0, S());
    }

    /** To be called once after each reset: the data endpoints are then still the driver's. */
    method Configure()
      requires Valid() && DataOutQuiet(usb.usb.c, S())
      modifies usb.usb`s, usb.usb`run, usb.usb`script
      ensures Valid() && Step(usb.usb.c, ConfigureCall, Done, Looks(old(S()), old(S())), old(S()), S())
      ensures ConfiguredAll(usb.usb.c, old(S()), S())
      ensures Ops(usb.usb.run) == Ops(old(usb.usb.run)) + ControlOps(usb.usb.c, MAX_ENDPOINTS, true)
                                  + PrimeOps(usb.usb.c, MAX_ENDPOINTS)
    {
      ghost var c, s0 := usb.usb.c, S();
      usb.OnConfigured();
      ConfigureStep(c, s0, S());
    }

    method Perform(call: Call) returns (reply: Reply, ghost looks: Looks)
      requires Valid() && MayCall(usb.usb.c, call, S())
      modifies usb`epOut, usb.usb`s, usb.usb`run, usb.usb`script
      ensures Valid() && Step(usb.usb.c, call, reply, looks, old(S()), S())
    {
      reply, looks := Done, Looks(S(), S());
      match call
      case PollCall =>
        var r;
        ghost var seen;
        r, seen := Poll();
        reply := PollReply(r);
      case ReadCall(addr, cap) =>
        var r;
        ghost var way;
        r, way, looks := Read(addr, cap);
        reply := ReadReply(r);
      case WriteCall(addr, data) =>
        var r;
        ghost var status;
        r, status, looks := Write(addr, data);
        reply := WriteReply(r);
      case StallCall(addr, stall) =>
        ghost var done := SetStalled(addr, stall);
      case IsStalledCall(addr) =>
        var r := IsStalled(addr);
        reply := StalledReply(r);
      case ZltCall(addr) => EnableZlt(addr);
      case ResetCall =>
        ghost var first, second := ResetBus();
      case ConfigureCall => Configure();
    }
  }

  /** A call on an endpoint that is not allocated. */
  lemma NothingDone(c: Config, call: Call, reply: Reply, s: St)
    requires GoodConfig(c) && Inv(c, s) && (call.ReadCall? || call.WriteCall? || call.StallCall? || call.ZltCall?)
    requires !Allocated(c, Index(call.addr))
    requires match call
             case ReadCall(_, _) => reply == ReadReply(Err(InvalidEndpoint))
             case WriteCall(_, _) => reply == WriteReply(Err(InvalidEndpoint))
             case _ => reply == Done
    ensures Step(c, call, reply, Looks(s, s), s, s)
  {
    AllRelyReflexive(c, s);
    forall i | 0 <= i < MAX_ENDPOINTS ensures StepAt(c, i, call, reply, Looks(s, s), s, s) {
      assert SlotRely(c, i, s, s);
      OthersCall(c, i, call, reply, Looks(s, s), s, s);
    }
  }

  lemma ControlReadIsStep(c: Config, s: St, s': St, looks: Looks, way: ControlWay, cap: nat, r: Result<Packet>)
    requires GoodConfig(c) && Inv(c, s) && Inv(c, s') && Allocated(c, 0) && RelyExcept(c, {0}, s, s')
    requires ControlRead(c, s, s', looks, way, cap, r)
    ensures Step(c, ReadCall(Address(0, Out), cap), ReadReply(r), looks, s, s')
  {
    ControlCall(c, {0}, ReadCall(Address(0, Out), cap), ReadReply(r), looks, s, s');
  }

  lemma DataReadIsStep(c: Config, addr: Address, s: St, s': St, looks: Looks, cap: nat, r: Result<Packet>)
    requires GoodConfig(c) && Inv(c, s) && Inv(c, s') && addr.dir == Out && addr.index != 0 && Allocated(c, Index(addr))
    requires RelyExcept(c, {Index(addr)}, s, s')
    requires DataRead(c, Index(addr), addr.index in s.epOut, s, s', looks, cap, r)
    ensures Step(c, ReadCall(addr, cap), ReadReply(r), looks, s, s')
  {
    var i, call := Index(addr), ReadCall(addr, cap);
    if r.Ok? {
      assert OutStep(s.ep[i], s'.ep[i], Some((cap, r.value)), looks.first.ep[i], looks.second.ep[i]);
    } else {
      assert SlotRely(c, i, s, s');
      OthersCall(c, i, call, ReadReply(r), looks, s, s');
    }
    DataCall(c, call, ReadReply(r), looks, s, s');
  }

  lemma ControlWriteIsStep(c: Config, s: St, s': St, looks: Looks, status: bool, data: Packet, r: Result<nat>)
    requires GoodConfig(c) && Inv(c, s) && Inv(c, s') && Allocated(c, 0) && Allocated(c, 1) && RelyExcept(c, {0, 1}, s, s')
    requires ControlWritten(c, s, s', looks, status, data, r)
    ensures Step(c, WriteCall(Address(0, In), data), WriteReply(r), looks, s, s')
  {
    if r.Err? {
      assert SlotRely(c, 1, s, s');
    }
    ControlCall(c, {0, 1}, WriteCall(Address(0, In), data), WriteReply(r), looks, s, s');
  }

  lemma DataWriteIsStep(c: Config, addr: Address, s: St, s': St, looks: Looks, data: Packet, r: Result<nat>)
    requires GoodConfig(c) && Inv(c, s) && Inv(c, s') && addr.dir == In && addr.index != 0 && Allocated(c, Index(addr))
    requires RelyExcept(c, {Index(addr)}, s, s') && DataWritten(c, Index(addr), s, s', looks, data, r)
    ensures Step(c, WriteCall(addr, data), WriteReply(r), looks, s, s')
  {
    var i, call := Index(addr), WriteCall(addr, data);
    if r.Ok? {
      assert InStep(s.ep[i], s'.ep[i], Some(data[..r.value]), false, false, looks.first.ep[i], looks.second.ep[i]);
    } else {
      assert SlotRely(c, i, s, s');
      OthersCall(c, i, call, WriteReply(r), looks, s, s');
    }
    DataCall(c, call, WriteReply(r), looks, s, s');
  }

  lemma StallIsStep(c: Config, addr: Address, stall: bool, done: bool, s: St, s': St)
    requires GoodConfig(c) && Inv(c, s) && Inv(c, s') && Allocated(c, Index(addr)) && StallSet(c, Index(addr), s, s', stall, done)
    ensures StepAt(c, Index(addr), StallCall(addr, stall), Done, Looks(s, s), s, s')
  {
    var i := Index(addr);
    assert Holds(c, i, s) && Holds(c, i, s');
    if IsOut(i) && !stall {
      assert RescheduleStep(s.ep[i], s'.ep[i]);
    } else {
      PassedOver(c, i, StallCall(addr, stall), Done, Looks(s, s), s, s', Uncontrolled(s'.ep[i], s.ep[i].reg));
    }
  }

  lemma ZltIsStep(c: Config, addr: Address, s: St, s': St)
    requires GoodConfig(c) && Inv(c, s) && Inv(c, s') && Index(addr) < MAX_ENDPOINTS
    requires EpRely(s.ep[Index(addr)], WithZltOf(s'.ep[Index(addr)], s.ep[Index(addr)]))
    ensures StepAt(c, Index(addr), ZltCall(addr), Done, Looks(s, s), s, s')
  {
    var i := Index(addr);
    assert Holds(c, i, s) && Holds(c, i, s');
    PassedOver(c, i, ZltCall(addr), Done, Looks(s, s), s, s', WithZltOf(s'.ep[i], s.ep[i]));
  }
}
