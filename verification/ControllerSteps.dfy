/** Every step of the controller keeps the invariant and stays within what the driver may
  * rely on. */
module ControllerSteps {
  import opened Types
  import opened TransferDescriptor
  import opened EndpointRegisters
  import opened Memory
  import opened Device
  import opened Invariant
  import opened Agreement

  /** A transfer of a primed slot reaches, through its queue head, its own descriptor, and
    * that descriptor ends the list. */
  lemma ChainIsSingleAndPrivate(c: Config, s: St, i: nat)
    requires GoodConfig(c) && Inv(c, s) && i < MAX_ENDPOINTS && !s.ep[i].Quiet()
    ensures s.ep[i].reg.prime ==> TdSlot(c, s.ep[i].qh.overlay.next) == Some(i)
    ensures s.ep[i].reg.stat ==> Loaded(c, s, i) == Some(i) && TdSlot(c, s.ep[i].qh.overlay.next) == None
    ensures TdSlot(c, s.ep[i].td.next) == None
  {
    assert Holds(c, i, s);
    TdSlotOfAddress(c, i);
  }

  /** The buffer of a slot is where the controller's byte walk stores and loads. */
  lemma DmaInPlace(c: Config, i: nat, e: Ep, mem: Mem, data: Packet)
    requires GoodConfig(c) && i < MAX_ENDPOINTS && Allocated(c, i) && Scheduled(c, i, e)
    requires |data| <= e.td.total
    ensures Scatter(mem, e.td.pages, data) == Store(mem, BufferOf(c, i).ptr, data)
    ensures OnlyIn(c, i, mem, Scatter(mem, e.td.pages, data))
    ensures Gather(mem, e.td.pages, e.td.total) == Load(mem, BufferOf(c, i).ptr, e.td.total)
  {
    var b := BufferOf(c, i);
    assert b.ptr + e.td.last <= b.End();
    ScatterStores(mem, b.ptr, e.td.last, data);
    StoreOnlyIn(c, i, mem, data);
    GatherLoads(mem, b.ptr, e.td.last, e.td.total);
  }

  /** The record that an accepted prime leaves behind. */
  function AcceptedEp(c: Config, i: nat, e: Ep): Ep {
    e.(reg := e.reg.(prime := false, stat := true), qh := e.qh.(current := e.qh.overlay.next, overlay := e.td))
  }

  lemma AcceptedInv(c: Config, i: nat, e: Ep, mem: Mem)
    requires GoodConfig(c) && i < MAX_ENDPOINTS && EpInv(c, i, e, mem) && e.reg.prime
    ensures EpInv(c, i, AcceptedEp(c, i, e), mem) && EpRely(e, AcceptedEp(c, i, e))
  {
  }

  lemma AcceptKeeps(c: Config, s: St, i: nat)
    requires GoodConfig(c) && Inv(c, s) && i < MAX_ENDPOINTS
    ensures Inv(c, DoAccept(c, s, i)) && Rely(c, s, DoAccept(c, s, i))
  {
    RelyReflexive(c, s);
    assert Holds(c, i, s);
    var e := s.ep[i];
    if e.reg.prime {
      ChainIsSingleAndPrivate(c, s, i);
      AcceptedInv(c, i, e, s.mem);
      LocalStep(c, s, DoAccept(c, s, i), i, AcceptedEp(c, i, e));
    }
  }

  /** The record after a prime or a transfer has been withdrawn. */
  function WithdrawnEp(i: nat, e: Ep, reg: Reg): Ep {
    e.(reg := reg, h := Broken(i, e.h, Cut).(cuts := e.h.cuts + 1))
  }

  lemma WithdrawnInv(c: Config, i: nat, e: Ep, mem: Mem, reg: Reg)
    requires GoodConfig(c) && i < MAX_ENDPOINTS && EpInv(c, i, e, mem) && !e.Quiet()
    requires !reg.prime && !reg.stat && reg.complete == e.reg.complete
    requires (reg.flush ==> e.reg.flush) && reg.enabled == e.reg.enabled && reg.stalled == e.reg.stalled && reg.kind == e.reg.kind
    ensures EpInv(c, i, WithdrawnEp(i, e, reg), mem)
  {
  }

  lemma WithdrawnRely(c: Config, i: nat, e: Ep, mem: Mem, reg: Reg)
    requires GoodConfig(c) && i < MAX_ENDPOINTS && EpInv(c, i, e, mem) && !e.Quiet()
    requires !reg.prime && !reg.stat && reg.complete == e.reg.complete
    requires (reg.flush ==> e.reg.flush) && reg.enabled == e.reg.enabled && reg.stalled == e.reg.stalled && reg.kind == e.reg.kind
    ensures EpRely(e, WithdrawnEp(i, e, reg))
  {
  }

  lemma WithdrawStep(c: Config, s: St, i: nat, reg: Reg)
    requires GoodConfig(c) && Inv(c, s) && i < MAX_ENDPOINTS && !s.ep[i].Quiet() && !reg.prime && !reg.stat && (i < 2 || s.ep[i].reg.flush)
    requires var r := s.ep[i].reg; reg == r.(prime := false, stat := false, flush := reg.flush) && (reg.flush ==> r.flush)
    ensures var s' := s.(ep := s.ep[i := WithdrawnEp(i, s.ep[i], reg)]); Inv(c, s') && Rely(c, s, s')
  {
    assert Holds(c, i, s);
    var e := s.ep[i];
    WithdrawnInv(c, i, e, s.mem, reg);
    WithdrawnRely(c, i, e, s.mem, reg);
    LocalStep(c, s, s.(ep := s.ep[i := WithdrawnEp(i, e, reg)]), i, WithdrawnEp(i, e, reg));
  }

  lemma CancelKeeps(c: Config, s: St, i: nat)
    requires GoodConfig(c) && Inv(c, s) && i < MAX_ENDPOINTS
    ensures Inv(c, DoCancel(s, i)) && Rely(c, s, DoCancel(s, i))
  {
    if s.ep[i].reg.prime && i < 2 && s.ep[0].setup.pending {
      CancelEnabled(c, s, i);
    } else {
      RelyReflexive(c, s);
    }
  }

  lemma CancelEnabled(c: Config, s: St, i: nat)
    requires GoodConfig(c) && Inv(c, s) && i < 2 && s.ep[i].reg.prime && s.ep[0].setup.pending
    ensures Inv(c, DoCancel(s, i)) && Rely(c, s, DoCancel(s, i))
  {
    var e := s.ep[i];
    var reg := e.reg.(prime := false);
    assert !e.reg.stat by {
      assert Holds(c, i, s);
    }
    assert DoCancel(s, i) == s.(ep := s.ep[i := WithdrawnEp(i, e, reg)]);
    WithdrawStep(c, s, i, reg);
  }

  lemma FlushKeeps(c: Config, s: St, i: nat)
    requires GoodConfig(c) && Inv(c, s) && i < MAX_ENDPOINTS
    ensures Inv(c, DoFlush(s, i)) && Rely(c, s, DoFlush(s, i))
  {
    RelyReflexive(c, s);
    assert Holds(c, i, s);
    if s.ep[i].reg.flush {
      if s.ep[i].reg.stat {
        FlushPrimed(c, s, i);
      } else {
        FlushIdle(c, s, i);
      }
    }
  }

  lemma FlushPrimed(c: Config, s: St, i: nat)
    requires GoodConfig(c) && Inv(c, s) && i < MAX_ENDPOINTS && s.ep[i].reg.flush && s.ep[i].reg.stat
    ensures Inv(c, DoFlush(s, i)) && Rely(c, s, DoFlush(s, i))
  {
    var r := s.ep[i].reg;
    assert !r.prime by {
      assert Holds(c, i, s);
    }
    WithdrawStep(c, s, i, r.(flush := false, stat := false));
  }

  lemma FlushIdle(c: Config, s: St, i: nat)
    requires GoodConfig(c) && Inv(c, s) && i < MAX_ENDPOINTS && s.ep[i].reg.flush && !s.ep[i].reg.stat
    ensures Inv(c, DoFlush(s, i)) && Rely(c, s, DoFlush(s, i))
  {
    assert Holds(c, i, s);
    LocalStep(c, s, DoFlush(s, i), i, s.ep[i].(reg := s.ep[i].reg.(flush := false)));
  }

  lemma NakKeeps(c: Config, s: St, i: nat)
    requires GoodConfig(c) && Inv(c, s) && i < MAX_ENDPOINTS
    ensures Inv(c, DoNak(s, i)) && Rely(c, s, DoNak(s, i))
  {
    assert Holds(c, i, s);
    LocalStep(c, s, DoNak(s, i), i, DoNak(s, i).ep[i]);
  }

  lemma SetupKeeps(c: Config, s: St, index: nat, lo: Packet, hi: Packet)
    requires GoodConfig(c) && Inv(c, s)
    ensures Inv(c, DoSetup(s, index, lo, hi)) && Rely(c, s, DoSetup(s, index, lo, hi))
  {
    RelyReflexive(c, s);
    var s' := DoSetup(s, index, lo, hi);
    if index < 8 && |lo| == 4 && |hi| == 4 {
      assert Holds(c, 2 * index, s);
      LocalStep(c, s, s', 2 * index, s'.ep[2 * index]);
    }
  }

  lemma RetireOwn(s: St, i: nat, td: TdImage, complete: bool, h: History)
    requires |s.ep| == MAX_ENDPOINTS && i < MAX_ENDPOINTS
    ensures var e := s.ep[i];
            Retire(s, i, i, td, complete, h)
            == s.ep[i := Ep(e.reg.(stat := false, complete := e.reg.complete || complete), td,
                            e.qh.(overlay := td), e.setup, h)]
  {
  }

  /** The record that a received packet leaves behind. */
  function ReceivedEp(e: Ep, data: Packet): Ep
    requires |data| <= e.td.total
  {
    var td := e.td.(status := CLEAR, total := e.td.total - |data|);
    e.(td := td, reg := e.reg.(stat := false, complete := true), qh := e.qh.(overlay := td),
       h := e.h.(rx := e.h.rx + [data]))
  }

  lemma ReceivedInv(c: Config, i: nat, e: Ep, mem: Mem, mem': Mem, data: Packet)
    requires GoodConfig(c) && i < MAX_ENDPOINTS && Allocated(c, i) && IsOut(i) && e.reg.stat && EpInv(c, i, e, mem)
    requires |data| <= e.td.total && Load(mem', BufferOf(c, i).ptr, |data|) == data
    ensures EpInv(c, i, ReceivedEp(e, data), mem') && EpRely(e, ReceivedEp(e, data))
  {
    assert forall k :: 0 <= k < |e.h.done| ==> (e.h.rx + [data])[k] == e.h.rx[k];
  }

  lemma ReceiveKeeps(c: Config, s: St, i: nat, data: Packet)
    requires GoodConfig(c) && Inv(c, s) && i < MAX_ENDPOINTS
    ensures Inv(c, DoReceive(c, s, i, data)) && Rely(c, s, DoReceive(c, s, i, data))
  {
    var e := s.ep[i];
    if e.reg.stat && IsOut(i) && |data| <= e.td.total {
      ReceiveEnabled(c, s, i, data);
    } else {
      RelyReflexive(c, s);
      if e.reg.stat {
        ChainIsSingleAndPrivate(c, s, i);
      }
    }
  }

  lemma DmaArrives(c: Config, i: nat, e: Ep, mem: Mem, data: Packet)
    requires GoodConfig(c) && i < MAX_ENDPOINTS && Allocated(c, i) && Scheduled(c, i, e) && |data| <= e.td.total
    ensures var mem' := Scatter(mem, e.td.pages, data); OnlyIn(c, i, mem, mem') && Load(mem', BufferOf(c, i).ptr, |data|) == data
  {
    DmaInPlace(c, i, e, mem, data);
    LoadAfterStore(mem, BufferOf(c, i).ptr, data, |data|);
  }

  lemma ReceiveEnabled(c: Config, s: St, i: nat, data: Packet)
    requires GoodConfig(c) && Inv(c, s) && i < MAX_ENDPOINTS && s.ep[i].reg.stat && IsOut(i) && |data| <= s.ep[i].td.total
    ensures Inv(c, DoReceive(c, s, i, data)) && Rely(c, s, DoReceive(c, s, i, data))
  {
    var e, s' := s.ep[i], DoReceive(c, s, i, data);
    assert Holds(c, i, s);
    ChainIsSingleAndPrivate(c, s, i);
    DmaArrives(c, i, e, s.mem, data);
    ReceivedInv(c, i, e, s.mem, s'.mem, data);
    TransferStep(c, s, s', i, ReceivedEp(e, data), true);
  }

  /** The record that a sent packet leaves behind. */
  function SentEp(e: Ep, data: Packet): Ep {
    var td := e.td.(status := CLEAR, total := 0);
    e.(td := td, reg := e.reg.(stat := false, complete := true), qh := e.qh.(overlay := td),
       h := SentHistory(e, data))
  }

  lemma SentInv(c: Config, i: nat, e: Ep, mem: Mem)
    requires GoodConfig(c) && i < MAX_ENDPOINTS && Allocated(c, i) && !IsOut(i) && e.reg.stat && EpInv(c, i, e, mem)
    ensures var e' := SentEp(e, Load(mem, BufferOf(c, i).ptr, e.td.total));
            EpInv(c, i, e', mem) && EpRely(e, e') && UncutEp(e, e')
  {
  }

  lemma SendKeeps(c: Config, s: St, i: nat)
    requires GoodConfig(c) && Inv(c, s) && i < MAX_ENDPOINTS
    ensures Inv(c, DoSend(c, s, i)) && Rely(c, s, DoSend(c, s, i))
  {
    var e := s.ep[i];
    RelyReflexive(c, s);
    assert Holds(c, i, s);
    var s' := DoSend(c, s, i);
    if e.reg.stat && !IsOut(i) {
      ChainIsSingleAndPrivate(c, s, i);
      DmaInPlace(c, i, e, s.mem, []);
      var e' := SentEp(e, Load(s.mem, BufferOf(c, i).ptr, e.td.total));
      SentInv(c, i, e, s.mem);
      TransferStep(c, s, s', i, e', true);
    }
  }

  /** The record that a failed transfer leaves behind. */
  function FailedEp(i: nat, e: Ep, status: Status, partial: Packet): Ep
    requires |partial| <= e.td.total
  {
    var td := e.td.(status := status.(active := false), total := e.td.total - |partial|);
    e.(td := td, reg := e.reg.(stat := false), qh := e.qh.(overlay := td),
       h := Broken(i, e.h, Failed).(fails := e.h.fails + 1))
  }

  lemma FailedInv(c: Config, i: nat, e: Ep, mem: Mem, mem': Mem, status: Status, partial: Packet)
    requires GoodConfig(c) && i < MAX_ENDPOINTS && Allocated(c, i) && e.reg.stat && EpInv(c, i, e, mem)
    requires status.IsError() && |partial| <= e.td.total
    ensures EpInv(c, i, FailedEp(i, e, status, partial), mem') && EpRely(e, FailedEp(i, e, status, partial))
  {
  }

  /** A transfer ends at the state level as it does in its record. */
  lemma TransferStep(c: Config, s: St, s': St, i: nat, e': Ep, complete: bool)
    requires GoodConfig(c) && Inv(c, s) && i < MAX_ENDPOINTS && s.ep[i].reg.stat && Allocated(c, i)
    requires s'.ep == Retire(s, i, i, e'.td, complete, e'.h) && OnlyIn(c, i, s.mem, s'.mem)
    requires s' == s.(ep := s'.ep, mem := s'.mem, ui := s.ui || complete)
    requires e' == Ep(s.ep[i].reg.(stat := false, complete := s.ep[i].reg.complete || complete), e'.td,
                      s.ep[i].qh.(overlay := e'.td), s.ep[i].setup, e'.h)
    requires EpInv(c, i, e', s'.mem) && EpRely(s.ep[i], e') && UncutEp(s.ep[i], e')
    ensures Inv(c, s') && Rely(c, s, s')
  {
    assert Holds(c, i, s);
    RetireOwn(s, i, e'.td, complete, e'.h);
    LocalStep(c, s, s', i, e');
  }

  lemma FailKeeps(c: Config, s: St, i: nat, status: Status, partial: Packet)
    requires GoodConfig(c) && Inv(c, s) && i < MAX_ENDPOINTS
    ensures Inv(c, DoFail(c, s, i, status, partial)) && Rely(c, s, DoFail(c, s, i, status, partial))
  {
    var e := s.ep[i];
    if e.reg.stat && status.IsError() && |partial| <= e.td.total {
      FailEnabled(c, s, i, status, partial);
    } else {
      RelyReflexive(c, s);
      if e.reg.stat {
        ChainIsSingleAndPrivate(c, s, i);
      }
    }
  }

  lemma FailEnabled(c: Config, s: St, i: nat, status: Status, partial: Packet)
    requires GoodConfig(c) && Inv(c, s) && i < MAX_ENDPOINTS && s.ep[i].reg.stat
    requires status.IsError() && |partial| <= s.ep[i].td.total
    ensures Inv(c, DoFail(c, s, i, status, partial)) && Rely(c, s, DoFail(c, s, i, status, partial))
  {
    var e, s' := s.ep[i], DoFail(c, s, i, status, partial);
    assert Holds(c, i, s);
    ChainIsSingleAndPrivate(c, s, i);
    DmaInPlace(c, i, e, s.mem, partial);
    FailedInv(c, i, e, s.mem, s'.mem, status, partial);
    TransferStep(c, s, s', i, FailedEp(i, e, status, partial), false);
  }

  predicate IsTransferAct(a: Act) {
    a.Receive? || a.Send? || a.Fail?
  }

  lemma TransferKeeps(c: Config, s: St, a: Act)
    requires GoodConfig(c) && Inv(c, s) && IsTransferAct(a) && a.slot < MAX_ENDPOINTS
    ensures Inv(c, DoAct(c, s, a)) && Rely(c, s, DoAct(c, s, a))
  {
    match a
    case Receive(i, data) => ReceiveKeeps(c, s, i, data);
    case Send(i) => SendKeeps(c, s, i);
    case Fail(i, status, partial) => FailKeeps(c, s, i, status, partial);
  }

  /** Every step of the controller, from every reachable state. */
  lemma ActKeeps(c: Config, s: St, a: Act)
    requires GoodConfig(c) && Inv(c, s)
    ensures Inv(c, DoAct(c, s, a)) && Rely(c, s, DoAct(c, s, a))
  {
    RelyReflexive(c, s);
    if a.SetupPacket? {
      SetupKeeps(c, s, a.index, a.lo, a.hi);
    } else if a.BusReset? {
      FlagStep(c, s, DoAct(c, s, a));
      LocalRely(c, s, DoAct(c, s, a), 0, s.ep[0]);
    } else if a.slot < MAX_ENDPOINTS {
      if IsTransferAct(a) {
        TransferKeeps(c, s, a);
      } else if a.AcceptPrime? {
        AcceptKeeps(c, s, a.slot);
      } else if a.CancelPrime? {
        CancelKeeps(c, s, a.slot);
      } else if a.FinishFlush? {
        FlushKeeps(c, s, a.slot);
      } else {
        NakKeeps(c, s, a.slot);
      }
    }
  }
}
