/** What the two looks of a transfer call, and the mask of reported OUT endpoints, let
  * through: whole calls as runs from power-up, for every configuration that has an endpoint
  * of the kind. */
module Gap {
  import opened Types
  import opened TransferDescriptor
  import opened Memory
  import opened Device
  import opened Invariant
  import opened ControllerSteps
  import opened Runs
  import opened EndpointDriver
  import opened CallEffects
  import opened Usb
  import opened Ownership

  /** Accesses of the driver, as events of a run. */
  function Accesses(ops: seq<Op>): seq<Event> {
    seq(|ops|, k requires 0 <= k < |ops| => Drv(ops[k]))
  }

  /** A run goes on with accesses, during which the controller stands still. */
  lemma {:induction false} GoesOn(c: Config, mem: Mem, run: seq<Event>, s: St, ops: seq<Op>)
    requires GoodConfig(c) && Reached(c, mem, run, s) && Perform(c, s, ops).Some?
    ensures Reached(c, mem, run + Accesses(ops), Perform(c, s, ops).value)
    ensures Ops(run + Accesses(ops)) == Ops(run) + ops
  {
    if ops == [] {
      assert run + Accesses(ops) == run;
    } else {
      var last := |ops| - 1;
      GoesOn(c, mem, run, s, ops[..last]);
      ReachedNext(c, mem, run + Accesses(ops[..last]), Perform(c, s, ops[..last]).value, Drv(ops[last]));
      AccessesGrow(run, ops);
    }
  }

  lemma AccessesGrow(run: seq<Event>, ops: seq<Op>)
    requires ops != []
    ensures var last := |ops| - 1;
            && run + Accesses(ops) == run + Accesses(ops[..last]) + [Drv(ops[last])]
            && forall before: seq<Op> :: before + ops == before + ops[..last] + [ops[last]]
  {
    assert ops == ops[..|ops| - 1] + [ops[|ops| - 1]];
  }

  /** A run goes on to a state, with these accesses of the driver. */
  ghost predicate Leads(c: Config, mem: Mem, run: seq<Event>, more: seq<Event>, s: St, ops: seq<Op>)
    requires GoodConfig(c)
  {
    Reached(c, mem, run + more, s) && Ops(run + more) == Ops(run) + ops
  }

  lemma LeadsOn(c: Config, mem: Mem, run: seq<Event>, a: seq<Event>, m: St, x: seq<Op>, b: seq<Event>, s: St, y: seq<Op>)
    requires GoodConfig(c) && Leads(c, mem, run, a, m, x) && Leads(c, mem, run + a, b, s, y)
    ensures Leads(c, mem, run, a + b, s, x + y)
  {
    assert run + a + b == run + (a + b);
  }

  /** The schedule of a transfer, and the controller's accepting it. */
  function ScheduledRun(i: nat, size: nat): seq<Event> {
    Accesses(ScheduleOps(i, size)) + [Ctl(AcceptPrime(i))]
  }

  lemma Schedules(c: Config, mem: Mem, run: seq<Event>, s: St, i: nat, size: nat) returns (s': St)
    requires GoodConfig(c) && Reached(c, mem, run, s) && i < MAX_ENDPOINTS && Allocated(c, i) && size <= MaxLen(c, i)
    requires s.ep[i].Quiet() && !s.ep[i].h.editing
    ensures Reached(c, mem, run + ScheduledRun(i, size), s') && Ops(run + ScheduledRun(i, size)) == Ops(run) + ScheduleOps(i, size)
    ensures s'.ep[i].reg.stat && s'.ep[i].h == ScheduledHistory(c, i, s.ep[i], s.mem, size)
    ensures s'.ep[i].td.total == size && s'.poll == s.poll && s'.epOut == s.epOut && s'.ui == s.ui
    ensures s'.ep[i].reg.complete == s.ep[i].reg.complete
  {
    var ops := ScheduleOps(i, size);
    ScheduleIsLegal(c, s, i, size);
    var m := Perform(c, s, ops).value;
    GoesOn(c, mem, run, s, ops);
    ReachedNext(c, mem, run + Accesses(ops), m, Ctl(AcceptPrime(i)));
    s' := DoAct(c, m, AcceptPrime(i));
    ScheduledIsAccepted(c, s, i, size);
    LeadsOn(c, mem, run, Accesses(ops), m, ops, [Ctl(AcceptPrime(i))], s', []);
    assert ops + [] == ops;
  }

  lemma ScheduledIsAccepted(c: Config, s: St, i: nat, size: nat)
    requires GoodConfig(c) && |s.ep| == MAX_ENDPOINTS && i < MAX_ENDPOINTS && Allocated(c, i) && size <= MaxLen(c, i)
    requires s.ep[i].Quiet() && !s.ep[i].h.editing
    ensures var s' := DoAct(c, WrittenSt(c, s, i, size, 7), AcceptPrime(i));
            && s'.ep[i].reg.stat && s'.ep[i].h == ScheduledHistory(c, i, s.ep[i], s.mem, size)
            && s'.ep[i].td.total == size && s'.poll == s.poll && s'.epOut == s.epOut && s'.ui == s.ui
            && s'.ep[i].reg.complete == s.ep[i].reg.complete
  {
    WrittenWhole(c, i, s.ep[i], s.mem, size);
    TdSlotOfAddress(c, i);
    var m := WrittenSt(c, s, i, size, 7);
    assert m.ep[i].reg.prime && TdSlot(c, m.ep[i].qh.overlay.next) == Some(i);
  }

  /** Three accesses, one after the other. */
  lemma PerformThree(c: Config, s: St, x: Op, y: Op, z: Op)
    requires GoodConfig(c) && |s.ep| == MAX_ENDPOINTS && Legal(c, s, x) && Legal(c, DoOp(c, s, x), y)
    requires Legal(c, DoOp(c, DoOp(c, s, x), y), z)
    ensures Perform(c, s, [x, y]) == Some(DoOp(c, DoOp(c, s, x), y))
    ensures Perform(c, s, [x, y, z]) == Some(DoOp(c, DoOp(c, DoOp(c, s, x), y), z))
  {
    PerformTwo(c, s, x, y);
    PerformOne(c, s, [x, y], z);
    assert [x, y] + [z] == [x, y, z];
  }

  lemma PerformTwo(c: Config, s: St, x: Op, y: Op)
    requires GoodConfig(c) && |s.ep| == MAX_ENDPOINTS && Legal(c, s, x) && Legal(c, DoOp(c, s, x), y)
    ensures Perform(c, s, [x, y]) == Some(DoOp(c, DoOp(c, s, x), y))
  {
    PerformOne(c, s, [], x);
    PerformOne(c, s, [x], y);
    assert [] + [x] == [x] && [x] + [y] == [x, y];
  }

  // ---------------------------------------------------------------- IN

  lemma WriteHead(c: Config, s: St, i: nat, data: Packet)
    requires GoodConfig(c) && |s.ep| == MAX_ENDPOINTS && i < MAX_ENDPOINTS && Allocated(c, i) && !IsOut(i)
    requires |data| <= MaxLen(c, i) && s.ep[i].Quiet() && !s.ep[i].h.editing
    ensures var e := s.ep[i];
            Perform(c, s, [Op.ClearNak(i), StoreBuffer(i, data)])
            == Some(s.(ep := s.ep[i := e.(reg := e.reg.ClearNak())], mem := Store(s.mem, BufferOf(c, i).ptr, data)))
  {
    var e := s.ep[i];
    var e' := e.(reg := e.reg.ClearNak());
    PerformThree(c, s, Op.ClearNak(i), StoreBuffer(i, data), SetTripwire);
    assert s.ep[i := e'][i := e'] == s.ep[i := e'];
  }

  lemma QueuedByWrite(c: Config, i: nat, e: Ep, mem: Mem, data: Packet)
    requires GoodConfig(c) && i < MAX_ENDPOINTS && Allocated(c, i) && !IsOut(i)
    ensures var h := ScheduledHistory(c, i, e.(reg := e.reg.ClearNak()), Store(mem, BufferOf(c, i).ptr, data), |data|);
            h.queued == e.h.queued + [data] && h.fates == e.h.fates
  {
    LoadAfterStore(mem, BufferOf(c, i).ptr, data, |data|);
    assert data[..|data|] == data;
  }

  function WriteRun(i: nat, data: Packet): seq<Event> {
    Accesses([Op.ClearNak(i), StoreBuffer(i, data)]) + ScheduledRun(i, |data|)
  }

  /** The accesses of `ep_write`, once the two looks have let it pass; the controller then
    * accepts the transfer. */
  lemma Writes(c: Config, mem: Mem, run: seq<Event>, s: St, i: nat, data: Packet) returns (s': St)
    requires GoodConfig(c) && Reached(c, mem, run, s) && i < MAX_ENDPOINTS && Allocated(c, i) && !IsOut(i)
    requires |data| <= MaxLen(c, i) && s.ep[i].Quiet() && !s.ep[i].h.editing
    ensures Reached(c, mem, run + WriteRun(i, data), s')
    ensures Ops(run + WriteRun(i, data)) == Ops(run) + WriteOps(i, data)
    ensures s'.ep[i].h.queued == s.ep[i].h.queued + [data] && s'.ep[i].h.fates == s.ep[i].h.fates && s'.ep[i].reg.stat
  {
    var head := [Op.ClearNak(i), StoreBuffer(i, data)];
    WriteHead(c, s, i, data);
    var m := Perform(c, s, head).value;
    GoesOn(c, mem, run, s, head);
    s' := Schedules(c, mem, run + Accesses(head), m, i, |data|);
    QueuedByWrite(c, i, s.ep[i], s.mem, data);
    LeadsOn(c, mem, run, Accesses(head), m, head, ScheduledRun(i, |data|), s', ScheduleOps(i, |data|));
  }

  /** A write goes on behind a failed packet. From every reachable state in which the
    * controller has an IN endpoint, and for every way in which the transfer can fail: if the
    * failure falls between the two looks of `ep_write`, the first sees no error, the second
    * sees the endpoint free, and the call accepts its packet behind the one that failed. */
  lemma WriteBehindFailure(c: Config, mem: Mem, run: seq<Event>, s: St, i: nat, status: Status, partial: Packet, data: Packet)
    returns (s': St)
    requires GoodConfig(c) && Reached(c, mem, run, s) && i < MAX_ENDPOINTS && Allocated(c, i) && !IsOut(i) && s.ep[i].reg.stat
    requires status.IsError() && |partial| <= s.ep[i].td.total && |data| <= MaxLen(c, i)
    ensures var second := DoAct(c, s, Fail(i, status, partial));
            !s.ep[i].td.status.IsError() && !second.ep[i].reg.stat
    ensures Reached(c, mem, run + GapRun(i, status, partial) + WriteRun(i, data), s')
    ensures var queued, h := s.ep[i].h.queued, s'.ep[i].h;
            queued != [] && h.queued == queued + [data] && |h.fates| == |queued| && h.fates[|queued| - 1] == Failed
  {
    var act := Fail(i, status, partial);
    GateIsOpen(c, mem, run, s, i, status, partial);
    LooksThrough(c, mem, run, s, i, status, partial);
    s' := Writes(c, mem, run + GapRun(i, status, partial), DoAct(c, s, act), i, data);
  }

  /** The two looks of a transfer call, and the failure between them. */
  function GapRun(i: nat, status: Status, partial: Packet): seq<Event> {
    [Look(TdStatus(i)), Ctl(Fail(i, status, partial)), Look(EndptStat(i))]
  }

  lemma LooksThrough(c: Config, mem: Mem, run: seq<Event>, s: St, i: nat, status: Status, partial: Packet)
    requires GoodConfig(c) && Reached(c, mem, run, s)
    ensures Leads(c, mem, run, GapRun(i, status, partial), DoAct(c, s, Fail(i, status, partial)), [])
    ensures Looked(run + GapRun(i, status, partial)) == Looked(run) + [TdStatus(i)] + [EndptStat(i)]
  {
    var act := Fail(i, status, partial);
    ReachedNext(c, mem, run, s, Look(TdStatus(i)));
    ReachedNext(c, mem, run + [Look(TdStatus(i))], s, Ctl(act));
    ReachedNext(c, mem, run + [Look(TdStatus(i))] + [Ctl(act)], DoAct(c, s, act), Look(EndptStat(i)));
    assert run + [Look(TdStatus(i))] + [Ctl(act)] + [Look(EndptStat(i))] == run + GapRun(i, status, partial);
  }

  /** The two looks do not add up to one. */
  lemma GateIsOpen(c: Config, mem: Mem, run: seq<Event>, s: St, i: nat, status: Status, partial: Packet)
    requires GoodConfig(c) && Reached(c, mem, run, s) && i < MAX_ENDPOINTS && Allocated(c, i) && s.ep[i].reg.stat
    requires status.IsError() && |partial| <= s.ep[i].td.total
    ensures var e, e' := s.ep[i], DoAct(c, s, Fail(i, status, partial)).ep[i];
            && !e.td.status.IsError() && e'.Quiet() && e'.td.status.IsError() && !e'.h.editing
            && e'.td == e.td.(status := status.(active := false), total := e.td.total - |partial|)
            && e.td.total == e.td.last && e'.qh.maxPacket == MaxLen(c, i)
            && (if IsOut(i) then e'.h == e.h.(armed := false, fails := e.h.fails + 1) && !e.h.Pending()
                else e'.h.queued == e.h.queued && e'.h.fates == e.h.fates + [Failed] && |e'.h.fates| == |e.h.queued|)
            && (IsOut(i) ==> DoAct(c, s, Fail(i, status, partial)).mem == Store(s.mem, BufferOf(c, i).ptr, partial))
  {
    ReachableInv(c, mem, run, s);
    assert Holds(c, i, s);
    ChainIsSingleAndPrivate(c, s, i);
    DmaInPlace(c, i, s.ep[i], s.mem, partial);
  }

  /** Such a state is reachable, in every configuration with an IN endpoint. */
  lemma InTransferIsReachable(c: Config, mem: Mem, i: nat, data: Packet) returns (run: seq<Event>, s: St)
    requires GoodConfig(c) && i < MAX_ENDPOINTS && Allocated(c, i) && !IsOut(i) && |data| <= MaxLen(c, i)
    ensures Reached(c, mem, run, s) && s.ep[i].reg.stat && s.ep[i].h.queued == [data]
  {
    ReachedInitially(c, mem);
    s := Writes(c, mem, [], Initial(c, mem), i, data);
    run := [] + WriteRun(i, data);
  }

  // ---------------------------------------------------------------- OUT

  lemma ReadHead(c: Config, s: St, i: nat, cap: nat)
    requires GoodConfig(c) && |s.ep| == MAX_ENDPOINTS && i < MAX_ENDPOINTS && Allocated(c, i) && IsOut(i)
    requires s.ep[i].Quiet() && !s.ep[i].h.editing
    ensures var e := s.ep[i];
            var n := ReadLength(e, cap);
            Perform(c, s, LoadOps(i, cap))
            == Some(s.(ep := s.ep[i := e.(reg := e.reg.ClearComplete().ClearNak(),
                                          h := e.h.(got := Some((cap, Load(s.mem, BufferOf(c, i).ptr, if n < 0 then 0 else n)))))]))
  {
    var e := s.ep[i];
    var e1 := e.(reg := e.reg.ClearComplete());
    var e2 := e1.(reg := e1.reg.ClearNak());
    assert DoOp(c, s, Op.ClearComplete(i)).ep == s.ep[i := e1];
    assert DoOp(c, DoOp(c, s, Op.ClearComplete(i)), Op.ClearNak(i)).ep == s.ep[i := e2];
    PerformThree(c, s, Op.ClearComplete(i), Op.ClearNak(i), LoadBuffer(i, cap));
    var n := ReadLength(e, cap);
    var e3 := e2.(h := e.h.(got := Some((cap, Load(s.mem, BufferOf(c, i).ptr, if n < 0 then 0 else n)))));
    assert s.ep[i := e2][i := e3] == s.ep[i := e3];
  }

  /** The accesses of `ep_read`, once the two looks and the mask have let it pass; `data` is
    * what it returns. The controller then accepts the next transfer. */
  lemma Reads(c: Config, mem: Mem, run: seq<Event>, s: St, i: nat, cap: nat) returns (s': St, data: Packet)
    requires GoodConfig(c) && Reached(c, mem, run, s) && i < MAX_ENDPOINTS && Allocated(c, i) && IsOut(i)
    requires s.ep[i].Quiet() && !s.ep[i].h.editing && ReadLength(s.ep[i], cap) >= 0
    ensures data == Load(s.mem, BufferOf(c, i).ptr, ReadLength(s.ep[i], cap))
    ensures Reached(c, mem, run + ReadRun(i, cap, MaxLen(c, i)), s')
    ensures Ops(run + ReadRun(i, cap, MaxLen(c, i))) == Ops(run) + ReadOps(i, cap, MaxLen(c, i))
    ensures s'.ep[i].reg.stat && s'.ep[i].td.total == MaxLen(c, i) && s'.poll == s.poll && s'.epOut == s.epOut
    ensures s'.ep[i].h == BeginEdit(i, s.ep[i].h.(got := Some((cap, data)))).(editing := false, armed := true)
    ensures !s'.ep[i].reg.complete
  {
    data := Load(s.mem, BufferOf(c, i).ptr, ReadLength(s.ep[i], cap));
    var m := Loads(c, mem, run, s, i, cap, data);
    s' := Schedules(c, mem, run + Accesses(LoadOps(i, cap)), m, i, MaxLen(c, i));
    LeadsOn(c, mem, run, Accesses(LoadOps(i, cap)), m, LoadOps(i, cap), ScheduledRun(i, MaxLen(c, i)), s', ScheduleOps(i, MaxLen(c, i)));
  }

  /** The packet is copied out. */
  lemma Loads(c: Config, mem: Mem, run: seq<Event>, s: St, i: nat, cap: nat, data: Packet) returns (s': St)
    requires GoodConfig(c) && Reached(c, mem, run, s) && i < MAX_ENDPOINTS && Allocated(c, i) && IsOut(i)
    requires s.ep[i].Quiet() && !s.ep[i].h.editing && ReadLength(s.ep[i], cap) >= 0
    requires data == Load(s.mem, BufferOf(c, i).ptr, ReadLength(s.ep[i], cap))
    ensures Leads(c, mem, run, Accesses(LoadOps(i, cap)), s', LoadOps(i, cap))
    ensures s'.ep[i].Quiet() && !s'.ep[i].reg.complete && s'.poll == s.poll && s'.epOut == s.epOut
    ensures s'.ep[i].h == s.ep[i].h.(got := Some((cap, data)))
  {
    ReadHead(c, s, i, cap);
    s' := Perform(c, s, LoadOps(i, cap)).value;
    GoesOn(c, mem, run, s, LoadOps(i, cap));
  }

  function LoadOps(i: nat, cap: nat): seq<Op> {
    [Op.ClearComplete(i), Op.ClearNak(i), LoadBuffer(i, cap)]
  }

  function ReadRun(i: nat, cap: nat, size: nat): seq<Event> {
    Accesses(LoadOps(i, cap)) + ScheduledRun(i, size)
  }

  /** A read returns what is left of a transfer that failed. From every reachable state in
    * which the controller has an OUT endpoint that the last report named: if the transfer
    * fails between the two looks of `ep_read`, the call returns the bytes that had arrived,
    * of a packet that was never received. */
  lemma ReadOfRemains(c: Config, mem: Mem, run: seq<Event>, s: St, i: nat, status: Status, partial: Packet, cap: nat)
    returns (s': St, data: Packet)
    requires GoodConfig(c) && Reached(c, mem, run, s) && i < MAX_ENDPOINTS && Allocated(c, i) && IsOut(i) && s.ep[i].reg.stat
    requires status.IsError() && |partial| <= s.ep[i].td.total && i / 2 in s.epOut
    ensures var second := DoAct(c, s, Fail(i, status, partial));
            !s.ep[i].td.status.IsError() && !second.ep[i].reg.stat && i / 2 in second.epOut
    ensures Reached(c, mem, run + GapRun(i, status, partial) + ReadRun(i, cap, MaxLen(c, i)), s')
    ensures data == partial[..Min(cap, |partial|)]
    ensures s'.ep[i].h.rx == s.ep[i].h.rx && s'.ep[i].h.done == s.ep[i].h.done && s'.ep[i].h.phantom == s.ep[i].h.phantom + [data]
  {
    var act := Fail(i, status, partial);
    GateIsOpen(c, mem, run, s, i, status, partial);
    LooksThrough(c, mem, run, s, i, status, partial);
    var second := DoAct(c, s, act);
    ReachableInv(c, mem, run, s);
    assert Holds(c, i, s);
    var n := ReadLength(second.ep[i], cap);
    assert n == Min(cap, |partial|);
    LoadAfterStore(s.mem, BufferOf(c, i).ptr, partial, n);
    s', data := Reads(c, mem, run + GapRun(i, status, partial), second, i, cap);
  }

  /** A packet arrives. */
  lemma Arrives(c: Config, mem: Mem, run: seq<Event>, s: St, i: nat, p: Packet) returns (s': St)
    requires GoodConfig(c) && Reached(c, mem, run, s) && i < MAX_ENDPOINTS && Allocated(c, i) && IsOut(i)
    requires s.ep[i].reg.stat && |p| <= s.ep[i].td.total
    ensures Reached(c, mem, run + [Ctl(Receive(i, p))], s') && Ops(run + [Ctl(Receive(i, p))]) == Ops(run)
    ensures s'.ep[i].Quiet() && s'.ep[i].reg.complete && !s'.ep[i].td.status.IsError() && !s'.ep[i].h.editing
    ensures s'.ep[i].h == s.ep[i].h.(rx := s.ep[i].h.rx + [p]) && |s.ep[i].h.rx| == |s.ep[i].h.done| && s.ep[i].h.got == None
    ensures s'.poll == s.poll && s'.epOut == s.epOut && s'.ui
    ensures forall cap :: ReadLength(s'.ep[i], cap) == Min(cap, |p|)
    ensures forall cap :: Load(s'.mem, BufferOf(c, i).ptr, Min(cap, |p|)) == p[..Min(cap, |p|)]
  {
    ReachableInv(c, mem, run, s);
    assert Holds(c, i, s);
    ChainIsSingleAndPrivate(c, s, i);
    ReachedNext(c, mem, run, s, Ctl(Receive(i, p)));
    s' := DoAct(c, s, Receive(i, p));
    ReachableInv(c, mem, run + [Ctl(Receive(i, p))], s');
    assert Holds(c, i, s');
    forall cap: nat ensures Load(s'.mem, BufferOf(c, i).ptr, Min(cap, |p|)) == p[..Min(cap, |p|)] {
      assert Load(s'.mem, BufferOf(c, i).ptr, Min(cap, |p|)) == Load(s'.mem, BufferOf(c, i).ptr, |p|)[..Min(cap, |p|)];
    }
  }

  const POLL_OPS: seq<Op> := [AckInterrupt, PollOut, PollIn, AckIn, PollSetup]

  lemma PollBegins(c: Config, s: St)
    requires GoodConfig(c) && |s.ep| == MAX_ENDPOINTS && s.poll.Idle? && s.ui
    ensures Perform(c, s, POLL_OPS[..3]) == Some(s.(ui := false, epOut := CompleteOut(s), poll := InRead(CompleteIn(s))))
  {
    PerformThree(c, s, AckInterrupt, PollOut, PollIn);
    assert POLL_OPS[..3] == [AckInterrupt, PollOut, PollIn];
  }

  lemma PollEnds(c: Config, s: St, i: nat)
    requires GoodConfig(c) && |s.ep| == MAX_ENDPOINTS && s.poll.InRead? && i < MAX_ENDPOINTS && IsOut(i)
    ensures var r := Perform(c, s, POLL_OPS[3..]);
            r.Some? && r.value.ep[i] == s.ep[i] && r.value.mem == s.mem && r.value.poll.Idle? && r.value.epOut == s.epOut
  {
    assert DoOp(c, s, AckIn).ep[i] == AckInEp(i, s.ep[i], s.poll.mask);
    PerformThree(c, s, AckIn, PollSetup, SetTripwire);
    assert POLL_OPS[3..] == [AckIn, PollSetup];
  }

  /** A poll finds the completion of an OUT endpoint, and puts it into the mask. */
  lemma Polls(c: Config, mem: Mem, run: seq<Event>, s: St, i: nat) returns (s': St)
    requires GoodConfig(c) && Reached(c, mem, run, s) && i < MAX_ENDPOINTS && IsOut(i) && s.poll.Idle? && s.ui && s.ep[i].reg.complete
    ensures Reached(c, mem, run + Accesses(POLL_OPS), s') && Ops(run + Accesses(POLL_OPS)) == Ops(run) + POLL_OPS
    ensures s'.ep[i] == s.ep[i] && s'.mem == s.mem && s'.poll.Idle? && i / 2 in s'.epOut
  {
    PollBegins(c, s);
    var m := Perform(c, s, POLL_OPS[..3]).value;
    PollEnds(c, m, i);
    PerformBoth(c, s, POLL_OPS[..3], POLL_OPS[3..]);
    assert POLL_OPS[..3] + POLL_OPS[3..] == POLL_OPS;
    assert i == 2 * (i / 2);
    GoesOn(c, mem, run, s, POLL_OPS);
    s' := Perform(c, s, POLL_OPS).value;
  }

  /** One report, two packets. In every configuration with an OUT endpoint there is a run in
    * which the driver schedules it, polls once, and reads twice: the second packet arrives
    * after the only poll, and the second read returns it all the same. After the first read
    * the controller has the endpoint, and the mask still names it. */
  lemma UnreportedRead(c: Config, mem: Mem, i: nat, p: Packet, q: Packet, cap: nat) returns (run: seq<Event>, read: St, s: St)
    requires GoodConfig(c) && i < MAX_ENDPOINTS && Allocated(c, i) && IsOut(i) && |p| <= MaxLen(c, i) && |q| <= MaxLen(c, i)
    ensures Reached(c, mem, run, s)
    ensures var max := MaxLen(c, i); Ops(run) == ScheduleOps(i, max) + POLL_OPS + ReadOps(i, cap, max) + ReadOps(i, cap, max)
    ensures s.ep[i].h.rx == [p, q]
    ensures s.ep[i].h.done == [Delivered(cap, p[..Min(cap, |p|)]), Delivered(cap, q[..Min(cap, |q|)])]
    ensures exists before :: before <= run && Reached(c, mem, before, read)
    ensures read.ep[i].reg.stat && i / 2 in read.epOut && read.ep[i].h.rx == [p]
  {
    var before;
    before, read := FirstRead(c, mem, i, p, cap);
    var arrived := Arrives(c, mem, before, read, i, q);
    var data;
    s, data := Reads(c, mem, before + [Ctl(Receive(i, q))], arrived, i, cap);
    run := before + [Ctl(Receive(i, q))] + ReadRun(i, cap, MaxLen(c, i));
    assert before <= run;
  }

  /** Up to the first read: the endpoint is scheduled, a packet arrives, a poll reports it. */
  lemma FirstRead(c: Config, mem: Mem, i: nat, p: Packet, cap: nat) returns (run: seq<Event>, s: St)
    requires GoodConfig(c) && i < MAX_ENDPOINTS && Allocated(c, i) && IsOut(i) && |p| <= MaxLen(c, i)
    ensures Reached(c, mem, run, s)
    ensures Ops(run) == ScheduleOps(i, MaxLen(c, i)) + POLL_OPS + ReadOps(i, cap, MaxLen(c, i))
    ensures s.ep[i].reg.stat && s.ep[i].td.total == MaxLen(c, i) && i / 2 in s.epOut && s.poll.Idle? && !s.ep[i].reg.complete
    ensures s.ep[i].h.rx == [p] && s.ep[i].h.done == [Delivered(cap, p[..Min(cap, |p|)])]
  {
    var before, reported := FirstReport(c, mem, i, p);
    var data;
    s, data := Reads(c, mem, before, reported, i, cap);
    run := before + ReadRun(i, cap, MaxLen(c, i));
  }

  lemma FirstReport(c: Config, mem: Mem, i: nat, p: Packet) returns (run: seq<Event>, s: St)
    requires GoodConfig(c) && i < MAX_ENDPOINTS && Allocated(c, i) && IsOut(i) && |p| <= MaxLen(c, i)
    ensures Reached(c, mem, run, s) && Ops(run) == ScheduleOps(i, MaxLen(c, i)) + POLL_OPS
    ensures s.ep[i].Quiet() && !s.ep[i].h.editing && i / 2 in s.epOut && s.poll.Idle?
    ensures s.ep[i].h.rx == [p] && s.ep[i].h.done == [] && s.ep[i].h.got == None
    ensures forall cap :: ReadLength(s.ep[i], cap) == Min(cap, |p|)
    ensures forall cap :: Load(s.mem, BufferOf(c, i).ptr, Min(cap, |p|)) == p[..Min(cap, |p|)]
  {
    ReachedInitially(c, mem);
    var s1 := Schedules(c, mem, [], Initial(c, mem), i, MaxLen(c, i));
    run := [] + ScheduledRun(i, MaxLen(c, i));
    var s2 := Arrives(c, mem, run, s1, i, p);
    run := run + [Ctl(Receive(i, p))];
    s := Polls(c, mem, run, s2, i);
    run := run + Accesses(POLL_OPS);
  }

  // ---------------------------------------------------------------- stale completions

  /** A write to an endpoint's half of ENDPTCTRL. */
  lemma Controls(c: Config, mem: Mem, run: seq<Event>, s: St, i: nat, op: Op) returns (s': St)
    requires GoodConfig(c) && Reached(c, mem, run, s) && i < MAX_ENDPOINTS && Allocated(c, i)
    requires (op.SetStalled? || op.EnableEp? || op.DisableEp?) && op.slot == i
    ensures Leads(c, mem, run, [Drv(op)], s', [op]) && SlotStays(i, s, s') && s'.mem == s.mem
  {
    ReachedNext(c, mem, run, s, Drv(op));
    s' := DoOp(c, s, op);
    ControlStays(c, s, i, op);
  }

  lemma ControlStays(c: Config, s: St, i: nat, op: Op)
    requires GoodConfig(c) && |s.ep| == MAX_ENDPOINTS && i < MAX_ENDPOINTS && Allocated(c, i)
    requires (op.SetStalled? || op.EnableEp? || op.DisableEp?) && op.slot == i
    ensures SlotStays(i, s, DoOp(c, s, op)) && DoOp(c, s, op).mem == s.mem
  {
  }

  /** The packet `p` waits, and its endpoint is scheduled again without a read: it is
    * discarded, and its completion stays up. A poll reports it, though nothing waits. Then
    * `q` arrives, and the first read after the report returns it. */
  lemma ReadAfterStaleReport(c: Config, mem: Mem, run: seq<Event>, s: St, i: nat, p: Packet, q: Packet, cap: nat)
    returns (polled: St, s': St)
    requires GoodConfig(c) && Reached(c, mem, run, s) && i < MAX_ENDPOINTS && Allocated(c, i) && IsOut(i) && |q| <= MaxLen(c, i)
    requires s.poll.Idle? && s.ui && s.ep[i].Quiet() && s.ep[i].reg.complete && !s.ep[i].h.editing && s.ep[i].h.got == None
    requires s.ep[i].h.rx == [p] && s.ep[i].h.done == []
    ensures Reached(c, mem, run + PolledRun(c, i), polled) && i / 2 in polled.epOut && !polled.ep[i].h.Pending()
    ensures Reached(c, mem, run + PolledRun(c, i) + [Ctl(Receive(i, q))] + ReadRun(i, cap, MaxLen(c, i)), s')
    ensures Ops(run + PolledRun(c, i) + [Ctl(Receive(i, q))] + ReadRun(i, cap, MaxLen(c, i)))
            == Ops(run) + ScheduleOps(i, MaxLen(c, i)) + POLL_OPS + ReadOps(i, cap, MaxLen(c, i))
    ensures s'.ep[i].h.rx == [p, q] && s'.ep[i].h.done == [Discarded, Delivered(cap, q[..Min(cap, |q|)])]
  {
    var scheduled := Schedules(c, mem, run, s, i, MaxLen(c, i));
    polled := Polls(c, mem, run + ScheduledRun(i, MaxLen(c, i)), scheduled, i);
    assert run + ScheduledRun(i, MaxLen(c, i)) + Accesses(POLL_OPS) == run + PolledRun(c, i);
    var arrived := Arrives(c, mem, run + PolledRun(c, i), polled, i, q);
    var data;
    s', data := Reads(c, mem, run + PolledRun(c, i) + [Ctl(Receive(i, q))], arrived, i, cap);
  }

  function PolledRun(c: Config, i: nat): seq<Event>
    requires Allocated(c, i)
  {
    ScheduledRun(i, MaxLen(c, i)) + Accesses(POLL_OPS)
  }

  /** Unstalling takes no completion down. Schedule, arrival of `p`, unstall, poll, arrival of
    * `q`, read: the poll reports the endpoint although nothing waits, and the first read
    * after it returns `q`, which no poll has reported. */
  lemma UnstalledThenPolled(c: Config, mem: Mem, i: nat, p: Packet, q: Packet, cap: nat)
    returns (before: seq<Event>, polled: St, run: seq<Event>, s: St)
    requires GoodConfig(c) && i < MAX_ENDPOINTS && Allocated(c, i) && IsOut(i) && |p| <= MaxLen(c, i) && |q| <= MaxLen(c, i)
    ensures before <= run && Reached(c, mem, before, polled) && i / 2 in polled.epOut && !polled.ep[i].h.Pending()
    ensures Reached(c, mem, run, s)
    ensures var max := MaxLen(c, i);
            Ops(run) == ScheduleOps(i, max) + [Op.SetStalled(i, false)] + ScheduleOps(i, max) + POLL_OPS + ReadOps(i, cap, max)
    ensures s.ep[i].h.rx == [p, q] && s.ep[i].h.done == [Discarded, Delivered(cap, q[..Min(cap, |q|)])]
  {
    ReachedInitially(c, mem);
    var s1 := Schedules(c, mem, [], Initial(c, mem), i, MaxLen(c, i));
    run := [] + ScheduledRun(i, MaxLen(c, i));
    var s2 := Arrives(c, mem, run, s1, i, p);
    run := run + [Ctl(Receive(i, p))];
    var s3 := Controls(c, mem, run, s2, i, Op.SetStalled(i, false));
    run := run + [Drv(Op.SetStalled(i, false))];
    polled, s := ReadAfterStaleReport(c, mem, run, s3, i, p, q, cap);
    before := run + PolledRun(c, i);
    run := before + [Ctl(Receive(i, q))] + ReadRun(i, cap, MaxLen(c, i));
  }

  /** The writes of `bus_reset` to the registers that all endpoints share, with the words that
    * it reads; a packet may arrive before the flush. */
  lemma Resets(c: Config, mem: Mem, run: seq<Event>, s: St, i: nat, p: Packet) returns (second: St, s': St)
    requires GoodConfig(c) && Reached(c, mem, run, s) && i < MAX_ENDPOINTS && Allocated(c, i) && IsOut(i)
    requires s.poll.Idle? && s.ep[i].reg.stat && !s.ep[i].reg.complete && |p| <= s.ep[i].td.total
    ensures |s.ep| == |second.ep| == MAX_ENDPOINTS
    ensures Leads(c, mem, run, ResetRun(s, second, i, p), s', FlagOps(s, second) + [FlushAll])
    ensures s'.poll.Idle? && s'.ui && s'.ep[i].Quiet() && s'.ep[i].reg.complete && !s'.ep[i].h.editing && s'.ep[i].h.got == None
    ensures s'.ep[i].h == s.ep[i].h.(rx := s.ep[i].h.rx + [p])
    ensures NoneFlushing(s')
  {
    var third;
    second, third := ClearsFlags(c, mem, run, s, i);
    var flags := FlagOps(s, second);
    var arrived := Arrives(c, mem, run + Accesses(flags), third, i, p);
    LeadsOn(c, mem, run, Accesses(flags), third, flags, [Ctl(Receive(i, p))], arrived, []);
    s' := FlushesAll(c, mem, run + (Accesses(flags) + [Ctl(Receive(i, p))]), arrived, i);
    LeadsOn(c, mem, run, Accesses(flags) + [Ctl(Receive(i, p))], arrived, flags + [],
            [Drv(FlushAll)] + Flushings(MAX_ENDPOINTS), s', [FlushAll]);
    assert flags + [] == flags;
  }

  function ResetRun(first: St, second: St, i: nat, p: Packet): seq<Event>
    requires |first.ep| == |second.ep| == MAX_ENDPOINTS
  {
    Accesses(FlagOps(first, second)) + [Ctl(Receive(i, p))] + ([Drv(FlushAll)] + Flushings(MAX_ENDPOINTS))
  }

  /** The write-back of ENDPTCOMPLETE and ENDPTNAK, with the states in which they are read. */
  function FlagOps(first: St, second: St): seq<Op>
    requires |first.ep| == |second.ep| == MAX_ENDPOINTS
  {
    [ResetComplete(CompleteSlots(first)), ResetNak(NakSlots(second))]
  }

  lemma ClearsFlags(c: Config, mem: Mem, run: seq<Event>, s: St, i: nat) returns (second: St, s': St)
    requires GoodConfig(c) && Reached(c, mem, run, s) && i < MAX_ENDPOINTS && s.poll.Idle? && s.ep[i].reg.stat && !s.ep[i].reg.complete
    ensures |s.ep| == |second.ep| == MAX_ENDPOINTS && SlotStays(i, s, s') && s'.ep[i].reg.stat
    ensures Leads(c, mem, run, Accesses(FlagOps(s, second)), s', FlagOps(s, second))
  {
    var op := ResetComplete(CompleteSlots(s));
    second := ClearsCompletions(c, mem, run, s, i);
    var nak := ResetNak(NakSlots(second));
    s' := ClearsNaks(c, mem, run + [Drv(op)], second, i);
    LeadsOn(c, mem, run, [Drv(op)], second, [op], [Drv(nak)], s', [nak]);
    TwoAccesses(op, nak);
  }

  lemma TwoAccesses(x: Op, y: Op)
    ensures [Drv(x)] + [Drv(y)] == Accesses([x, y]) && [x] + [y] == [x, y]
  {
  }

  lemma ClearsCompletions(c: Config, mem: Mem, run: seq<Event>, s: St, i: nat) returns (s': St)
    requires GoodConfig(c) && Reached(c, mem, run, s) && i < MAX_ENDPOINTS && s.poll.Idle? && !s.ep[i].reg.complete
    ensures var op := ResetComplete(CompleteSlots(s)); Reached(c, mem, run + [Drv(op)], s') && Ops(run + [Drv(op)]) == Ops(run) + [op]
    ensures s'.ep[i] == s.ep[i] && s'.poll == s.poll && s'.epOut == s.epOut && s'.ui == s.ui
  {
    var op := ResetComplete(CompleteSlots(s));
    ReachedNext(c, mem, run, s, Drv(op));
    s' := DoOp(c, s, op);
    assert s'.ep[i] == ResetEp(i, s.ep[i], CompleteSlots(s));
  }

  lemma ClearsNaks(c: Config, mem: Mem, run: seq<Event>, s: St, i: nat) returns (s': St)
    requires GoodConfig(c) && Reached(c, mem, run, s) && i < MAX_ENDPOINTS
    ensures var op := ResetNak(NakSlots(s)); Reached(c, mem, run + [Drv(op)], s') && Ops(run + [Drv(op)]) == Ops(run) + [op]
    ensures s'.ep[i] == NakEp(i, s.ep[i], NakSlots(s)) && s'.poll == s.poll && s'.epOut == s.epOut && s'.ui == s.ui
  {
    ReachedNext(c, mem, run, s, Drv(ResetNak(NakSlots(s))));
    s' := DoOp(c, s, ResetNak(NakSlots(s)));
  }

  /** The controller finishes the flushes of the slots below `n`. */
  function Flushings(n: nat): seq<Event> {
    seq(n, k requires 0 <= k < n => Ctl(FinishFlush(k)))
  }

  /** Slot `i`, the poll and the mask are as they were, up to flags of the slot. */
  ghost predicate SlotStays(i: nat, s: St, s': St) {
    && |s.ep| == |s'.ep| == MAX_ENDPOINTS && i < MAX_ENDPOINTS
    && s'.ep[i] == s.ep[i].(reg := s'.ep[i].reg) && s'.poll == s.poll && s'.epOut == s.epOut && s'.ui == s.ui
    && s'.ep[i].Quiet() == s.ep[i].Quiet() && s'.ep[i].reg.complete == s.ep[i].reg.complete
  }

  lemma SlotStaysOn(i: nat, s1: St, s2: St, s3: St)
    requires SlotStays(i, s1, s2) && SlotStays(i, s2, s3)
    ensures SlotStays(i, s1, s3)
  {
  }

  /** One flush is finished. */
  lemma FlushesOne(c: Config, mem: Mem, run: seq<Event>, s: St, i: nat, k: nat) returns (s': St)
    requires GoodConfig(c) && Reached(c, mem, run, s) && i < MAX_ENDPOINTS && k < MAX_ENDPOINTS && s.ep[i].Quiet()
    ensures Leads(c, mem, run, [Ctl(FinishFlush(k))], s', []) && SlotStays(i, s, s') && s' == DoFlush(s, k)
    ensures !s'.ep[k].reg.flush && forall j :: 0 <= j < MAX_ENDPOINTS && j != k ==> s'.ep[j] == s.ep[j]
  {
    ReachedNext(c, mem, run, s, Ctl(FinishFlush(k)));
    s' := DoFlush(s, k);
    FlushStays(s, i, k);
  }

  lemma FlushStays(s: St, i: nat, k: nat)
    requires |s.ep| == MAX_ENDPOINTS && i < MAX_ENDPOINTS && k < MAX_ENDPOINTS && s.ep[i].Quiet()
    ensures SlotStays(i, s, DoFlush(s, k)) && !DoFlush(s, k).ep[k].reg.flush
  {
  }

  /** The flushes of the slots below `n` are finished. */
  ghost predicate FlushedSoFar(c: Config, mem: Mem, run: seq<Event>, s: St, i: nat, n: nat, s': St)
    requires GoodConfig(c)
  {
    Leads(c, mem, run, Flushings(n), s', []) && SlotStays(i, s, s') && NoneFlushingBelow(s', n)
  }

  ghost predicate NoneFlushingBelow(s: St, n: nat)
    requires |s.ep| == MAX_ENDPOINTS
  {
    forall j :: 0 <= j < n && j < MAX_ENDPOINTS ==> !s.ep[j].reg.flush
  }

  lemma {:induction false} Flushes(c: Config, mem: Mem, run: seq<Event>, s: St, i: nat, n: nat) returns (s': St)
    requires GoodConfig(c) && Reached(c, mem, run, s) && i < MAX_ENDPOINTS && s.ep[i].Quiet() && n <= MAX_ENDPOINTS
    ensures FlushedSoFar(c, mem, run, s, i, n, s')
  {
    if n == 0 {
      s' := s;
      assert run + Flushings(0) == run;
    } else {
      var m := Flushes(c, mem, run, s, i, n - 1);
      s' := FlushesNext(c, mem, run, s, i, n - 1, m);
    }
  }

  lemma FlushesNext(c: Config, mem: Mem, run: seq<Event>, s: St, i: nat, k: nat, m: St) returns (s': St)
    requires GoodConfig(c) && i < MAX_ENDPOINTS && k < MAX_ENDPOINTS && FlushedSoFar(c, mem, run, s, i, k, m) && s.ep[i].Quiet()
    ensures FlushedSoFar(c, mem, run, s, i, k + 1, s')
  {
    s' := FlushesOne(c, mem, run + Flushings(k), m, i, k);
    SlotStaysOn(i, s, m, s');
    LeadsOn(c, mem, run, Flushings(k), m, [], [Ctl(FinishFlush(k))], s', []);
    FlushingsGrow(k);
  }

  lemma FlushingsGrow(k: nat)
    ensures Flushings(k) + [Ctl(FinishFlush(k))] == Flushings(k + 1)
  {
  }

  lemma FlushesAll(c: Config, mem: Mem, run: seq<Event>, s: St, i: nat) returns (s': St)
    requires GoodConfig(c) && Reached(c, mem, run, s) && i < MAX_ENDPOINTS && s.ep[i].Quiet()
    ensures Leads(c, mem, run, [Drv(FlushAll)] + Flushings(MAX_ENDPOINTS), s', [FlushAll])
    ensures SlotStays(i, s, s') && NoneFlushing(s')
  {
    var m := AsksForFlush(c, mem, run, s);
    assert m.ep[i] == FlushEp(s.ep[i]);
    s' := Flushes(c, mem, run + [Drv(FlushAll)], m, i, MAX_ENDPOINTS);
    LeadsOn(c, mem, run, [Drv(FlushAll)], m, [FlushAll], Flushings(MAX_ENDPOINTS), s', []);
  }

  /** Slot `i` is the only data endpoint. */
  ghost predicate OnlyData(c: Config, i: nat) {
    IsDataOut(c, i) && i < MAX_ENDPOINTS && forall j :: 2 <= j < MAX_ENDPOINTS && Allocated(c, j) ==> j == i
  }

  lemma {:induction false} OnlyControl(c: Config, i: nat, k: nat, enable: bool)
    requires OnlyData(c, i) && k <= MAX_ENDPOINTS
    ensures ControlOps(c, k, enable) == if i < k then ControlOp(c, i, enable) else []
    decreases k
  {
    if k > 2 {
      OnlyControl(c, i, k - 1, enable);
      if i != k - 1 {
        assert ControlOp(c, k - 1, enable) == [];
      }
    }
  }

  lemma {:induction false} OnlyPrime(c: Config, i: nat, k: nat)
    requires OnlyData(c, i) && k <= MAX_ENDPOINTS
    ensures PrimeOps(c, k) == if i < k then TurnOps(c, i) else []
    decreases k
  {
    if k > 2 {
      OnlyPrime(c, i, k - 1);
      var before, turn := PrimeOps(c, k - 1), TurnOps(c, k - 1);
      assert PrimeOps(c, k) == before + turn;
      assert if i == k - 1 then before == [] else turn == [];
    }
  }

  /** The writes of `on_configured`. */
  function ConfigureOps(c: Config): seq<Op> {
    ControlOps(c, MAX_ENDPOINTS, true) + PrimeOps(c, MAX_ENDPOINTS)
  }

  /** The documented order does not help. Configuration, reset, configuration, poll, read, with
    * `p` landing in the reset between the write-back of ENDPTCOMPLETE and the flush: the
    * second configuration discards `p`, the poll reports the endpoint although nothing waits,
    * and the first read after it returns `q`, which no poll has reported. */
  lemma ResetThenPolled(c: Config, mem: Mem, i: nat, p: Packet, q: Packet, cap: nat)
    returns (first: St, second: St, before: seq<Event>, polled: St, run: seq<Event>, s: St)
    requires GoodConfig(c) && OnlyData(c, i) && |p| <= MaxLen(c, i) && |q| <= MaxLen(c, i)
    ensures |first.ep| == |second.ep| == MAX_ENDPOINTS
    ensures before <= run && Reached(c, mem, before, polled) && i / 2 in polled.epOut && !polled.ep[i].h.Pending()
    ensures Reached(c, mem, run, s)
    ensures Ops(run) == ConfigureOps(c)
                        + [ResetComplete(CompleteSlots(first)), ResetNak(NakSlots(second)), FlushAll]
                        + ControlOps(c, MAX_ENDPOINTS, false) + ConfigureOps(c) + POLL_OPS + ReadOps(i, cap, MaxLen(c, i))
    ensures s.ep[i].h.rx == [p, q] && s.ep[i].h.done == [Discarded, Delivered(cap, q[..Min(cap, |q|)])]
  {
    first, second, before, polled, run, s := ResetThenStale(c, mem, i, p, q, cap);
    OnlyControl(c, i, MAX_ENDPOINTS, true);
    OnlyControl(c, i, MAX_ENDPOINTS, false);
    OnlyPrime(c, i, MAX_ENDPOINTS);
    assert ConfigureOps(c) == [EnableEp(i)] + ScheduleOps(i, MaxLen(c, i));
  }

  lemma ResetThenStale(c: Config, mem: Mem, i: nat, p: Packet, q: Packet, cap: nat)
    returns (first: St, second: St, before: seq<Event>, polled: St, run: seq<Event>, s: St)
    requires GoodConfig(c) && OnlyData(c, i) && |p| <= MaxLen(c, i) && |q| <= MaxLen(c, i)
    ensures |first.ep| == |second.ep| == MAX_ENDPOINTS
    ensures before <= run && Reached(c, mem, before, polled) && i / 2 in polled.epOut && !polled.ep[i].h.Pending()
    ensures Reached(c, mem, run, s)
    ensures var configure := [EnableEp(i)] + ScheduleOps(i, MaxLen(c, i));
            Ops(run) == configure + [ResetComplete(CompleteSlots(first)), ResetNak(NakSlots(second)), FlushAll]
                        + [DisableEp(i)] + configure + POLL_OPS + ReadOps(i, cap, MaxLen(c, i))
    ensures s.ep[i].h.rx == [p, q] && s.ep[i].h.done == [Discarded, Delivered(cap, q[..Min(cap, |q|)])]
  {
    var flushed;
    first, second, run, flushed := ConfigureThenReset(c, mem, i, p);
    var disabled := Controls(c, mem, run, flushed, i, DisableEp(i));
    run := run + [Drv(DisableEp(i))];
    var enabled := Controls(c, mem, run, disabled, i, EnableEp(i));
    run := run + [Drv(EnableEp(i))];
    polled, s := ReadAfterStaleReport(c, mem, run, enabled, i, p, q, cap);
    before := run + PolledRun(c, i);
    run := before + [Ctl(Receive(i, q))] + ReadRun(i, cap, MaxLen(c, i));
  }

  lemma ConfigureThenReset(c: Config, mem: Mem, i: nat, p: Packet) returns (first: St, second: St, run: seq<Event>, s: St)
    requires GoodConfig(c) && OnlyData(c, i) && |p| <= MaxLen(c, i)
    ensures |first.ep| == |second.ep| == MAX_ENDPOINTS && Reached(c, mem, run, s)
    ensures Ops(run) == [EnableEp(i)] + ScheduleOps(i, MaxLen(c, i))
                        + [ResetComplete(CompleteSlots(first)), ResetNak(NakSlots(second)), FlushAll]
    ensures s.poll.Idle? && s.ui && s.ep[i].Quiet() && s.ep[i].reg.complete && !s.ep[i].h.editing && s.ep[i].h.got == None
    ensures s.ep[i].h.rx == [p] && s.ep[i].h.done == []
  {
    ReachedInitially(c, mem);
    var enabled := Controls(c, mem, [], Initial(c, mem), i, EnableEp(i));
    run := [] + [Drv(EnableEp(i))];
    first := Schedules(c, mem, run, enabled, i, MaxLen(c, i));
    run := run + ScheduledRun(i, MaxLen(c, i));
    second, s := Resets(c, mem, run, first, i, p);
    run := run + ResetRun(first, second, i, p);
  }

  // ---------------------------------------------------------------- reads after a reset

  /** A flush cuts the transfer of slot `i`, which brings no packet. */
  ghost predicate IsCut(i: nat, s: St, s': St) {
    && |s.ep| == |s'.ep| == MAX_ENDPOINTS && i < MAX_ENDPOINTS && s'.ep[i].Quiet() && s'.ep[i].td == s.ep[i].td
    && s'.ep[i].h == s.ep[i].h.(armed := false, cuts := s.ep[i].h.cuts + 1) && s'.poll == s.poll && s'.epOut == s.epOut
  }

  lemma CutByFlush(c: Config, mem: Mem, run: seq<Event>, s: St, i: nat) returns (s': St)
    requires GoodConfig(c) && Reached(c, mem, run, s) && i < MAX_ENDPOINTS && IsOut(i) && s.ep[i].reg.stat
    ensures Leads(c, mem, run, FlushRun(i), s', [FlushAll]) && IsCut(i, s, s') && NoneFlushing(s')
  {
    var m := CutFirst(c, mem, run, s, i);
    var head := [Drv(FlushAll)] + [Ctl(FinishFlush(i))];
    s' := Flushes(c, mem, run + head, m, i, MAX_ENDPOINTS);
    LeadsOn(c, mem, run, head, m, [FlushAll] + [], Flushings(MAX_ENDPOINTS), s', []);
    assert [FlushAll] + [] + [] == [FlushAll];
  }

  lemma CutFirst(c: Config, mem: Mem, run: seq<Event>, s: St, i: nat) returns (s': St)
    requires GoodConfig(c) && Reached(c, mem, run, s) && i < MAX_ENDPOINTS && IsOut(i) && s.ep[i].reg.stat
    ensures Leads(c, mem, run, [Drv(FlushAll)] + [Ctl(FinishFlush(i))], s', [FlushAll] + []) && IsCut(i, s, s')
  {
    AcceptedIsNotPriming(c, mem, run, s, i);
    FlushedRecord(c, s, i);
    var m := AsksForFlush(c, mem, run, s);
    s' := FinishesFlush(c, mem, run + [Drv(FlushAll)], m, i);
    LeadsOn(c, mem, run, [Drv(FlushAll)], m, [FlushAll], [Ctl(FinishFlush(i))], s', []);
  }

  lemma AsksForFlush(c: Config, mem: Mem, run: seq<Event>, s: St) returns (s': St)
    requires GoodConfig(c) && Reached(c, mem, run, s)
    ensures |s.ep| == MAX_ENDPOINTS && Leads(c, mem, run, [Drv(FlushAll)], s', [FlushAll]) && s' == DoOp(c, s, FlushAll)
  {
    ReachedNext(c, mem, run, s, Drv(FlushAll));
    s' := DoOp(c, s, FlushAll);
  }

  lemma FinishesFlush(c: Config, mem: Mem, run: seq<Event>, s: St, i: nat) returns (s': St)
    requires GoodConfig(c) && Reached(c, mem, run, s) && i < MAX_ENDPOINTS
    ensures |s.ep| == MAX_ENDPOINTS && Leads(c, mem, run, [Ctl(FinishFlush(i))], s', []) && s' == DoFlush(s, i)
  {
    ReachedNext(c, mem, run, s, Ctl(FinishFlush(i)));
    s' := DoFlush(s, i);
  }

  lemma AcceptedIsNotPriming(c: Config, mem: Mem, run: seq<Event>, s: St, i: nat)
    requires GoodConfig(c) && Reached(c, mem, run, s) && i < MAX_ENDPOINTS && s.ep[i].reg.stat
    ensures !s.ep[i].reg.prime
  {
    ReachableInv(c, mem, run, s);
    assert Holds(c, i, s);
  }

  lemma FlushedRecord(c: Config, s: St, i: nat)
    requires GoodConfig(c) && |s.ep| == MAX_ENDPOINTS && i < MAX_ENDPOINTS && IsOut(i) && s.ep[i].reg.stat && !s.ep[i].reg.prime
    ensures IsCut(i, s, DoFlush(DoOp(c, s, FlushAll), i))
  {
    assert DoOp(c, s, FlushAll).ep[i] == FlushEp(s.ep[i]);
  }

  function FlushRun(i: nat): seq<Event> {
    [Drv(FlushAll)] + [Ctl(FinishFlush(i))] + Flushings(MAX_ENDPOINTS)
  }

  /** The pass of a reset over ENDPTCTRL, below slot `k`. */
  lemma {:induction false} DisablePass(c: Config, s: St, i: nat, k: nat)
    requires GoodConfig(c) && |s.ep| == MAX_ENDPOINTS && i < MAX_ENDPOINTS && k <= MAX_ENDPOINTS
    ensures DisabledSoFar(c, s, i, ControlOps(c, k, false))
    decreases k
  {
    if k <= 2 {
      DisableNone(c, s, i);
    } else {
      DisablePass(c, s, i, k - 1);
      DisableNext(c, s, i, ControlOps(c, k - 1, false), k - 1);
    }
  }

  lemma DisableNone(c: Config, s: St, i: nat)
    requires GoodConfig(c) && |s.ep| == MAX_ENDPOINTS && i < MAX_ENDPOINTS
    ensures DisabledSoFar(c, s, i, [])
  {
  }

  ghost predicate DisabledSoFar(c: Config, s: St, i: nat, ops: seq<Op>)
    requires GoodConfig(c) && |s.ep| == MAX_ENDPOINTS
  {
    Perform(c, s, ops).Some? && SlotStays(i, s, Perform(c, s, ops).value)
  }

  lemma DisableNext(c: Config, s: St, i: nat, ops: seq<Op>, k: nat)
    requires GoodConfig(c) && |s.ep| == MAX_ENDPOINTS && i < MAX_ENDPOINTS && k < MAX_ENDPOINTS && DisabledSoFar(c, s, i, ops)
    ensures DisabledSoFar(c, s, i, ops + ControlOp(c, k, false))
  {
    var m := Perform(c, s, ops).value;
    DisableOne(c, m, i, k);
    SlotStaysOn(i, s, m, Perform(c, m, ControlOp(c, k, false)).value);
    PerformBoth(c, s, ops, ControlOp(c, k, false));
  }

  lemma DisableOne(c: Config, s: St, i: nat, k: nat)
    requires GoodConfig(c) && |s.ep| == MAX_ENDPOINTS && i < MAX_ENDPOINTS && k < MAX_ENDPOINTS
    ensures var r := Perform(c, s, ControlOp(c, k, false)); r.Some? && SlotStays(i, s, r.value)
  {
    if Allocated(c, k) {
      DisableStays(c, s, i, k);
      PerformOne(c, s, [], DisableEp(k));
      assert [] + [DisableEp(k)] == ControlOp(c, k, false);
    }
  }

  lemma DisableStays(c: Config, s: St, i: nat, k: nat)
    requires GoodConfig(c) && |s.ep| == MAX_ENDPOINTS && i < MAX_ENDPOINTS && k < MAX_ENDPOINTS && Allocated(c, k)
    ensures SlotStays(i, s, DoOp(c, s, DisableEp(k))) && Legal(c, s, DisableEp(k))
  {
    assert DoOp(c, s, DisableEp(k)).ep == s.ep[k := s.ep[k].(reg := s.ep[k].reg.Disable())];
  }

  /** `ep_out` survives a reset. Schedule, arrival, poll, read, reset, read: the mask still
    * names the endpoint, whose transfer the reset has cut, and the second read returns an
    * empty packet, which nobody sent. It also primes the endpoint, so that the configuration
    * that follows finds it primed. */
  lemma ReadAfterReset(c: Config, mem: Mem, i: nat, p: Packet, cap: nat)
    returns (read: St, second: St, before: seq<Event>, reset: St, run: seq<Event>, s: St, data: Packet)
    requires GoodConfig(c) && i < MAX_ENDPOINTS && Allocated(c, i) && IsOut(i) && |p| <= MaxLen(c, i)
    ensures |read.ep| == |second.ep| == |reset.ep| == MAX_ENDPOINTS
    ensures before <= run && Reached(c, mem, before, reset)
    ensures reset.ep[i].Quiet() && !reset.ep[i].td.status.IsError() && !reset.ep[i].h.Pending() && i / 2 in reset.epOut
    ensures Reached(c, mem, run, s) && data == [] && s.ep[i].h.phantom == reset.ep[i].h.phantom + [data] && s.ep[i].h.rx == [p]
    ensures IsDataOut(c, i) ==> !DataOutQuiet(c, s)
    ensures var max := MaxLen(c, i);
            Ops(run) == ScheduleOps(i, max) + POLL_OPS + ReadOps(i, cap, max) + ResetOps(c, read, second) + ReadOps(i, cap, max)
  {
    var first;
    first, read := FirstRead(c, mem, i, p, cap);
    var more;
    second, more, reset := ResetsIdle(c, mem, first, read, i);
    EmptyWhenCut(c, mem, first, read, reset, i, cap);
    before := first + more;
    s, data := Reads(c, mem, before, reset, i, cap);
    run := before + ReadRun(i, cap, MaxLen(c, i));
  }

  /** A reset, while the endpoint waits for a packet. */
  lemma ResetsIdle(c: Config, mem: Mem, run: seq<Event>, s: St, i: nat) returns (second: St, more: seq<Event>, s': St)
    requires GoodConfig(c) && Reached(c, mem, run, s) && i < MAX_ENDPOINTS && Allocated(c, i) && IsOut(i)
    requires s.poll.Idle? && s.ep[i].reg.stat && !s.ep[i].reg.complete
    ensures |s.ep| == |second.ep| == MAX_ENDPOINTS && IsCut(i, s, s')
    ensures Leads(c, mem, run, more, s', ResetOps(c, s, second))
  {
    var flushed;
    second, flushed := ClearsAndCuts(c, mem, run, s, i);
    var head := Accesses(FlagOps(s, second)) + FlushRun(i);
    s' := Disables(c, mem, run + head, flushed, i);
    more := head + Accesses(ControlOps(c, MAX_ENDPOINTS, false));
    LeadsOn(c, mem, run, head, flushed, FlagOps(s, second) + [FlushAll],
            Accesses(ControlOps(c, MAX_ENDPOINTS, false)), s', ControlOps(c, MAX_ENDPOINTS, false));
  }

  lemma ClearsAndCuts(c: Config, mem: Mem, run: seq<Event>, s: St, i: nat) returns (second: St, s': St)
    requires GoodConfig(c) && Reached(c, mem, run, s) && i < MAX_ENDPOINTS && IsOut(i)
    requires s.poll.Idle? && s.ep[i].reg.stat && !s.ep[i].reg.complete
    ensures |s.ep| == |second.ep| == MAX_ENDPOINTS && IsCut(i, s, s')
    ensures Leads(c, mem, run, Accesses(FlagOps(s, second)) + FlushRun(i), s', FlagOps(s, second) + [FlushAll])
  {
    var third;
    second, third := ClearsFlags(c, mem, run, s, i);
    s' := CutByFlush(c, mem, run + Accesses(FlagOps(s, second)), third, i);
    LeadsOn(c, mem, run, Accesses(FlagOps(s, second)), third, FlagOps(s, second), FlushRun(i), s', [FlushAll]);
  }

  lemma Disables(c: Config, mem: Mem, run: seq<Event>, s: St, i: nat) returns (s': St)
    requires GoodConfig(c) && Reached(c, mem, run, s) && i < MAX_ENDPOINTS
    ensures Leads(c, mem, run, Accesses(ControlOps(c, MAX_ENDPOINTS, false)), s', ControlOps(c, MAX_ENDPOINTS, false))
    ensures SlotStays(i, s, s')
  {
    DisablePass(c, s, i, MAX_ENDPOINTS);
    GoesOn(c, mem, run, s, ControlOps(c, MAX_ENDPOINTS, false));
    s' := Perform(c, s, ControlOps(c, MAX_ENDPOINTS, false)).value;
  }

  /** The writes of `bus_reset`, with the states in which it reads the two words. */
  function ResetOps(c: Config, first: St, second: St): seq<Op>
    requires |first.ep| == |second.ep| == MAX_ENDPOINTS
  {
    FlagOps(first, second) + [FlushAll] + ControlOps(c, MAX_ENDPOINTS, false)
  }

  /** Nothing has arrived when a transfer is cut. */
  lemma EmptyWhenCut(c: Config, mem: Mem, run: seq<Event>, s: St, s': St, i: nat, cap: nat)
    requires GoodConfig(c) && Reached(c, mem, run, s) && i < MAX_ENDPOINTS && Allocated(c, i) && IsOut(i) && s.ep[i].reg.stat
    requires IsCut(i, s, s')
    ensures !s'.ep[i].td.status.IsError() && !s'.ep[i].h.Pending() && !s'.ep[i].h.editing && ReadLength(s'.ep[i], cap) == 0
  {
    ReachableInv(c, mem, run, s);
    assert Holds(c, i, s);
  }
}
