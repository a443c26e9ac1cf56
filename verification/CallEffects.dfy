/** What the calls of the driver do to the shared state, and to the histories. */
module CallEffects {
  import opened Types
  import opened EndpointRegisters
  import opened Memory
  import opened Device
  import opened Invariant
  import opened Agreement
  import opened Usb
  import opened EndpointDriver

  /** No call of the driver is in progress on the endpoint. */
  ghost predicate AtRest(e: Ep) {
    !e.reg.prime && !e.h.editing && e.h.got == None
  }

  /** Why a call refuses: the descriptor shows an error, or the controller has the endpoint. */
  ghost predicate RefusedFor(e: Ep, error: UsbError) {
    (error == InvalidState && e.td.status.IsError()) || (error == WouldBlock && e.reg.stat)
  }

  ghost predicate Calm(s: St) {
    |s.ep| == MAX_ENDPOINTS && forall i :: 0 <= i < MAX_ENDPOINTS ==> AtRest(s.ep[i])
  }

  lemma CalmKept(c: Config, own: set<nat>, s: St, s': St)
    requires Calm(s) && RelyExcept(c, own, s, s')
    requires forall i :: i in own && i < MAX_ENDPOINTS ==> AtRest(s'.ep[i])
    ensures Calm(s')
  {
    forall i | 0 <= i < MAX_ENDPOINTS ensures AtRest(s'.ep[i]) {
      if i !in own {
        assert SlotRely(c, i, s, s') && AtRest(s.ep[i]);
      }
    }
  }

  /** The states in which a transfer call finds its endpoint when it looks at the descriptor's
    * status, and when it then looks at ENDPTSTAT. */
  datatype Looks = Looks(first: St, second: St)

  ghost predicate LookedAt(c: Config, s: St, looks: Looks) {
    Rely(c, s, looks.first) && Rely(c, looks.first, looks.second)
  }

  /** The two looks let a call pass. */
  ghost predicate LetPass(e: Ep, first: Ep, second: Ep) {
    EpRely(e, first) && EpRely(first, second) && !first.td.status.IsError() && second.Quiet()
  }

  /** What a successful read does to its endpoint. It hands out the packet that waits at the
    * second look; if none waits, it finds none, and then it returns nothing, unless the
    * descriptor shows an error. A packet that waits when the call begins is handed out. None
    * waits if a transfer failed between the two looks; and, without a flush, only then. */
  ghost predicate ReadEffect(e: Ep, first: Ep, second: Ep, h': History, cap: nat, data: Packet) {
    && LetPass(e, first, second) && Onwards(second.h, h')
    && (if second.h.Pending() then HandedOut(e.h, h', cap, data)
        else FoundNone(e.h, h', data) && (data == [] || second.td.status.IsError()))
    && (e.h.Pending() ==> second.h.Pending())
    && (second.h.fails > first.h.fails ==> !second.h.Pending())
    && (Live(e) && second.h.cuts == e.h.cuts && !second.h.Pending() ==> second.h.fails > first.h.fails)
  }

  lemma ReadPassed(c: Config, i: nat, e: Ep, first: Ep, s: St, h': History, cap: nat, data: Packet)
    requires GoodConfig(c) && |s.ep| == MAX_ENDPOINTS && i < MAX_ENDPOINTS && IsOut(i) && Allocated(c, i)
    requires Holds(c, i, s) && AtRest(s.ep[i]) && LetPass(e, first, s.ep[i])
    requires TakenFrom(s.ep[i], h', cap, data)
    ensures ReadEffect(e, first, s.ep[i], h', cap, data)
  {
    PassedOut(c, i, e, first, s);
  }

  /** Whether a packet waits at the second look. */
  lemma PassedOut(c: Config, i: nat, e: Ep, first: Ep, s: St)
    requires GoodConfig(c) && |s.ep| == MAX_ENDPOINTS && i < MAX_ENDPOINTS && IsOut(i) && Allocated(c, i)
    requires Holds(c, i, s) && AtRest(s.ep[i]) && LetPass(e, first, s.ep[i])
    ensures var second := s.ep[i];
            && (e.h.Pending() ==> second.h.Pending())
            && (second.h.fails > first.h.fails ==> !second.h.Pending())
            && (Live(e) && second.h.cuts == e.h.cuts && !second.h.Pending() ==> second.h.fails > first.h.fails)
  {
  }

  /** What taking a packet from an endpoint that the driver has does to its histories. */
  ghost predicate TakenFrom(e: Ep, h': History, cap: nat, data: Packet) {
    && (if e.h.Pending() then HandedOut(e.h, h', cap, data)
        else FoundNone(e.h, h', data) && (data == [] || e.td.status.IsError()))
    && Onwards(e.h, h')
  }

  /** What goes on behind a call that takes no packet, and behind one that does. */
  ghost predicate Onwards(h: History, h': History) {
    h.rx <= h'.rx && h.fails <= h'.fails && h.cuts <= h'.cuts
  }

  ghost predicate HandedOut(h: History, h': History, cap: nat, data: Packet) {
    && h'.done == h.done + [Delivered(cap, data)] && h'.phantom == h.phantom
    && |h.done| < |h'.rx| && data == h'.rx[|h.done|][..Min(cap, |h'.rx[|h.done|]|)]
  }

  ghost predicate FoundNone(h: History, h': History, data: Packet) {
    h'.done == h.done && h'.phantom == h.phantom + [data]
  }

  /** The endpoint was scheduled again without a read: a packet that waited is overwritten. */
  ghost predicate Overwritten(h: History, h': History) {
    && h'.phantom == h.phantom
    && (h'.done == h.done || (h'.done == h.done + [Discarded] && |h.done| < |h'.rx|))
    && Onwards(h, h')
  }

  /** An OUT endpoint has been scheduled whatever waited: its mailbox is live, short of a
    * flush, and matched if it was free with its completion bit down. */
  ghost predicate Renewed(e: Ep, e': Ep) {
    (e'.h.cuts == e.h.cuts ==> Live(e')) && (Spent(e) ==> Matched(e'))
  }

  /** What a call does that schedules an OUT endpoint for `size` bytes, whatever waits, if it
    * finds it the driver's: it does (`done`), and discards what waited, and the endpoint is
    * armed unless the transfer has failed or was cut; or ENDPTSTAT was up, and it leaves the
    * endpoint to the controller. */
  ghost predicate Reprimed(e: Ep, e': Ep, done: bool, size: nat) {
    && (if done then Overwritten(e.h, e'.h) && ArmedSince(e.h, e'.h) && e'.td.last == size
        else e.reg.stat && HistoryRely(e.h, e'.h))
    && (e.Quiet() ==> done && e'.h.done == e.h.done + (if e.h.Pending() then [Discarded] else []))
  }

  ghost predicate ArmedSince(h: History, h': History) {
    h'.fails == h.fails && h'.cuts == h.cuts ==> h'.armed
  }

  lemma SettledUnread(c: Config, i: nat, e: Ep, mem: Mem, e': Ep, size: nat)
    requires GoodConfig(c) && i < MAX_ENDPOINTS && IsOut(i) && Allocated(c, i) && e.Quiet() && AtRest(e) && |e.h.done| <= |e.h.rx|
    requires HistoryRely(ScheduledHistory(c, i, e, mem, size), e'.h) && e'.td.last == size
    ensures Reprimed(e, e', true, size)
  {
  }

  /** From an earlier state on, since which the driver has done nothing to the histories. */
  lemma ReprimedFrom(e: Ep, m: Ep, e': Ep, done: bool, size: nat)
    requires HistoryRely(e.h, m.h) && (e.Quiet() ==> m.Quiet() && m.h == e.h) && !e.reg.prime && Reprimed(m, e', done, size)
    ensures Reprimed(e, e', done, size)
  {
  }

  /** The endpoint after a successful read: the transfer of the next packet is scheduled. */
  ghost predicate HasRead(e: Ep, first: Ep, second: Ep, e': Ep, cap: nat, data: Packet, size: nat) {
    && ReadEffect(e, first, second, e'.h, cap, data) && ArmedSince(second.h, e'.h) && e'.td.last == size
    && (e'.h.cuts == e.h.cuts ==> Live(e')) && Matched(e')
  }

  /** From the instant at which the endpoint was found to be the driver's. */
  lemma ReadOutcome(c: Config, i: nat, s: St, cap: nat, data: Packet, h': History)
    requires GoodConfig(c) && |s.ep| == MAX_ENDPOINTS && i < MAX_ENDPOINTS && Holds(c, i, s)
    requires IsOut(i) && Allocated(c, i) && s.ep[i].Quiet() && !s.ep[i].h.editing
    requires |data| == ReadLength(s.ep[i], cap) && data == Load(s.mem, BufferOf(c, i).ptr, |data|)
    requires HistoryRely(BeginEdit(i, s.ep[i].h.(got := Some((cap, data)))).(editing := false, armed := true), h')
    ensures TakenFrom(s.ep[i], h', cap, data)
  {
    var h := s.ep[i].h;
    if h.Pending() {
      var p := Last(h.rx);
      assert h'.rx[|h.done|] == p;
      assert Load(s.mem, BufferOf(c, i).ptr, |data|) == Load(s.mem, BufferOf(c, i).ptr, |p|)[..|data|];
    }
  }

  /** The endpoint was the driver's from `s` until its packet was copied out. */
  lemma TakenWhenKept(c: Config, i: nat, s: St, m: St, cap: nat, data: Packet, h': History)
    requires GoodConfig(c) && Kept(c, i, s, m) && Holds(c, i, s) && IsOut(i) && Allocated(c, i) && !s.ep[i].h.editing
    requires |data| == ReadLength(m.ep[i], cap) && data == Load(m.mem, BufferOf(c, i).ptr, |data|)
    requires HistoryRely(BeginEdit(i, m.ep[i].h.(got := Some((cap, data)))).(editing := false, armed := true), h')
    ensures TakenFrom(s.ep[i], h', cap, data)
  {
    LoadSame(s.mem, m.mem, BufferOf(c, i).ptr, BufferOf(c, i).len, |data|);
    ReadOutcome(c, i, s, cap, data, h');
  }

  /** A call on one endpoint, then a call on another. */
  lemma TwoEndpoints(c: Config, i: nat, j: nat, s0: St, s1: St, s2: St)
    requires RelyExcept(c, {i}, s0, s1) && RelyExcept(c, {j}, s1, s2) && i != j && i < MAX_ENDPOINTS && j < MAX_ENDPOINTS
    ensures RelyExcept(c, {j, i}, s0, s2) && SlotRely(c, j, s0, s1) && SlotRely(c, i, s1, s2)
  {
    RelyExceptTransitive(c, {j, i}, s0, s1, s2);
  }

  /** The driver has the endpoint, and every completion of it has been taken down. */
  ghost predicate Spent(e: Ep) {
    e.Quiet() && !e.reg.complete
  }

  /** What a successful write does to its endpoint. Every packet before its own has met its
    * fate; and the one right before it failed if and only if the failure fell between the two
    * looks of this call. That cannot be if the driver has the endpoint when the call begins. */
  ghost predicate WriteEffect(e: Ep, first: Ep, second: Ep, h': History, data: Packet) {
    && LetPass(e, first, second) && Onwards(second.h, h')
    && h'.queued == e.h.queued + [data] && |e.h.queued| <= |h'.fates| && e.h.fates <= h'.fates
    && h'.reported == e.h.reported && h'.dropped == e.h.dropped && e.h.merged <= h'.merged
    && (e.h.queued != [] ==> (h'.fates[|e.h.queued| - 1].Failed? <==> second.h.fails > first.h.fails))
    && (e.Quiet() ==> second.h.fails == first.h.fails)
  }

  lemma WriteOutcome(e: Ep, first: Ep, second: Ep, data: Packet, h': History)
    requires LetPass(e, first, second) && QuietInInv(second) && !second.h.editing
    requires HistoryRely(QueuedHistory(second, data), h')
    ensures WriteEffect(e, first, second, h', data)
  {
    assert h'.fates[..|second.h.fates|] == second.h.fates;
  }

  /** The endpoint after a successful write. */
  ghost predicate Wrote(e: Ep, first: Ep, second: Ep, e': Ep, data: Packet) {
    WriteEffect(e, first, second, e'.h, data) && (Spent(e) ==> Tidy(e') && e'.h.merged == e.h.merged)
  }

  /** How a read ends: decided by what the descriptor shows and the mask names, if the driver
    * has the endpoint when the call begins; and no error is without its reason. */
  ghost predicate ReadDecided(e: Ep, e': Ep, named: bool, r: Result<Packet>) {
    && (e.Quiet() ==>
          if e.td.status.IsError() then r == Err(InvalidState) else if !named then r == Err(WouldBlock) else r.Ok?)
    && (r.Err? ==> RefusedFor(e', r.error) || (!named && r.error == WouldBlock))
    && (r.Ok? ==> named)
  }

  /** How a write ends: all of the packet is accepted that one packet and the buffer hold. */
  ghost predicate WriteDecided(c: Config, i: nat, e: Ep, e': Ep, size: nat, r: Result<nat>)
    requires Allocated(c, i)
  {
    && (e.Quiet() ==> if e.td.status.IsError() then r == Err(InvalidState) else r.Ok?)
    && (r.Err? ==> RefusedFor(e', r.error))
    && (r.Ok? ==> r.value == Min(size, Min(1024, BufferOf(c, i).len)))
  }

  /** What a read of an OUT endpoint does; an error return has touched nothing. */
  ghost predicate DataRead(c: Config, i: nat, named: bool, s: St, s': St, looks: Looks, cap: nat, r: Result<Packet>)
    requires Allocated(c, i)
  {
    && |s.ep| == |s'.ep| == |looks.first.ep| == |looks.second.ep| == MAX_ENDPOINTS && i < MAX_ENDPOINTS
    && ReadDecided(s.ep[i], s'.ep[i], named, r) && (r.Err? ==> Rely(c, s, s'))
    && (r.Ok? ==> HasRead(s.ep[i], looks.first.ep[i], looks.second.ep[i], s'.ep[i], cap, r.value, Min(1024, BufferOf(c, i).len)))
  }

  function DataReadOps(c: Config, i: nat, cap: nat, r: Result<Packet>): seq<Op>
    requires Allocated(c, i)
  {
    if r.Ok? then ReadOps(i, cap, MaxLen(c, i)) else []
  }

  lemma ReadRefused(c: Config, i: nat, named: bool, s: St, s': St, looks: Looks, cap: nat, error: UsbError)
    requires Allocated(c, i) && i < MAX_ENDPOINTS && Rely(c, s, s') && LookedAt(c, s, looks)
    requires RefusedFor(s'.ep[i], error) || (!named && error == WouldBlock)
    requires s.ep[i].Quiet() ==> error == if s.ep[i].td.status.IsError() then InvalidState else WouldBlock
    requires s.ep[i].Quiet() && !s.ep[i].td.status.IsError() ==> !named
    ensures DataRead(c, i, named, s, s', looks, cap, Err(error))
  {
  }

  lemma ReadAccepted(c: Config, i: nat, s: St, s': St, looks: Looks, cap: nat, data: Packet)
    requires Allocated(c, i) && i < MAX_ENDPOINTS && |s.ep| == |s'.ep| == MAX_ENDPOINTS && LookedAt(c, s, looks)
    requires HasRead(s.ep[i], looks.first.ep[i], looks.second.ep[i], s'.ep[i], cap, data, MaxLen(c, i))
    ensures DataRead(c, i, true, s, s', looks, cap, Ok(data))
  {
  }

  /** What a write to an IN endpoint does. */
  ghost predicate DataWritten(c: Config, i: nat, s: St, s': St, looks: Looks, data: Packet, r: Result<nat>)
    requires Allocated(c, i)
  {
    && |s.ep| == |s'.ep| == |looks.first.ep| == |looks.second.ep| == MAX_ENDPOINTS && i < MAX_ENDPOINTS
    && WriteDecided(c, i, s.ep[i], s'.ep[i], |data|, r) && (r.Err? ==> Rely(c, s, s'))
    && (r.Ok? ==> Wrote(s.ep[i], looks.first.ep[i], looks.second.ep[i], s'.ep[i], data[..r.value]))
  }

  function DataWriteOps(i: nat, data: Packet, r: Result<nat>): seq<Op>
    requires r.Ok? ==> r.value <= |data|
  {
    if r.Ok? then WriteOps(i, data[..r.value]) else []
  }

  /** A control read returned a setup packet, one that was pending or has arrived since. */
  ghost predicate SetupTaken(e: Ep, e': Ep, cap: nat, r: Result<Packet>) {
    cap >= 8 && r.Ok? && LatestDuring(e, e', r.value) && (e.setup.pending || e'.setup.log != e.setup.log)
  }

  /** Which way a control read went: a setup packet, in some rounds of the tripwire, and with or
    * without a schedule for the data behind it; or data. */
  datatype ControlWay = SetupWay(rounds: nat, primed: bool) | DataWay

  /** What a control read does. A pending setup packet wins if the caller's buffer holds it, and
    * the endpoint is scheduled for the data stage unless the controller has it. */
  ghost predicate ControlRead(c: Config, s: St, s': St, looks: Looks, way: ControlWay, cap: nat, r: Result<Packet>)
    requires Allocated(c, 0)
  {
    && |s.ep| == |s'.ep| == |looks.first.ep| == |looks.second.ep| == MAX_ENDPOINTS
    && (s.ep[0].setup.pending && cap >= 8 ==> way.SetupWay?)
    && match way
       case SetupWay(rounds, primed) =>
         && rounds > 0 && SetupTaken(s.ep[0], s'.ep[0], cap, r)
         && Reprimed(s.ep[0], s'.ep[0], primed, Min(1024, BufferOf(c, 0).len))
       case DataWay => DataRead(c, 0, true, s, s', looks, cap, r)
  }

  function ControlReadOps(c: Config, way: ControlWay, cap: nat, r: Result<Packet>): seq<Op>
    requires Allocated(c, 0)
  {
    match way
    case SetupWay(rounds, primed) => SetupOps(c, rounds, primed)
    case DataWay => DataReadOps(c, 0, cap, r)
  }

  function SetupOps(c: Config, rounds: nat, primed: bool): seq<Op>
    requires Allocated(c, 0)
  {
    [ClearSetup(0)] + Rounds(rounds) + [ClearTripwire] + (if primed then [Op.ClearNak(0)] + ScheduleOps(0, MaxLen(c, 0)) else [])
  }

  /** What a control write does: the packet is queued, and an empty OUT transfer is scheduled
    * for the status stage (`status`) unless the controller has that direction. */
  ghost predicate ControlWritten(c: Config, s: St, s': St, looks: Looks, status: bool, data: Packet, r: Result<nat>)
    requires Allocated(c, 1)
  {
    && |s.ep| == |s'.ep| == MAX_ENDPOINTS && DataWritten(c, 1, s, s', looks, data, r)
    && (r.Ok? ==> Reprimed(s.ep[0], s'.ep[0], status, 0))
  }

  function ControlWriteOps(status: bool, data: Packet, r: Result<nat>): seq<Op>
    requires r.Ok? ==> r.value <= |data|
  {
    DataWriteOps(1, data, r) + (if r.Ok? && status then StatusOps() else [])
  }

  /** What a stall or an unstall does. Unstalling an OUT endpoint schedules it. */
  ghost predicate StallSet(c: Config, i: nat, s: St, s': St, stall: bool, done: bool)
    requires Allocated(c, i) && |s.ep| == |s'.ep| == MAX_ENDPOINTS && i < MAX_ENDPOINTS
  {
    var e, e' := s.ep[i], s'.ep[i];
    && e'.reg.stalled == stall && e'.reg.enabled == e.reg.enabled && e'.reg.kind == e.reg.kind
    && (done ==> !stall && IsOut(i)) && (!done ==> EpRely(e, Uncontrolled(e', e.reg)))
    && (!stall && IsOut(i) ==> Reprimed(e, e', done, Min(1024, BufferOf(c, i).len)) && Renewed(e, e'))
  }

  function StallOps(c: Config, i: nat, stall: bool, done: bool): seq<Op>
    requires Allocated(c, i)
  {
    [Op.SetStalled(i, stall)] + (if done then ScheduleOps(i, MaxLen(c, i)) else [])
  }

  lemma StalledOnly(c: Config, i: nat, s: St, s': St, stall: bool)
    requires GoodConfig(c) && Allocated(c, i) && |s.ep| == |s'.ep| == MAX_ENDPOINTS && (stall || !IsOut(i))
    requires EpRely(s.ep[i], Uncontrolled(s'.ep[i], s.ep[i].reg))
    requires ControlDone(Op.SetStalled(i, stall), c.slots[i].value.kind, s.ep[i].reg, s'.ep[i].reg)
    ensures StallSet(c, i, s, s', stall, false)
  {
  }

  lemma UnstalledThenPrimed(c: Config, i: nat, s: St, m: St, s': St, done: bool)
    requires GoodConfig(c) && Allocated(c, i) && |s.ep| == |m.ep| == |s'.ep| == MAX_ENDPOINTS && IsOut(i)
    requires ControlDone(Op.SetStalled(i, false), c.slots[i].value.kind, s.ep[i].reg, m.ep[i].reg) && SameControl(m.ep[i], s'.ep[i])
    requires Reprimed(s.ep[i], s'.ep[i], done, MaxLen(c, i)) && Renewed(s.ep[i], s'.ep[i])
    requires !done ==> EpRely(s.ep[i], Uncontrolled(s'.ep[i], s.ep[i].reg))
    ensures StallSet(c, i, s, s', false, done)
  {
  }

  /** What the controller does afterwards changes nothing of that. */
  lemma WriteStays(e: Ep, first: Ep, second: Ep, m: Ep, e': Ep, data: Packet)
    requires Wrote(e, first, second, m, data) && EpRely(m, e')
    ensures Wrote(e, first, second, e', data)
  {
    assert e.h.queued != [] ==> e'.h.fates[|e.h.queued| - 1] == m.h.fates[|e.h.queued| - 1];
  }

  /** An endpoint was unstalled, and then found free and scheduled, or left alone. */
  lemma UnstalledFrom(e: Ep, m: Ep, e': Ep, done: bool, size: nat)
    requires EpRely(e, Uncontrolled(m, e.reg)) && !e.reg.prime && Reprimed(m, e', done, size) && Renewed(m, e')
    requires !done ==> EpRely(m, e')
    ensures Reprimed(e, e', done, size) && Renewed(e, e') && (!done ==> EpRely(e, Uncontrolled(e', e.reg)))
  {
    ReprimedFrom(e, m, e', done, size);
    if !done {
      assert Uncontrolled(e', m.reg) == e';
      ControlledTransitive(e, m, e');
    }
  }

  lemma SetupInOrder(c: Config, rounds: nat, primed: bool, before: seq<Op>)
    requires Allocated(c, 0)
    ensures before + SetupOps(c, rounds, primed)
            == before + [ClearSetup(0)] + Rounds(rounds) + [ClearTripwire]
               + (if primed then [Op.ClearNak(0)] + ScheduleOps(0, MaxLen(c, 0)) else [])
  {
  }

  lemma ControlWriteInOrder(status: bool, data: Packet, r: Result<nat>, before: seq<Op>)
    requires r.Ok? ==> r.value <= |data|
    ensures before + ControlWriteOps(status, data, r)
            == before + DataWriteOps(1, data, r) + (if r.Ok? && status then StatusOps() else [])
  {
  }

  lemma RelyIsExcept(c: Config, own: set<nat>, s: St, s': St)
    requires Rely(c, s, s')
    ensures RelyExcept(c, own, s, s')
  {
  }

  lemma RelyWiden(c: Config, own: set<nat>, more: set<nat>, s: St, s': St)
    requires RelyExcept(c, own, s, s') && own <= more
    ensures RelyExcept(c, more, s, s')
  {
  }

  /** A write on endpoint zero, and the status stage behind it. */
  lemma WriteThenStatus(c: Config, s: St, m: St, s': St, looks: Looks, data: Packet, n: nat, done: bool)
    requires GoodConfig(c) && Allocated(c, 1) && RelyExcept(c, {1}, s, m) && RelyExcept(c, {0}, m, s') && Calm(s)
    requires DataWritten(c, 1, s, m, looks, data, Ok(n)) && Reprimed(m.ep[0], s'.ep[0], done, 0)
    ensures RelyExcept(c, {0, 1}, s, s') && ControlWritten(c, s, s', looks, done, data, Ok(n))
  {
    TwoEndpoints(c, 1, 0, s, m, s');
    assert AtRest(s.ep[0]);
    ReprimedFrom(s.ep[0], m.ep[0], s'.ep[0], done, 0);
    WriteStays(s.ep[1], looks.first.ep[1], looks.second.ep[1], m.ep[1], s'.ep[1], data[..n]);
  }

  lemma LooksFromEarlier(c: Config, i: nat, start: St, s: St, looks: Looks)
    requires Rely(c, start, s) && LookedAt(c, s, looks) && i < MAX_ENDPOINTS
    ensures Rely(c, start, looks.second) && LookedAt(c, start, looks)
    ensures LetPass(s.ep[i], looks.first.ep[i], looks.second.ep[i]) ==> LetPass(start.ep[i], looks.first.ep[i], looks.second.ep[i])
  {
    RelyTransitive(c, start, s, looks.first);
    RelyTransitive(c, start, looks.first, looks.second);
    assert SlotRely(c, i, start, looks.first);
  }

  /** The writes of a successful read, of a successful write, and of a status stage. */
  function ReadOps(slot: nat, cap: nat, size: nat): seq<Op> {
    [Op.ClearComplete(slot), Op.ClearNak(slot), LoadBuffer(slot, cap)] + ScheduleOps(slot, size)
  }

  function WriteOps(slot: nat, data: Packet): seq<Op> {
    [Op.ClearNak(slot), StoreBuffer(slot, data)] + ScheduleOps(slot, |data|)
  }

  function StatusOps(): seq<Op> {
    [Op.ClearComplete(0), Op.ClearNak(0)] + ScheduleOps(0, 0)
  }

  /** Every endpoint is as the controller alone would have left it. */
  ghost predicate AllRely(c: Config, s: St, s': St) {
    && |s.ep| == |s'.ep| == MAX_ENDPOINTS && Uncut(s, s')
    && forall i :: 0 <= i < MAX_ENDPOINTS ==> SlotRely(c, i, s, s')
  }

  lemma AllRelyTransitive(c: Config, s1: St, s2: St, s3: St)
    requires AllRely(c, s1, s2) && AllRely(c, s2, s3)
    ensures AllRely(c, s1, s3)
  {
    UncutTransitive(s1, s2, s3);
    forall i | 0 <= i < MAX_ENDPOINTS ensures SlotRely(c, i, s1, s3) {
      assert SlotRely(c, i, s1, s2) && SlotRely(c, i, s2, s3);
      EpRelyTransitive(s1.ep[i], s2.ep[i], s3.ep[i]);
    }
  }

  lemma RelyIsAllRely(c: Config, s: St, s': St)
    requires Rely(c, s, s')
    ensures AllRely(c, s, s')
  {
  }

  /** Completions and setup bits do not go away by themselves. */
  lemma BitsStay(c: Config, s: St, s': St)
    requires AllRely(c, s, s')
    ensures CompleteOut(s) <= CompleteOut(s') && CompleteIn(s) <= CompleteIn(s') && SetupStat(s) <= SetupStat(s')
  {
    forall k | 0 <= k < 8
      ensures s.ep[2 * k].reg.complete ==> s'.ep[2 * k].reg.complete
      ensures s.ep[2 * k + 1].reg.complete ==> s'.ep[2 * k + 1].reg.complete
      ensures s.ep[2 * k].setup.pending ==> s'.ep[2 * k].setup.pending
    {
      assert SlotRely(c, 2 * k, s, s') && SlotRely(c, 2 * k + 1, s, s');
    }
  }

  /** A poll changes one thing on an endpoint: an IN completion that it reports is taken down
    * and counted. */
  ghost predicate PolledEp(i: nat, e: Ep, e': Ep, mask: set<nat>) {
    if !IsOut(i) && i / 2 in mask
    then e'.h.reported == e.h.reported + 1 && EpRely(e, Unreported(e'))
    else EpRely(e, e')
  }

  /** The endpoint as it would be had its completion not been reported. */
  function Unreported(e: Ep): Ep {
    e.(reg := e.reg.(complete := true), h := e.h.(reported := if e.h.reported == 0 then 0 else e.h.reported - 1))
  }

  ghost predicate PolledSlot(c: Config, i: nat, s: St, s': St, mask: set<nat>)
    requires |s.ep| == |s'.ep| == MAX_ENDPOINTS && i < MAX_ENDPOINTS
  {
    PolledEp(i, s.ep[i], s'.ep[i], mask) && QuietBuffer(c, i, s, s')
  }

  ghost predicate Polled(c: Config, s: St, s': St, mask: set<nat>) {
    && |s.ep| == |s'.ep| == MAX_ENDPOINTS && Uncut(s, s')
    && forall i :: 0 <= i < MAX_ENDPOINTS ==> PolledSlot(c, i, s, s', mask)
  }

  lemma AckedEp(i: nat, e: Ep, m: Ep, e': Ep, mask: set<nat>)
    requires EpRely(e, m) && EpRely(AckInEp(i, m, mask), e') && (!IsOut(i) && i / 2 in mask ==> m.reg.complete)
    ensures PolledEp(i, e, e', mask)
  {
    if !IsOut(i) && i / 2 in mask {
      ReportAside(m, e');
      EpRelyTransitive(e, m, Unreported(e'));
    } else {
      EpRelyTransitive(e, m, e');
    }
  }

  lemma ReportAside(m: Ep, e': Ep)
    requires m.reg.complete && EpRely(m.(reg := m.reg.ClearComplete(), h := m.h.(reported := m.h.reported + 1)), e')
    ensures e'.h.reported == m.h.reported + 1 && EpRely(m, Unreported(e'))
  {
  }

  lemma AckedAll(c: Config, s: St, m: St, acked: St, s': St, mask: set<nat>)
    requires GoodConfig(c) && AllRely(c, s, m) && AllRely(c, acked, s') && Inv(c, m)
    requires m.poll == InRead(mask) && acked == DoOp(c, m, AckIn)
    ensures Polled(c, s, s', mask)
  {
    OpIsUncut(c, m, AckIn);
    UncutTransitive(s, m, acked);
    UncutTransitive(s, acked, s');
    forall i | 0 <= i < MAX_ENDPOINTS ensures PolledSlot(c, i, s, s', mask) {
      assert SlotRely(c, i, s, m) && SlotRely(c, i, acked, s') && Holds(c, i, m);
      AckedAt(c, i, m);
      AckedSlot(c, i, s, m, acked, s', mask);
    }
  }

  lemma AckedAt(c: Config, i: nat, m: St)
    requires GoodConfig(c) && |m.ep| == MAX_ENDPOINTS && i < MAX_ENDPOINTS && m.poll.InRead?
    ensures var acked := DoOp(c, m, AckIn); acked.ep[i] == AckInEp(i, m.ep[i], m.poll.mask) && acked.mem == m.mem
  {
  }

  lemma AckedSlot(c: Config, i: nat, s: St, m: St, acked: St, s': St, mask: set<nat>)
    requires |s.ep| == |m.ep| == |acked.ep| == |s'.ep| == MAX_ENDPOINTS && i < MAX_ENDPOINTS
    requires SlotRely(c, i, s, m) && SlotRely(c, i, acked, s') && acked.mem == m.mem && acked.ep[i] == AckInEp(i, m.ep[i], mask)
    requires !IsOut(i) && i / 2 in mask ==> m.ep[i].reg.complete
    ensures PolledSlot(c, i, s, s', mask)
  {
    AckedEp(i, s.ep[i], m.ep[i], s'.ep[i], mask);
  }

  /** What holds before IN completions are acknowledged, and what of it holds after. */
  lemma AckedMasks(c: Config, s: St, before: St, m: St)
    requires GoodConfig(c) && AllRely(c, s, before) && Rely(c, before, m) && m.poll.InRead? && before.epOut <= CompleteOut(before)
    ensures AllRely(c, s, m) && m.epOut <= CompleteOut(DoOp(c, m, AckIn))
    ensures SetupStat(s) <= SetupStat(DoOp(c, m, AckIn))
  {
    RelyIsAllRely(c, before, m);
    AllRelyTransitive(c, s, before, m);
    BitsStay(c, s, m);
    BitsStay(c, before, m);
    AckKeepsOthers(c, m);
  }

  lemma AllRelyReflexive(c: Config, s: St)
    requires |s.ep| == MAX_ENDPOINTS
    ensures AllRely(c, s, s)
  {
  }

  lemma AckKeepsOthers(c: Config, m: St)
    requires GoodConfig(c) && |m.ep| == MAX_ENDPOINTS && m.poll.InRead?
    ensures SetupStat(DoOp(c, m, AckIn)) == SetupStat(m) && CompleteOut(DoOp(c, m, AckIn)) == CompleteOut(m)
  {
    var acked := DoOp(c, m, AckIn);
    forall k | 0 <= k < 8 ensures acked.ep[2 * k] == m.ep[2 * k] {
      assert acked.ep[2 * k] == AckInEp(2 * k, m.ep[2 * k], m.poll.mask);
    }
  }

  lemma PolledIsCalm(c: Config, s: St, s': St, mask: set<nat>)
    requires Calm(s) && Polled(c, s, s', mask)
    ensures Calm(s')
  {
    forall i | 0 <= i < MAX_ENDPOINTS ensures AtRest(s'.ep[i]) {
      assert PolledSlot(c, i, s, s', mask) && AtRest(s.ep[i]);
    }
  }

  /** From the look at the completions, through their acknowledgement, to the end of a poll. */
  lemma AckedThenNoted(c: Config, s: St, before: St, m: St, acked: St, s': St, mask: set<nat>)
    requires GoodConfig(c) && AllRely(c, s, before) && Rely(c, before, m) && AllRely(c, acked, s') && Inv(c, m) && Calm(s)
    requires m.poll == InRead(mask) && acked == DoOp(c, m, AckIn)
    ensures Polled(c, s, s', mask) && Calm(s')
  {
    RelyIsAllRely(c, before, m);
    AllRelyTransitive(c, s, before, m);
    AckedAll(c, s, m, acked, s', mask);
    PolledIsCalm(c, s, s', mask);
  }

  // ---------------------------------------------------------------- reset and configuration

  /** The words of ENDPTCOMPLETE and ENDPTNAK, as sets of slots. */
  function CompleteSlots(s: St): set<nat>
    requires |s.ep| == MAX_ENDPOINTS
  {
    set i | 0 <= i < MAX_ENDPOINTS && s.ep[i].reg.complete
  }

  function NakSlots(s: St): set<nat>
    requires |s.ep| == MAX_ENDPOINTS
  {
    set i | 0 <= i < MAX_ENDPOINTS && s.ep[i].reg.nak
  }

  lemma CompletionsStay(c: Config, s: St, s': St)
    requires Rely(c, s, s')
    ensures CompleteSlots(s) <= CompleteSlots(s')
  {
    forall i | 0 <= i < MAX_ENDPOINTS ensures s.ep[i].reg.complete ==> s'.ep[i].reg.complete {
      assert SlotRely(c, i, s, s');
    }
  }

  /** Nothing that the driver has settled is undone, and nothing is accepted or handed out. */
  ghost predicate Steady(e: Ep, e': Ep) {
    && e'.h.done == e.h.done && e'.h.phantom == e.h.phantom && e'.h.queued == e.h.queued
    && e'.h.got == e.h.got && e'.h.editing == e.h.editing && e'.h.reported == e.h.reported
    && (Tidy(e) ==> Tidy(e') && e'.h.merged == e.h.merged) && e.h.merged <= e'.h.merged
    && e.h.fates <= e'.h.fates && e.h.dropped <= e'.h.dropped && Onwards(e.h, e'.h)
    && (e.Quiet() ==> e'.Quiet() && e'.td == e.td && e'.h == e.h.(dropped := e'.h.dropped))
    && (e'.reg.complete && !e.reg.complete ==> e'.h.rx != e.h.rx || e'.h.fates != e.h.fates)
    && (Live(e) && e'.h.cuts == e.h.cuts ==> Live(e'))
    && (e'.reg.prime ==> e.reg.prime) && SameControl(e, e') && SetupRely(e, e')
  }

  ghost predicate AllSteady(s: St, s': St) {
    |s.ep| == |s'.ep| == MAX_ENDPOINTS && forall i :: 0 <= i < MAX_ENDPOINTS ==> SteadyAt(i, s, s')
  }

  ghost predicate SteadyAt(i: nat, s: St, s': St)
    requires |s.ep| == |s'.ep| == MAX_ENDPOINTS && i < MAX_ENDPOINTS
  {
    Steady(s.ep[i], s'.ep[i])
  }

  lemma AllSteadyTransitive(s1: St, s2: St, s3: St)
    requires AllSteady(s1, s2) && AllSteady(s2, s3)
    ensures AllSteady(s1, s3)
  {
    forall i | 0 <= i < MAX_ENDPOINTS ensures SteadyAt(i, s1, s3) {
      assert SteadyAt(i, s1, s2) && SteadyAt(i, s2, s3);
      SteadyTransitive(s1.ep[i], s2.ep[i], s3.ep[i]);
    }
  }

  lemma SteadyTransitive(a: Ep, b: Ep, d: Ep)
    requires Steady(a, b) && Steady(b, d)
    ensures Steady(a, d)
  {
  }

  lemma RelyIsSteady(c: Config, s: St, s': St)
    requires Rely(c, s, s')
    ensures AllSteady(s, s')
  {
    forall i | 0 <= i < MAX_ENDPOINTS ensures SteadyAt(i, s, s') {
      assert SlotRely(c, i, s, s');
      RelyKeepsOut(s.ep[i], s'.ep[i]);
    }
  }

  lemma ResetIsSteady(c: Config, s: St, op: Op)
    requires GoodConfig(c) && |s.ep| == MAX_ENDPOINTS && (op.ResetComplete? || op.ResetNak? || op.FlushAll?)
    ensures AllSteady(s, DoOp(c, s, op))
  {
    var s' := DoOp(c, s, op);
    forall i | 0 <= i < MAX_ENDPOINTS ensures SteadyAt(i, s, s') {
      var flags := if op.FlushAll? then {} else op.slots;
      ResetRecord(i, s.ep[i], flags);
      FlagRecords(i, s.ep[i], flags);
      ResetOpAt(c, s, op, i);
    }
  }

  lemma ResetOpAt(c: Config, s: St, op: Op, i: nat)
    requires GoodConfig(c) && |s.ep| == MAX_ENDPOINTS && (op.ResetComplete? || op.ResetNak? || op.FlushAll?) && i < MAX_ENDPOINTS
    ensures DoOp(c, s, op).ep[i] == if op.ResetComplete? then ResetEp(i, s.ep[i], op.slots)
                                    else if op.ResetNak? then NakEp(i, s.ep[i], op.slots) else FlushEp(s.ep[i])
  {
  }

  lemma ResetRecord(i: nat, e: Ep, slots: set<nat>)
    ensures Steady(e, ResetEp(i, e, slots))
  {
  }

  lemma FlagRecords(i: nat, e: Ep, slots: set<nat>)
    ensures Steady(e, NakEp(i, e, slots)) && Steady(e, FlushEp(e))
  {
  }

  lemma SteadyIsCalm(s: St, s': St)
    requires Calm(s) && AllSteady(s, s')
    ensures Calm(s')
  {
    forall i | 0 <= i < MAX_ENDPOINTS ensures AtRest(s'.ep[i]) {
      assert SteadyAt(i, s, s') && AtRest(s.ep[i]);
    }
  }

  /** With nothing priming, a flush that is over has left every endpoint to the driver. */
  lemma FlushedIsQuiet(c: Config, m: St, flushed: St, s': St)
    requires GoodConfig(c) && NonePriming(m) && flushed == DoOp(c, m, FlushAll) && Rely(c, flushed, s') && NoneFlushing(s')
    ensures AllQuiet(s')
  {
    forall i | 0 <= i < MAX_ENDPOINTS ensures s'.ep[i].Quiet() {
      assert flushed.ep[i] == FlushEp(m.ep[i]);
      assert SlotRely(c, i, flushed, s');
    }
  }

  lemma PrimedStays(c: Config, s: St, s': St)
    requires Rely(c, s, s') && NonePriming(s)
    ensures NonePriming(s')
  {
    forall i | 0 <= i < MAX_ENDPOINTS ensures !s'.ep[i].reg.prime {
      assert SlotRely(c, i, s, s');
    }
  }

  ghost predicate AllQuiet(s: St) {
    |s.ep| == MAX_ENDPOINTS && forall i :: 0 <= i < MAX_ENDPOINTS ==> s.ep[i].Quiet()
  }

  /** Only the endpoint's half of ENDPTCTRL may have changed, and only on an allocated
    * non-zero endpoint. */
  ghost predicate Controlled(c: Config, i: nat, s: St, s': St)
    requires |s.ep| == |s'.ep| == MAX_ENDPOINTS && i < MAX_ENDPOINTS
  {
    && EpRely(s.ep[i], Uncontrolled(s'.ep[i], s.ep[i].reg)) && QuietBuffer(c, i, s, s')
    && s'.ep[i].reg.stalled == s.ep[i].reg.stalled
    && (i < 2 || !Allocated(c, i) ==> SameControl(s.ep[i], s'.ep[i]))
  }

  ghost predicate AllControlled(c: Config, s: St, s': St) {
    && |s.ep| == |s'.ep| == MAX_ENDPOINTS && Uncut(s, s')
    && forall i :: 0 <= i < MAX_ENDPOINTS ==> Controlled(c, i, s, s')
  }

  lemma ControlledReflexive(c: Config, s: St)
    requires |s.ep| == MAX_ENDPOINTS
    ensures AllControlled(c, s, s)
  {
    forall i | 0 <= i < MAX_ENDPOINTS ensures Controlled(c, i, s, s) {
      assert Uncontrolled(s.ep[i], s.ep[i].reg) == s.ep[i];
    }
  }

  lemma ControlledStep(c: Config, start: St, s: St, s': St, i: nat)
    requires AllControlled(c, start, s) && RelyExcept(c, {i}, s, s') && i < MAX_ENDPOINTS && Controlled(c, i, s, s')
    ensures AllControlled(c, start, s')
  {
    UncutTransitive(start, s, s');
    forall j | 0 <= j < MAX_ENDPOINTS ensures Controlled(c, j, start, s') {
      assert Controlled(c, j, start, s);
      if j != i {
        assert SlotRely(c, j, s, s');
        RelyIsControlled(c, j, s, s');
      }
      ControlledJoin(c, j, start, s, s');
    }
  }

  lemma RelyIsControlled(c: Config, j: nat, s: St, s': St)
    requires |s.ep| == |s'.ep| == MAX_ENDPOINTS && j < MAX_ENDPOINTS && SlotRely(c, j, s, s')
    ensures Controlled(c, j, s, s')
  {
    assert Uncontrolled(s'.ep[j], s.ep[j].reg) == s'.ep[j];
  }

  lemma ControlledJoin(c: Config, j: nat, start: St, s: St, s': St)
    requires |start.ep| == |s.ep| == |s'.ep| == MAX_ENDPOINTS && j < MAX_ENDPOINTS
    requires Controlled(c, j, start, s) && Controlled(c, j, s, s')
    ensures Controlled(c, j, start, s')
  {
    ControlledTransitive(start.ep[j], s.ep[j], s'.ep[j]);
  }

  lemma ControlledTransitive(a: Ep, b: Ep, d: Ep)
    requires EpRely(a, Uncontrolled(b, a.reg)) && EpRely(b, Uncontrolled(d, b.reg))
    ensures EpRely(a, Uncontrolled(d, a.reg))
  {
    ControlAside(b, Uncontrolled(d, b.reg), a.reg);
    assert Uncontrolled(Uncontrolled(d, b.reg), a.reg) == Uncontrolled(d, a.reg);
    EpRelyTransitive(a, Uncontrolled(b, a.reg), Uncontrolled(d, a.reg));
  }

  lemma ControlAside(e: Ep, e': Ep, r: Reg)
    requires EpRely(e, e')
    ensures EpRely(Uncontrolled(e, r), Uncontrolled(e', r))
  {
    TransferAside(e, e', r);
  }

  lemma TransferAside(e: Ep, e': Ep, r: Reg)
    requires TransferRely(e, e')
    ensures TransferRely(Uncontrolled(e, r), Uncontrolled(e', r))
  {
  }

  lemma ControlledIsCalm(c: Config, s: St, s': St)
    requires Calm(s) && AllControlled(c, s, s')
    ensures Calm(s') && (AllQuiet(s) ==> AllQuiet(s')) && (NoneFlushing(s) ==> NoneFlushing(s'))
  {
    forall i | 0 <= i < MAX_ENDPOINTS
      ensures AtRest(s'.ep[i]) && (s.ep[i].Quiet() ==> s'.ep[i].Quiet()) && (s'.ep[i].reg.flush ==> s.ep[i].reg.flush)
    {
      assert Controlled(c, i, s, s') && AtRest(s.ep[i]);
    }
  }

  /** What a reset does to an endpoint: transfers end, control bits change, and nothing that
    * the driver has settled is undone. */
  ghost predicate ResetSlot(i: nat, s: St, s': St)
    requires |s.ep| == |s'.ep| == MAX_ENDPOINTS && i < MAX_ENDPOINTS
  {
    Steady(s.ep[i], Uncontrolled(s'.ep[i], s.ep[i].reg)) && s'.ep[i].reg.stalled == s.ep[i].reg.stalled
  }

  ghost predicate AllReset(s: St, s': St) {
    |s.ep| == |s'.ep| == MAX_ENDPOINTS && forall i :: 0 <= i < MAX_ENDPOINTS ==> ResetSlot(i, s, s')
  }

  lemma SteadyThenControlled(c: Config, s: St, m: St, s': St)
    requires AllSteady(s, m) && AllControlled(c, m, s')
    ensures AllReset(s, s')
  {
    forall i | 0 <= i < MAX_ENDPOINTS ensures ResetSlot(i, s, s') {
      assert SteadyAt(i, s, m) && Controlled(c, i, m, s');
    }
  }

  /** The control bits that a reset, or a configuration, leaves on a non-zero endpoint. */
  ghost predicate Configured(c: Config, i: nat, e: Ep, enable: bool)
    requires Allocated(c, i)
  {
    e.reg.enabled == enable && e.reg.kind == if enable then c.slots[i].value.kind else Bulk
  }

  ghost predicate ConfiguredBelow(c: Config, k: nat, s: St, enable: bool) {
    |s.ep| == MAX_ENDPOINTS && forall i :: 2 <= i < k && i < MAX_ENDPOINTS && Allocated(c, i) ==> Configured(c, i, s.ep[i], enable)
  }

  lemma ConfiguredStays(c: Config, k: nat, s: St, s': St, enable: bool)
    requires ConfiguredBelow(c, k, s, enable) && RelyExcept(c, {k}, s, s') && k < MAX_ENDPOINTS
    requires Allocated(c, k) ==> Configured(c, k, s'.ep[k], enable)
    ensures ConfiguredBelow(c, k + 1, s', enable)
  {
    forall i | 2 <= i < k && Allocated(c, i) ensures Configured(c, i, s'.ep[i], enable) {
      assert SlotRely(c, i, s, s');
    }
  }

  /** The writes of one pass over the non-zero endpoints below slot `k`, in slot order. */
  function ControlOps(c: Config, k: nat, enable: bool): seq<Op> {
    if k <= 2 then [] else ControlOps(c, k - 1, enable) + ControlOp(c, k - 1, enable)
  }

  function ControlOp(c: Config, k: nat, enable: bool): seq<Op> {
    if !Allocated(c, k) then [] else if enable then [EnableEp(k)] else [DisableEp(k)]
  }

  lemma OneMoreControl(c: Config, k: nat, enable: bool, before: seq<Op>)
    requires k >= 2
    ensures before + ControlOps(c, k, enable) + ControlOp(c, k, enable) == before + ControlOps(c, k + 1, enable)
  {
  }

  /** What a configuration does to an OUT endpoint: a packet that waited is discarded, and
    * the mailbox is armed. */
  ghost predicate Armed(h: History, h': History) {
    && h'.phantom == h.phantom && h'.done == h.done + (if h.Pending() then [Discarded] else [])
    && Onwards(h, h') && ArmedSince(h, h')
  }

  ghost predicate ArmedEp(e: Ep, e': Ep, size: nat) {
    Armed(e.h, e'.h) && Renewed(e, e') && e'.td.last == size
  }

  predicate IsDataOut(c: Config, i: nat) {
    2 <= i && IsOut(i) && Allocated(c, i)
  }

  /** The writes that prime the non-zero OUT endpoints below slot `k`, each once. */
  function PrimeOps(c: Config, k: nat): seq<Op> {
    if k <= 2 then [] else PrimeOps(c, k - 1) + TurnOps(c, k - 1)
  }

  function TurnOps(c: Config, k: nat): seq<Op> {
    if IsDataOut(c, k) then ScheduleOps(k, MaxLen(c, k)) else []
  }

  lemma NoTurn(c: Config, before: seq<Op>)
    ensures before == before + PrimeOps(c, 2)
  {
  }

  lemma OneMoreTurn(c: Config, k: nat, before: seq<Op>)
    requires k >= 2
    ensures before + PrimeOps(c, k) + TurnOps(c, k) == before + PrimeOps(c, k + 1)
  {
  }

  /** One slot while a configuration has primed the endpoints below slot `k`. */
  ghost predicate PrimedSlot(c: Config, k: nat, i: nat, s: St, s': St)
    requires |s.ep| == |s'.ep| == MAX_ENDPOINTS && i < MAX_ENDPOINTS
  {
    if i < k && IsDataOut(c, i)
    then SameControl(s.ep[i], s'.ep[i]) && SetupRely(s.ep[i], s'.ep[i]) && ArmedEp(s.ep[i], s'.ep[i], MaxLen(c, i))
    else SlotRely(c, i, s, s')
  }

  ghost predicate PrimedBelow(c: Config, k: nat, s: St, s': St) {
    && |s.ep| == |s'.ep| == MAX_ENDPOINTS && Uncut(s, s')
    && forall i :: 0 <= i < MAX_ENDPOINTS ==> PrimedSlot(c, k, i, s, s')
  }

  lemma PrimedStep(c: Config, k: nat, s: St, m: St, s': St)
    requires GoodConfig(c) && Inv(c, m) && Inv(c, s') && k < MAX_ENDPOINTS
    requires PrimedBelow(c, k, s, m) && RelyExcept(c, {k}, m, s') && PrimedSlot(c, k + 1, k, s, s')
    ensures PrimedBelow(c, k + 1, s, s')
  {
    UncutTransitive(s, m, s');
    var n := k + 1;
    forall i | 0 <= i < MAX_ENDPOINTS ensures PrimedSlot(c, n, i, s, s') {
      if i != k {
        assert PrimedSlot(c, k, i, s, m) && SlotRely(c, i, m, s') && Holds(c, i, m) && Holds(c, i, s');
        PrimedAside(c, k, i, s, m, s');
      }
    }
  }

  lemma PrimedAside(c: Config, k: nat, i: nat, s: St, m: St, s': St)
    requires GoodConfig(c) && |s.ep| == |m.ep| == |s'.ep| == MAX_ENDPOINTS && i < MAX_ENDPOINTS && i != k
    requires PrimedSlot(c, k, i, s, m) && SlotRely(c, i, m, s') && Holds(c, i, m) && Holds(c, i, s')
    ensures PrimedSlot(c, k + 1, i, s, s')
  {
    if i < k && IsDataOut(c, i) {
      RelyKeepsOut(m.ep[i], s'.ep[i]);
    } else {
      EpRelyTransitive(s.ep[i], m.ep[i], s'.ep[i]);
    }
  }

  lemma PrimedReflexive(c: Config, s: St)
    requires |s.ep| == MAX_ENDPOINTS
    ensures PrimedBelow(c, 2, s, s)
  {
  }

  lemma PrimedStepOver(c: Config, k: nat, s: St, s': St)
    requires PrimedBelow(c, k, s, s') && !Allocated(c, k) && k < MAX_ENDPOINTS
    ensures PrimedBelow(c, k + 1, s, s')
  {
    var n := k + 1;
    forall i | 0 <= i < MAX_ENDPOINTS ensures PrimedSlot(c, n, i, s, s') {
      assert PrimedSlot(c, k, i, s, s');
    }
  }

  /** From the state in which the pass finds the endpoint, through the look at its enable
    * bit, to the schedule. */
  lemma ArmedBySchedule(c: Config, k: nat, s: St, m: St, found: St, s': St)
    requires GoodConfig(c) && PrimedBelow(c, k, s, m) && Rely(c, m, found) && k < MAX_ENDPOINTS && IsDataOut(c, k)
    requires s.ep[k].Quiet() && AtRest(s.ep[k]) && |s'.ep| == MAX_ENDPOINTS
    requires HistoryRely(ScheduledHistory(c, k, found.ep[k], found.mem, MaxLen(c, k)), s'.ep[k].h)
    requires SameControl(found.ep[k], s'.ep[k]) && SetupRely(found.ep[k], s'.ep[k]) && Rearmed(found.ep[k], s'.ep[k])
    requires s'.ep[k].td.last == MaxLen(c, k)
    ensures PrimedSlot(c, k + 1, k, s, s')
  {
    assert PrimedSlot(c, k, k, s, m) && SlotRely(c, k, m, found);
  }

  /** What a configuration does to a slot: the non-zero OUT endpoints are armed, and of the
    * others at most the control bits change. */
  ghost predicate ConfigEffect(c: Config, i: nat, s: St, s': St)
    requires |s.ep| == |s'.ep| == MAX_ENDPOINTS && i < MAX_ENDPOINTS
  {
    if IsDataOut(c, i)
    then ArmedEp(s.ep[i], s'.ep[i], Min(1024, BufferOf(c, i).len))
         && SetupRely(s.ep[i], s'.ep[i]) && s'.ep[i].reg.stalled == s.ep[i].reg.stalled
    else Controlled(c, i, s, s')
  }

  ghost predicate ConfiguredAll(c: Config, s: St, s': St) {
    && |s.ep| == |s'.ep| == MAX_ENDPOINTS && Uncut(s, s')
    && (forall i :: 0 <= i < MAX_ENDPOINTS ==> ConfigEffect(c, i, s, s'))
    && ConfiguredBelow(c, MAX_ENDPOINTS, s', true)
  }

  lemma EnabledThenPrimed(c: Config, s: St, m: St, s': St)
    requires AllControlled(c, s, m) && PrimedBelow(c, MAX_ENDPOINTS, m, s') && ConfiguredBelow(c, MAX_ENDPOINTS, m, true)
    requires DataOutQuiet(c, s)
    ensures ConfiguredAll(c, s, s')
  {
    UncutTransitive(s, m, s');
    forall i | 0 <= i < MAX_ENDPOINTS ensures ConfigEffect(c, i, s, s') {
      assert Controlled(c, i, s, m) && PrimedSlot(c, MAX_ENDPOINTS, i, m, s');
      if IsDataOut(c, i) {
        assert s.ep[i].Quiet();
      } else {
        ControlledTransitive(s.ep[i], m.ep[i], s'.ep[i]);
      }
    }
    forall i | 2 <= i < MAX_ENDPOINTS && Allocated(c, i) ensures Configured(c, i, s'.ep[i], true) {
      assert PrimedSlot(c, MAX_ENDPOINTS, i, m, s') && Configured(c, i, m.ep[i], true);
    }
  }

  /** The non-zero OUT endpoints are the driver's, as a bus reset leaves them. */
  ghost predicate DataOutQuiet(c: Config, s: St) {
    |s.ep| == MAX_ENDPOINTS && forall i :: 0 <= i < MAX_ENDPOINTS && IsDataOut(c, i) ==> s.ep[i].Quiet()
  }

  lemma DataOutStaysQuiet(c: Config, s: St, s': St)
    requires DataOutQuiet(c, s) && AllControlled(c, s, s')
    ensures DataOutQuiet(c, s')
  {
    forall i | 0 <= i < MAX_ENDPOINTS && IsDataOut(c, i) ensures s'.ep[i].Quiet() {
      assert Controlled(c, i, s, s');
    }
  }
}
