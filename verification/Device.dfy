/** The shared state of driver and controller, the steps that either side takes on it, and
  * the histories of the packets that pass through it. */
module Device {
  import opened Types
  import opened TransferDescriptor
  import opened QueueHead
  import opened EndpointRegisters
  import opened Memory
  import opened Buffers

  // ---------------------------------------------------------------- configuration

  datatype EpConfig = EpConfig(kind: EndpointType, buffer: Buffer)

  /** The endpoints allocated before the bus runs, by list slot, and the address of the
    * descriptor list. */
  datatype Config = Config(slots: seq<Option<EpConfig>>, tdBase: nat)

  ghost predicate GoodConfig(c: Config) {
    && |c.slots| == MAX_ENDPOINTS
    && c.tdBase % 32 == 0 && c.tdBase + 32 * MAX_ENDPOINTS <= WORD_SIZE
    && (forall i :: 0 <= i < MAX_ENDPOINTS && Allocated(c, i) ==>
          BufferOf(c, i).ptr < WORD_SIZE && BufferOf(c, i).End() <= WORD_SIZE)
    && (forall i, j :: 0 <= i < j < MAX_ENDPOINTS ==> Apart(c, i, j))
  }

  /** The buffers of two slots share no byte. */
  ghost predicate Apart(c: Config, i: nat, j: nat) {
    Allocated(c, i) && Allocated(c, j) ==> BufferOf(c, i).Disjoint(BufferOf(c, j))
  }

  predicate Allocated(c: Config, i: nat) {
    i < |c.slots| && c.slots[i].Some?
  }

  function BufferOf(c: Config, i: nat): Buffer
    requires Allocated(c, i)
  {
    c.slots[i].value.buffer
  }

  function MaxLen(c: Config, i: nat): nat
    requires Allocated(c, i)
  {
    Clamp(BufferOf(c, i).len)
  }

  function TdAddress(c: Config, i: nat): int {
    c.tdBase + 32 * i
  }

  /** The descriptor that a NEXT word leads to; bit 0 terminates. */
  function TdSlot(c: Config, next: Word): (r: Option<nat>)
    ensures r.Some? ==> r.value < MAX_ENDPOINTS
  {
    var offset := next - next % 32 - c.tdBase;
    if next % 2 == 1 || offset < 0 || offset / 32 >= MAX_ENDPOINTS then None else Some(offset / 32)
  }

  lemma TdSlotOfAddress(c: Config, i: nat)
    requires GoodConfig(c) && i < MAX_ENDPOINTS
    ensures 0 <= TdAddress(c, i) < WORD_SIZE
    ensures TdSlot(c, TdAddress(c, i)) == Some(i)
    ensures TdSlot(c, 1) == None
  {
    var q := c.tdBase / 32;
    assert TdAddress(c, i) == 32 * (q + i);
  }

  // ---------------------------------------------------------------- state

  /** What became of a received packet: handed to a caller (cut to the caller's buffer), or
    * overwritten unread because the driver scheduled the next transfer. */
  datatype Outcome = Delivered(cap: nat, data: Packet) | Discarded

  /** What became of a queued packet: the bytes that went onto the wire, or nothing, because
    * its transfer failed or was flushed. */
  datatype Fate = Sent(data: Packet) | Failed | Cut

  /** Observations, most of which no register holds.
    *   OUT: packets received; the outcome of each that is over; data read although no packet
    *   was pending; data read but not yet settled; whether a transfer scheduled since the
    *   last flush or failure is waiting or has arrived.
    *   IN: packets accepted; the fate of each that is over; completions raised, merged with
    *   one that was still up, reported by a poll, and cleared without a report.
    *   Both: a schedule is being written; failures; flushed or cancelled transfers. */
  datatype History = History(
    rx: seq<Packet>, done: seq<Outcome>, phantom: seq<Packet>, got: Option<(nat, Packet)>, armed: bool,
    queued: seq<Packet>, fates: seq<Fate>, completions: nat, merged: nat, reported: nat, dropped: nat,
    editing: bool, fails: nat, cuts: nat) {

    predicate Pending() {
      |rx| > |done|
    }
  }

  const NO_HISTORY := History([], [], [], None, false, [], [], 0, 0, 0, 0, false, 0, 0)

  /** The setup words of a queue head, their bit of ENDPTSETUPSTAT, and all that arrived. */
  datatype Setup = Setup(pending: bool, lo: Packet, hi: Packet, log: seq<Packet>)

  const NO_SETUP := Setup(false, [0, 0, 0, 0], [0, 0, 0, 0], [])

  datatype Ep = Ep(reg: Reg, td: TdImage, qh: QhImage, setup: Setup, h: History) {
    /** Neither primed nor priming: the controller has no business here. */
    predicate Quiet() {
      !reg.prime && !reg.stat
    }
  }

  /** How far a poll that found UI set has come. */
  datatype Poll = Idle | Acked | OutRead | InRead(mask: set<nat>) | InAcked

  /** `epOut` is the driver's mask of completed OUT endpoints, `epSetup` the mask that the
    * last poll returned. */
  datatype St = St(ep: seq<Ep>, mem: Mem, ui: bool, uri: bool, sutw: bool,
                   poll: Poll, epOut: set<nat>, epSetup: set<nat>)

  predicate IsOut(i: nat) {
    i % 2 == 0
  }

  /** The state after every allocated endpoint has been constructed. */
  function InitialEp(c: Config, i: nat): Ep {
    if Allocated(c, i)
    then
      Ep(RESET_REG, ZERO_TD.SetTerminate().ClearStatus(),
         ZERO_QH.SetZeroLengthTermination(false).SetMaxPacketLen(BufferOf(c, i).len)
         .SetInterruptOnSetup(c.slots[i].value.kind == Control && IsOut(i)),
         NO_SETUP, NO_HISTORY)
    else Ep(RESET_REG, ZERO_TD, ZERO_QH, NO_SETUP, NO_HISTORY)
  }

  function Initial(c: Config, mem: Mem): St {
    St(seq(MAX_ENDPOINTS, i requires 0 <= i < MAX_ENDPOINTS => InitialEp(c, i)), mem, false, false, false, Idle, {}, {})
  }

  // ---------------------------------------------------------------- controller

  /** The steps of the controller. It never sets a prime bit, and sets a status bit only
    * from a prime bit. */
  datatype Act =
    | AcceptPrime(slot: nat)
    | CancelPrime(slot: nat)
    | Receive(slot: nat, data: Packet)
    | Send(slot: nat)
    | Fail(slot: nat, status: Status, partial: Packet)
    | SetupPacket(index: nat, lo: Packet, hi: Packet)
    | FinishFlush(slot: nat)
    | Nak(slot: nat)
    | BusReset

  /** The descriptor of a primed slot: the one its queue head has loaded. */
  function Loaded(c: Config, s: St, i: nat): Option<nat>
    requires |s.ep| == MAX_ENDPOINTS && i < MAX_ENDPOINTS
  {
    TdSlot(c, s.ep[i].qh.current)
  }

  /** A transfer of slot `i` ends: the descriptor is written back, the queue head's overlay
    * follows, and the endpoint's status bit goes. */
  function Retire(s: St, i: nat, j: nat, td: TdImage, complete: bool, h: History): seq<Ep>
    requires |s.ep| == MAX_ENDPOINTS && i < MAX_ENDPOINTS && j < MAX_ENDPOINTS
  {
    var eps := s.ep[j := s.ep[j].(td := td)];
    var e := eps[i];
    eps[i := e.(reg := e.reg.(stat := false, complete := e.reg.complete || complete),
                qh := e.qh.(overlay := td), h := h)]
  }

  /** The end of a transfer that brought no packet: a failure, a flush or a cancellation. */
  function Broken(i: nat, h: History, fate: Fate): History {
    if IsOut(i) then h.(armed := false) else h.(fates := h.fates + [fate])
  }

  function DoAccept(c: Config, s: St, i: nat): (r: St)
    requires |s.ep| == MAX_ENDPOINTS && i < MAX_ENDPOINTS
    ensures |r.ep| == MAX_ENDPOINTS && !r.ep[i].reg.prime && r.sutw == s.sutw
  {
    var e := s.ep[i];
    if !e.reg.prime then s
    else
      match TdSlot(c, e.qh.overlay.next)
      case None => s.(ep := s.ep[i := e.(reg := e.reg.(prime := false))])
      case Some(j) =>
        var qh := e.qh.(current := e.qh.overlay.next, overlay := s.ep[j].td);
        s.(ep := s.ep[i := e.(reg := e.reg.(prime := false, stat := true), qh := qh)])
  }

  function DoCancel(s: St, i: nat): St
    requires |s.ep| == MAX_ENDPOINTS && i < MAX_ENDPOINTS
  {
    var e := s.ep[i];
    if !e.reg.prime || i >= 2 || !s.ep[0].setup.pending then s
    else s.(ep := s.ep[i := e.(reg := e.reg.(prime := false), h := Broken(i, e.h, Cut).(cuts := e.h.cuts + 1))])
  }

  function DoReceive(c: Config, s: St, i: nat, data: Packet): St
    requires |s.ep| == MAX_ENDPOINTS && i < MAX_ENDPOINTS
  {
    var e, j := s.ep[i], Loaded(c, s, i);
    if !e.reg.stat || !IsOut(i) || j == None then s
    else
      var td := s.ep[j.value].td;
      if |td.pages| != PAGES || |data| > td.total then s
      else
        var td' := td.(status := CLEAR, total := td.total - |data|);
        s.(ep := Retire(s, i, j.value, td', true, e.h.(rx := e.h.rx + [data])),
           mem := Scatter(s.mem, td.pages, data), ui := s.ui || td.ioc)
  }

  /** A completion that lands while the one before it is still up leaves one bit for two. */
  function SentHistory(e: Ep, data: Packet): History {
    e.h.(fates := e.h.fates + [Sent(data)], completions := e.h.completions + 1,
         merged := e.h.merged + (if e.reg.complete then 1 else 0))
  }

  function DoSend(c: Config, s: St, i: nat): St
    requires |s.ep| == MAX_ENDPOINTS && i < MAX_ENDPOINTS
  {
    var e, j := s.ep[i], Loaded(c, s, i);
    if !e.reg.stat || IsOut(i) || j == None then s
    else
      var td := s.ep[j.value].td;
      if |td.pages| != PAGES then s
      else
        var data := Gather(s.mem, td.pages, td.total);
        var h := SentHistory(e, data);
        s.(ep := Retire(s, i, j.value, td.(status := CLEAR, total := 0), true, h), ui := s.ui || td.ioc)
  }

  function DoFail(c: Config, s: St, i: nat, status: Status, partial: Packet): St
    requires |s.ep| == MAX_ENDPOINTS && i < MAX_ENDPOINTS
  {
    var e, j := s.ep[i], Loaded(c, s, i);
    if !e.reg.stat || j == None || !status.IsError() then s
    else
      var td := s.ep[j.value].td;
      if |td.pages| != PAGES || |partial| > td.total then s
      else
        var td' := td.(status := status.(active := false), total := td.total - |partial|);
        s.(ep := Retire(s, i, j.value, td', false, Broken(i, e.h, Failed).(fails := e.h.fails + 1)),
           mem := if IsOut(i) then Scatter(s.mem, td.pages, partial) else s.mem)
  }

  function DoSetup(s: St, index: nat, lo: Packet, hi: Packet): St
    requires |s.ep| == MAX_ENDPOINTS
  {
    if index >= 8 || |lo| != 4 || |hi| != 4 then s
    else
      var e := s.ep[2 * index];
      s.(ep := s.ep[2 * index := e.(setup := Setup(true, lo, hi, e.setup.log + [lo + hi]))],
         ui := true, sutw := false)
  }

  function DoFlush(s: St, i: nat): St
    requires |s.ep| == MAX_ENDPOINTS && i < MAX_ENDPOINTS
  {
    var e := s.ep[i];
    if !e.reg.flush then s
    else
      var h := if e.reg.stat then Broken(i, e.h, Cut).(cuts := e.h.cuts + 1) else e.h;
      s.(ep := s.ep[i := e.(reg := e.reg.(flush := false, stat := false), h := h)])
  }

  function DoNak(s: St, i: nat): St
    requires |s.ep| == MAX_ENDPOINTS && i < MAX_ENDPOINTS
  {
    s.(ep := s.ep[i := s.ep[i].(reg := s.ep[i].reg.(nak := true))])
  }

  /** The effect of a step; a step that is not enabled has none. */
  function DoAct(c: Config, s: St, a: Act): (r: St)
    requires |s.ep| == MAX_ENDPOINTS
    ensures |r.ep| == MAX_ENDPOINTS
  {
    match a
    case AcceptPrime(i) => if i < MAX_ENDPOINTS then DoAccept(c, s, i) else s
    case CancelPrime(i) => if i < MAX_ENDPOINTS then DoCancel(s, i) else s
    case Receive(i, data) => if i < MAX_ENDPOINTS then DoReceive(c, s, i, data) else s
    case Send(i) => if i < MAX_ENDPOINTS then DoSend(c, s, i) else s
    case Fail(i, status, partial) => if i < MAX_ENDPOINTS then DoFail(c, s, i, status, partial) else s
    case SetupPacket(index, lo, hi) => DoSetup(s, index, lo, hi)
    case FinishFlush(i) => if i < MAX_ENDPOINTS then DoFlush(s, i) else s
    case Nak(i) => if i < MAX_ENDPOINTS then DoNak(s, i) else s
    case BusReset => s.(uri := true)
  }

  // ---------------------------------------------------------------- driver

  /** The accesses of the driver that change the shared state, in the order in which the
    * source lists them: descriptor, queue head, buffer, registers. */
  datatype Op =
    | TdTerminate(slot: nat)
    | TdBuffer(slot: nat, size: nat)
    | TdInterrupt(slot: nat)
    | TdActivate(slot: nat)
    | LinkOverlay(slot: nat)
    | ClearOverlay(slot: nat)
    | EnableZlt(slot: nat)
    | LoadBuffer(slot: nat, cap: nat)
    | StoreBuffer(slot: nat, data: Packet)
    | WritePrime(slot: nat)
    | ClearComplete(slot: nat)
    | ClearNak(slot: nat)
    | SetStalled(slot: nat, stall: bool)
    | EnableEp(slot: nat)
    | DisableEp(slot: nat)
    | ClearSetup(index: nat)
    | SetTripwire
    | ClearTripwire
    | AckReset
    | AckInterrupt
    | PollOut
    | PollIn
    | AckIn
    | PollSetup
    | ResetComplete(slots: set<nat>)
    | ResetNak(slots: set<nat>)
    | FlushAll

  function CompleteOut(s: St): (m: set<nat>)
    requires |s.ep| == MAX_ENDPOINTS
  {
    set k | 0 <= k < 8 && s.ep[2 * k].reg.complete
  }

  function CompleteIn(s: St): (m: set<nat>)
    requires |s.ep| == MAX_ENDPOINTS
  {
    set k | 0 <= k < 8 && s.ep[2 * k + 1].reg.complete
  }

  function SetupStat(s: St): (m: set<nat>)
    requires |s.ep| == MAX_ENDPOINTS
  {
    set k | 0 <= k < 8 && s.ep[2 * k].setup.pending
  }

  /** The first write of a schedule ends the life of the packet that the buffer held. */
  function BeginEdit(i: nat, h: History): History {
    var h' := h.(editing := true, armed := false, got := None);
    if !IsOut(i) then h'
    else if h.Pending()
    then h'.(done := h.done + [if h.got.Some? then Delivered(h.got.value.0, h.got.value.1) else Discarded])
    else if h.got.Some? then h'.(phantom := h.phantom + [h.got.value.1]) else h'
  }

  function EndEdit(c: Config, i: nat, e: Ep, mem: Mem): History
    requires Allocated(c, i)
  {
    var h := e.h.(editing := false);
    if IsOut(i) then h.(armed := true)
    else h.(queued := h.queued + [Load(mem, BufferOf(c, i).ptr, e.td.last)])
  }

  /** What `Buffer::volatile_read` sees through `Endpoint::read`. */
  function ReadLength(e: Ep, cap: nat): int {
    var t := e.td.BytesTransferred();
    var m := Min(e.qh.maxPacket, cap);
    if t < m then t else m
  }

  /** An endpoint's own operations on its record. */
  function DoSlotOp(c: Config, i: nat, e: Ep, mem: Mem, op: Op): Ep
    requires GoodConfig(c) && Allocated(c, i)
  {
    TdSlotOfAddress(c, i);
    match op
    case TdTerminate(_) => e.(td := e.td.SetTerminate(), h := BeginEdit(i, e.h))
    case TdBuffer(_, size) => e.(td := e.td.SetBuffer(BufferOf(c, i).ptr, size))
    case TdInterrupt(_) => e.(td := e.td.SetInterruptOnComplete(true))
    case TdActivate(_) => e.(td := e.td.SetActive())
    case LinkOverlay(_) => e.(qh := e.qh.(overlay := e.qh.overlay.SetNext(TdAddress(c, i))))
    case ClearOverlay(_) => e.(qh := e.qh.(overlay := e.qh.overlay.ClearStatus()))
    case EnableZlt(_) => e.(qh := e.qh.SetZeroLengthTermination(true))
    case LoadBuffer(_, cap) =>
      var n := ReadLength(e, cap);
      e.(h := e.h.(got := Some((cap, Load(mem, BufferOf(c, i).ptr, if n < 0 then 0 else n)))))
    case WritePrime(_) => e.(reg := e.reg.Prime(), h := EndEdit(c, i, e, mem))
    case ClearComplete(_) => ResetEp(i, e, {i})
    case ClearNak(_) => e.(reg := e.reg.ClearNak())
    case SetStalled(_, stall) => e.(reg := e.reg.SetStalled(stall))
    case EnableEp(_) => e.(reg := e.reg.Enable(c.slots[i].value.kind))
    case DisableEp(_) => e.(reg := e.reg.Disable())
    case _ => e
  }

  function AckInEp(i: nat, e: Ep, mask: set<nat>): Ep {
    if !IsOut(i) && i / 2 in mask
    then e.(reg := e.reg.ClearComplete(), h := e.h.(reported := e.h.reported + 1))
    else e
  }

  function ResetEp(i: nat, e: Ep, slots: set<nat>): Ep {
    if i in slots
    then e.(reg := e.reg.ClearComplete(),
            h := if !IsOut(i) && e.reg.complete then e.h.(dropped := e.h.dropped + 1) else e.h)
    else e
  }

  function NakEp(i: nat, e: Ep, slots: set<nat>): Ep {
    if i in slots then e.(reg := e.reg.ClearNak()) else e
  }

  function FlushEp(e: Ep): Ep {
    e.(reg := e.reg.(flush := true))
  }

  function MapEps(s: St, f: (nat, Ep) -> Ep): seq<Ep>
    requires |s.ep| == MAX_ENDPOINTS
  {
    seq(MAX_ENDPOINTS, i requires 0 <= i < MAX_ENDPOINTS => f(i, s.ep[i]))
  }

  predicate IsSlotOp(op: Op) {
    op.TdTerminate? || op.TdBuffer? || op.TdInterrupt? || op.TdActivate? || op.LinkOverlay? || op.ClearOverlay?
    || op.EnableZlt? || op.LoadBuffer? || op.StoreBuffer? || op.WritePrime? || op.ClearComplete? || op.ClearNak?
    || op.SetStalled? || op.EnableEp? || op.DisableEp?
  }

  function DoOp(c: Config, s: St, op: Op): (r: St)
    requires GoodConfig(c) && |s.ep| == MAX_ENDPOINTS
    requires IsSlotOp(op) ==> Allocated(c, op.slot)
    ensures |r.ep| == MAX_ENDPOINTS
  {
    if IsSlotOp(op) then
      var i := op.slot;
      s.(ep := s.ep[i := DoSlotOp(c, i, s.ep[i], s.mem, op)],
         mem := if op.StoreBuffer? then Store(s.mem, BufferOf(c, i).ptr, op.data) else s.mem)
    else
      match op
      case ClearSetup(k) =>
        if k >= 8 then s
        else s.(ep := s.ep[2 * k := s.ep[2 * k].(setup := s.ep[2 * k].setup.(pending := false))])
      case SetTripwire => s.(sutw := true)
      case ClearTripwire => s.(sutw := false)
      case AckReset => s.(uri := false)
      case AckInterrupt => s.(ui := false, poll := Acked)
      case PollOut => s.(epOut := CompleteOut(s), poll := OutRead)
      case PollIn => s.(poll := InRead(CompleteIn(s)))
      case AckIn =>
        var mask := if s.poll.InRead? then s.poll.mask else {};
        s.(ep := MapEps(s, (i: nat, e: Ep) => AckInEp(i, e, mask)), poll := InAcked)
      case PollSetup => s.(epSetup := SetupStat(s), poll := Idle)
      case ResetComplete(slots) => s.(ep := MapEps(s, (i: nat, e: Ep) => ResetEp(i, e, slots)))
      case ResetNak(slots) => s.(ep := MapEps(s, (i: nat, e: Ep) => NakEp(i, e, slots)))
      case FlushAll => s.(ep := MapEps(s, (i: nat, e: Ep) => FlushEp(e)))
      case _ => s
  }

  /** The descriptor and the queue head are what `schedule_transfer` must have written before
    * the prime bit goes up. */
  ghost predicate Scheduled(c: Config, i: nat, e: Ep)
    requires Allocated(c, i) && BufferOf(c, i).ptr < WORD_SIZE
  {
    && e.td.next == 1 && e.td.status == ACTIVE && e.td.ioc
    && e.td.total == e.td.last <= MaxLen(c, i)
    && e.td.pages == PageList(BufferOf(c, i).ptr, e.td.last)
  }

  /** The driver keeps to its side of the agreement: it touches descriptor, overlay and
    * buffer of a slot only while the slot is quiet, primes only a finished schedule,
    * acknowledges only events that are up, and takes the steps of a poll in their order. */
  ghost predicate Legal(c: Config, s: St, op: Op)
    requires GoodConfig(c) && |s.ep| == MAX_ENDPOINTS
  {
    && (IsSlotOp(op) ==> Allocated(c, op.slot))
    && match op
       case TdTerminate(i) => s.ep[i].Quiet() && !s.ep[i].h.editing
       case TdBuffer(i, size) => s.ep[i].Quiet() && s.ep[i].h.editing && size <= MaxLen(c, i)
       case TdInterrupt(i) => s.ep[i].Quiet() && s.ep[i].h.editing
       case TdActivate(i) => s.ep[i].Quiet() && s.ep[i].h.editing
       case LinkOverlay(i) => s.ep[i].Quiet() && s.ep[i].h.editing
       case ClearOverlay(i) => s.ep[i].Quiet() && s.ep[i].h.editing
       case LoadBuffer(i, _) => IsOut(i) && s.ep[i].Quiet() && !s.ep[i].h.editing
       case StoreBuffer(i, data) => !IsOut(i) && s.ep[i].Quiet() && !s.ep[i].h.editing && |data| <= BufferOf(c, i).len
       case WritePrime(i) =>
         s.ep[i].Quiet() && s.ep[i].h.editing && Scheduled(c, i, s.ep[i]) && s.ep[i].qh.overlay.next == TdAddress(c, i)
       case ClearComplete(i) => IsOut(i) || s.poll.Idle?
       case AckReset => s.uri
       case AckInterrupt => s.ui && s.poll.Idle?
       case PollOut => s.poll.Acked?
       case PollIn => s.poll.OutRead?
       case AckIn => s.poll.InRead?
       case PollSetup => s.poll.InAcked?
       case ResetComplete(_) => s.poll.Idle?
       case _ => true
  }
}
