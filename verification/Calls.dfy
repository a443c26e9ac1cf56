/** The calls of the USB stack on the bus, and what each does to a data endpoint as its user
  * sees it. Endpoint zero belongs to the stack; data endpoints have other indices. */
module Calls {
  import opened Types
  import opened Device
  import opened Invariant
  import opened Agreement
  import opened Usb
  import opened EndpointDriver
  import opened CallEffects

  /** Poll results, with the masks as sets of endpoint indices. */
  datatype PollResult = NoEvent | Reset | Data(epOut: set<nat>, epInComplete: set<nat>, epSetup: set<nat>)

  datatype Call =
    | PollCall
    | ReadCall(addr: Address, cap: nat)
    | WriteCall(addr: Address, data: Packet)
    | StallCall(addr: Address, stall: bool)
    | IsStalledCall(addr: Address)
    | ZltCall(addr: Address)
    | ResetCall
    | ConfigureCall

  datatype Reply =
    | PollReply(poll: PollResult)
    | ReadReply(read: Result<Packet>)
    | WriteReply(write: Result<nat>)
    | StalledReply(stalled: bool)
    | Done

  predicate IsDataIn(c: Config, i: nat) {
    2 <= i && !IsOut(i) && Allocated(c, i)
  }

  /** The packet that a call takes from slot `i`, and the size of the caller's buffer. */
  function Got(call: Call, reply: Reply, i: nat): Option<(nat, Packet)> {
    if call.ReadCall? && Index(call.addr) == i && reply.ReadReply? && reply.read.Ok?
    then Some((call.cap, reply.read.value)) else None
  }

  /** The packet that a call leaves with slot `i`. */
  function Took(call: Call, reply: Reply, i: nat): Option<Packet> {
    if call.WriteCall? && Index(call.addr) == i && reply.WriteReply? && reply.write.Ok? && reply.write.value <= |call.data|
    then Some(call.data[..reply.write.value]) else None
  }

  predicate IsReport(reply: Reply) {
    reply.PollReply? && reply.poll.Data?
  }

  /** The call reports a completion of slot `i`. */
  predicate Reports(reply: Reply, i: nat) {
    IsReport(reply) && !IsOut(i) && i / 2 in reply.poll.epInComplete
  }

  /** The call schedules OUT slot `i` whatever waits in its buffer. */
  predicate Reschedules(call: Call, i: nat) {
    call.ConfigureCall? || (call.StallCall? && !call.stall && Index(call.addr) == i)
  }

  /** A call on an OUT data endpoint: without a packet for the caller nothing happens to the
    * mailbox but what the controller does. An endpoint whose descriptor shows an error hands
    * out no packet. */
  ghost predicate OutStep(e: Ep, e': Ep, got: Option<(nat, Packet)>, first: Ep, second: Ep) {
    && Onwards(e.h, e'.h)
    && (Live(e) && e'.h.cuts == e.h.cuts ==> Live(e'))
    && (Matched(e) ==> Matched(e'))
    && (Stuck(e) ==> Stuck(e') && got == None)
    && match got
       case None =>
         && e'.h.done == e.h.done && e'.h.phantom == e.h.phantom
         && (e.Quiet() ==> e'.Quiet() && e'.h.rx == e.h.rx) && (Spent(e) ==> Spent(e'))
       case Some(p) => ReadEffect(e, first, second, e'.h, p.0, p.1) && Matched(e')
  }

  /** A call that schedules an OUT data endpoint whatever waits: at most one packet, the one
    * that waits, is discarded; it is, if the driver has the endpoint when the call begins. */
  ghost predicate RescheduleStep(e: Ep, e': Ep) {
    && Overwritten(e.h, e'.h) && Renewed(e, e')
    && (e.Quiet() ==> e'.h.done == e.h.done + (if e.h.Pending() then [Discarded] else []))
  }

  /** A call on an IN data endpoint. One whose descriptor shows an error accepts no packet. */
  ghost predicate InStep(e: Ep, e': Ep, took: Option<Packet>, reported: bool, reset: bool, first: Ep, second: Ep) {
    var h, h' := e.h, e'.h;
    && Onwards(h, h') && h.fates <= h'.fates && h.dropped <= h'.dropped && (!reset ==> h'.dropped == h.dropped)
    && h'.reported == h.reported + (if reported then 1 else 0)
    && h.merged <= h'.merged && (Tidy(e) && (took == None || Spent(e)) ==> Tidy(e') && h'.merged == h.merged)
    && (reported && Tidy(e) ==> Spent(e') && LastSent(h'))
    && StuckStep(e, e', took)
    && match took
       case None => h'.queued == h.queued && (Spent(e) ==> Spent(e') && h'.fates == h.fates)
       case Some(data) => WriteEffect(e, first, second, h', data)
  }

  /** A call on an IN endpoint, that of endpoint zero among them, whose descriptor shows an
    * error: the packet is refused, and nothing schedules the endpoint again. */
  ghost predicate StuckStep(e: Ep, e': Ep, took: Option<Packet>) {
    Stuck(e) ==> Stuck(e') && took == None
  }

  ghost predicate StepAt(c: Config, i: nat, call: Call, reply: Reply, looks: Looks, s: St, s': St)
    requires |s.ep| == |s'.ep| == |looks.first.ep| == |looks.second.ep| == MAX_ENDPOINTS && i < MAX_ENDPOINTS
  {
    var e, e', first, second := s.ep[i], s'.ep[i], looks.first.ep[i], looks.second.ep[i];
    && (IsDataOut(c, i) ==> if Reschedules(call, i) then RescheduleStep(e, e') else OutStep(e, e', Got(call, reply, i), first, second))
    && (IsDataIn(c, i) ==> InStep(e, e', Took(call, reply, i), Reports(reply, i), call.ResetCall?, first, second))
    && (IsDataOut(c, i) && !call.ResetCall? && !Reschedules(call, i) && Got(call, reply, i) == None && e.reg.complete ==> e'.reg.complete)
    && (i == 1 && Allocated(c, i) ==> StuckStep(e, e', Took(call, reply, i)))
  }

  /** The driver's mask of completed OUT endpoints: each report sets it, and data is read from
    * the endpoints in it. A reset leaves every endpoint to the driver. */
  ghost predicate MaskStep(call: Call, reply: Reply, s: St, s': St)
    requires |s'.ep| == MAX_ENDPOINTS
  {
    && s'.epOut == (if IsReport(reply) then reply.poll.epOut else s.epOut)
    && (IsReport(reply) ==> reply.poll.epOut <= CompleteOut(s'))
    && (call.ReadCall? && reply.ReadReply? && reply.read.Ok? && call.addr.index != 0 ==> call.addr.index in s.epOut)
    && (if call.ResetCall? then AllQuiet(s') && NoneFlushing(s') else Uncut(s, s'))
  }

  /** The reply to a call, and what the call did to what has no history: decided by the state
    * in which the call finds its endpoint, if that is the driver's. */
  ghost predicate Answered(c: Config, call: Call, reply: Reply, s: St, s': St)
    requires GoodConfig(c) && |s.ep| == |s'.ep| == MAX_ENDPOINTS
  {
    match call
    case PollCall => reply.PollReply? && PollAnswered(reply.poll, s, s')
    case ReadCall(addr, cap) => reply.ReadReply? && ReadAnswered(c, addr, cap, reply.read, s, s')
    case WriteCall(addr, data) => reply.WriteReply? && WriteAnswered(c, addr, data, reply.write, s, s')
    case StallCall(addr, stall) => reply.Done? && (Allocated(c, Index(addr)) ==> s'.ep[Index(addr)].reg.stalled == stall)
    case IsStalledCall(addr) =>
      reply.StalledReply? && (Allocated(c, Index(addr)) ==> reply.stalled == s.ep[Index(addr)].reg.stalled)
    case ZltCall(addr) => reply.Done? && (Allocated(c, Index(addr)) ==> !s'.ep[Index(addr)].qh.zltDisabled)
    case ResetCall => reply.Done? && ConfiguredBelow(c, MAX_ENDPOINTS, s', false)
    case ConfigureCall => reply.Done? && ConfiguredBelow(c, MAX_ENDPOINTS, s', true)
  }

  /** A reset that was up wins, and leaves the rest pending; otherwise what was up is reported,
    * and nothing that is not. */
  ghost predicate PollAnswered(r: PollResult, s: St, s': St)
    requires |s.ep| == |s'.ep| == MAX_ENDPOINTS
  {
    && (s.uri ==> r == Reset) && (s.ui ==> r != NoEvent) && (r == Reset && s.ui ==> s'.ui)
    && (r.Data? ==>
          && CompleteOut(s) <= r.epOut <= CompleteOut(s') && CompleteIn(s) <= r.epInComplete
          && SetupStat(s) <= r.epSetup == SetupStat(s'))
  }

  ghost predicate ReadAnswered(c: Config, addr: Address, cap: nat, r: Result<Packet>, s: St, s': St)
    requires GoodConfig(c) && |s.ep| == |s'.ep| == MAX_ENDPOINTS
  {
    if !Allocated(c, Index(addr)) then r == Err(InvalidEndpoint)
    else if addr.index == 0 then ControlReadDecided(s.ep[0], s'.ep[0], cap, r)
    else ReadDecided(s.ep[Index(addr)], s'.ep[Index(addr)], addr.index in s.epOut, r)
  }

  /** A setup packet, always if one was pending and the caller's buffer holds it; or data. */
  ghost predicate ControlReadDecided(e: Ep, e': Ep, cap: nat, r: Result<Packet>) {
    if e.setup.pending && cap >= 8 then SetupTaken(e, e', cap, r)
    else SetupTaken(e, e', cap, r) || ReadDecided(e, e', true, r)
  }

  ghost predicate WriteAnswered(c: Config, addr: Address, data: Packet, r: Result<nat>, s: St, s': St)
    requires GoodConfig(c) && |s.ep| == |s'.ep| == MAX_ENDPOINTS
  {
    if !Allocated(c, Index(addr)) then r == Err(InvalidEndpoint)
    else
      && WriteDecided(c, Index(addr), s.ep[Index(addr)], s'.ep[Index(addr)], |data|, r)
      && (addr.index == 0 ==> ControlWriteAnswered(s, s', data, r))
  }

  /** On endpoint zero the packet is queued behind all before it, and the status stage gets its
    * empty transfer unless the controller has the OUT half. */
  ghost predicate ControlWriteAnswered(s: St, s': St, data: Packet, r: Result<nat>)
    requires |s.ep| == |s'.ep| == MAX_ENDPOINTS
  {
    match r
    case Err(_) => s'.ep[1].h.queued == s.ep[1].h.queued
    case Ok(n) =>
      && n <= |data| && s'.ep[1].h.queued == s.ep[1].h.queued + [data[..n]]
      && (Reprimed(s.ep[0], s'.ep[0], true, 0) || Reprimed(s.ep[0], s'.ep[0], false, 0))
  }

  ghost predicate Step(c: Config, call: Call, reply: Reply, looks: Looks, s: St, s': St)
    requires GoodConfig(c)
  {
    && |s.ep| == |s'.ep| == |looks.first.ep| == |looks.second.ep| == MAX_ENDPOINTS
    && MaskStep(call, reply, s, s') && Answered(c, call, reply, s, s')
    && forall i :: 0 <= i < MAX_ENDPOINTS ==> StepAt(c, i, call, reply, looks, s, s')
  }

  /** The call is not about data endpoint `i`. */
  predicate IsElsewhere(c: Config, call: Call, reply: Reply, i: nat) {
    (IsDataOut(c, i) ==> !Reschedules(call, i)) && Got(call, reply, i) == None && Took(call, reply, i) == None && !Reports(reply, i)
  }

  lemma OutPassed(e: Ep, e': Ep, first: Ep, second: Ep)
    requires EpRely(e, e') && e'.h.fates == [] && |e.h.done| <= |e.h.rx|
    ensures OutStep(e, e', None, first, second)
  {
    RelyKeepsOut(e, e');
  }

  lemma InPassed(e: Ep, e': Ep, reset: bool, first: Ep, second: Ep)
    requires EpRely(e, e')
    ensures InStep(e, e', None, false, reset, first, second)
  {
  }

  /** Which of its registers the controller and the histories go by. */
  ghost predicate SameFlow(e: Ep, e': Ep) {
    && e'.td == e.td && e'.h == e.h
    && e'.reg.prime == e.reg.prime && e'.reg.stat == e.reg.stat && e'.reg.complete == e.reg.complete
  }

  /** What is true of slot `i` before and after a call. */
  ghost predicate BothSound(c: Config, i: nat, s: St, s': St)
    requires GoodConfig(c) && |s.ep| == |s'.ep| == MAX_ENDPOINTS && i < MAX_ENDPOINTS
  {
    Holds(c, i, s) && Holds(c, i, s')
  }

  /** A call leaves alone what it is not about. */
  lemma PassedOver(c: Config, i: nat, call: Call, reply: Reply, looks: Looks, s: St, s': St, e': Ep)
    requires |s.ep| == |s'.ep| == |looks.first.ep| == |looks.second.ep| == MAX_ENDPOINTS && i < MAX_ENDPOINTS
    requires GoodConfig(c) && BothSound(c, i, s, s') && IsElsewhere(c, call, reply, i)
    requires EpRely(s.ep[i], e') && SameFlow(e', s'.ep[i])
    ensures StepAt(c, i, call, reply, looks, s, s')
  {
    if IsDataOut(c, i) {
      OutPassed(s.ep[i], e', looks.first.ep[i], looks.second.ep[i]);
    } else if IsDataIn(c, i) {
      InPassed(s.ep[i], e', call.ResetCall?, looks.first.ep[i], looks.second.ep[i]);
    }
  }

  lemma OthersCall(c: Config, i: nat, call: Call, reply: Reply, looks: Looks, s: St, s': St)
    requires |s.ep| == |s'.ep| == |looks.first.ep| == |looks.second.ep| == MAX_ENDPOINTS && i < MAX_ENDPOINTS
    requires GoodConfig(c) && Inv(c, s) && Inv(c, s') && SlotRely(c, i, s, s') && IsElsewhere(c, call, reply, i)
    ensures StepAt(c, i, call, reply, looks, s, s')
  {
    assert Holds(c, i, s) && Holds(c, i, s');
    PassedOver(c, i, call, reply, looks, s, s', s'.ep[i]);
  }

  /** A call that changes no endpoint. */
  lemma QuietCall(c: Config, call: Call, reply: Reply, s: St, s': St)
    requires GoodConfig(c) && Inv(c, s) && Inv(c, s') && AllRely(c, s, s') && MaskStep(call, reply, s, s')
    requires Answered(c, call, reply, s, s')
    requires forall i :: IsElsewhere(c, call, reply, i)
    ensures Step(c, call, reply, Looks(s, s), s, s')
  {
    forall i | 0 <= i < MAX_ENDPOINTS ensures StepAt(c, i, call, reply, Looks(s, s), s, s') {
      assert SlotRely(c, i, s, s');
      OthersCall(c, i, call, reply, Looks(s, s), s, s');
    }
  }

  lemma RelyCall(c: Config, call: Call, reply: Reply, s: St, s': St)
    requires GoodConfig(c) && Inv(c, s) && Inv(c, s') && Rely(c, s, s') && MaskStep(call, reply, s, s')
    requires Answered(c, call, reply, s, s')
    requires forall i :: IsElsewhere(c, call, reply, i)
    ensures Step(c, call, reply, Looks(s, s), s, s')
  {
    RelyIsAllRely(c, s, s');
    QuietCall(c, call, reply, s, s');
  }

  /** A call that names a data endpoint is about that endpoint. */
  lemma DataCall(c: Config, call: Call, reply: Reply, looks: Looks, s: St, s': St)
    requires GoodConfig(c) && Inv(c, s) && Inv(c, s') && (call.ReadCall? || call.WriteCall? || call.StallCall? || call.ZltCall?)
    requires RelyExcept(c, {Index(call.addr)}, s, s') && MaskStep(call, reply, s, s') && !IsReport(reply)
    requires Answered(c, call, reply, s, s')
    requires |looks.first.ep| == |looks.second.ep| == MAX_ENDPOINTS && Index(call.addr) < MAX_ENDPOINTS
    requires StepAt(c, Index(call.addr), call, reply, looks, s, s')
    ensures Step(c, call, reply, looks, s, s')
  {
    OwnCall(c, {Index(call.addr)}, call, reply, looks, s, s');
  }

  /** Nothing is said of endpoint zero but what becomes of an error on its IN half. */
  lemma ControlSlot(c: Config, i: nat, call: Call, reply: Reply, looks: Looks, s: St, s': St)
    requires |s.ep| == |s'.ep| == |looks.first.ep| == |looks.second.ep| == MAX_ENDPOINTS && i < 2
    requires i == 1 ==> StuckStep(s.ep[1], s'.ep[1], Took(call, reply, 1))
    ensures StepAt(c, i, call, reply, looks, s, s')
  {
  }

  /** A call about the slots in `own`. */
  lemma OwnCall(c: Config, own: set<nat>, call: Call, reply: Reply, looks: Looks, s: St, s': St)
    requires GoodConfig(c) && Inv(c, s) && Inv(c, s') && RelyExcept(c, own, s, s') && MaskStep(call, reply, s, s')
    requires |looks.first.ep| == |looks.second.ep| == MAX_ENDPOINTS && Answered(c, call, reply, s, s')
    requires forall i :: i in own && i < MAX_ENDPOINTS ==> StepAt(c, i, call, reply, looks, s, s')
    requires forall i :: i !in own ==> IsElsewhere(c, call, reply, i)
    ensures Step(c, call, reply, looks, s, s')
  {
    forall i | 0 <= i < MAX_ENDPOINTS ensures StepAt(c, i, call, reply, looks, s, s') {
      if i !in own {
        assert SlotRely(c, i, s, s');
        OthersCall(c, i, call, reply, looks, s, s');
      }
    }
  }

  /** A call that names endpoint zero is about no data endpoint. */
  lemma ControlCall(c: Config, own: set<nat>, call: Call, reply: Reply, looks: Looks, s: St, s': St)
    requires GoodConfig(c) && Inv(c, s) && Inv(c, s') && RelyExcept(c, own, s, s') && own <= {0, 1}
    requires (call.ReadCall? || call.WriteCall?) && call.addr.index == 0 && !IsReport(reply) && s'.epOut == s.epOut
    requires |looks.first.ep| == |looks.second.ep| == MAX_ENDPOINTS
    requires Answered(c, call, reply, s, s') && Index(call.addr) in own && (1 in own ==> StuckStep(s.ep[1], s'.ep[1], Took(call, reply, 1)))
    ensures Step(c, call, reply, looks, s, s')
  {
    forall i | i in own && i < MAX_ENDPOINTS ensures StepAt(c, i, call, reply, looks, s, s') {
      ControlSlot(c, i, call, reply, looks, s, s');
    }
    OwnCall(c, own, call, reply, looks, s, s');
  }

  /** A completion that a poll has reported leaves the endpoint spent, if it belonged to the
    * last packet; and that packet was sent. */
  lemma ReportedIsSpent(i: nat, e: Ep, e': Ep, mask: set<nat>)
    requires !IsOut(i) && PolledEp(i, e, e', mask) && CompletionsBalance(i, e) && CompletionsBalance(i, e')
    ensures Tidy(e) && i / 2 in mask ==> Spent(e') && LastSent(e'.h)
    ensures Spent(e) ==> Spent(e') && e'.h.fates == e.h.fates
  {
  }

  lemma PolledStep(c: Config, r: PollResult, s: St, s': St)
    requires GoodConfig(c) && r.Data? && Polled(c, s, s', r.epInComplete) && Inv(c, s) && Inv(c, s')
    requires s'.epOut == r.epOut <= CompleteOut(s') && PollAnswered(r, s, s')
    ensures Step(c, PollCall, PollReply(r), Looks(s, s), s, s')
  {
    forall i | 0 <= i < MAX_ENDPOINTS ensures StepAt(c, i, PollCall, PollReply(r), Looks(s, s), s, s') {
      assert PolledSlot(c, i, s, s', r.epInComplete) && Holds(c, i, s) && Holds(c, i, s');
      PolledStepAt(c, i, r, s, s');
    }
  }

  lemma PolledStepAt(c: Config, i: nat, r: PollResult, s: St, s': St)
    requires GoodConfig(c) && |s.ep| == |s'.ep| == MAX_ENDPOINTS && i < MAX_ENDPOINTS && BothSound(c, i, s, s')
    requires r.Data? && PolledSlot(c, i, s, s', r.epInComplete)
    ensures StepAt(c, i, PollCall, PollReply(r), Looks(s, s), s, s')
  {
    if IsOut(i) {
      RelyKeepsOut(s.ep[i], s'.ep[i]);
    } else if Allocated(c, i) {
      ReportedIsSpent(i, s.ep[i], s'.ep[i], r.epInComplete);
    }
  }

  lemma ResetStep(c: Config, s: St, s': St)
    requires GoodConfig(c) && Inv(c, s) && Inv(c, s') && AllReset(s, s') && AllQuiet(s') && NoneFlushing(s') && s'.epOut == s.epOut
    requires ConfiguredBelow(c, MAX_ENDPOINTS, s', false)
    ensures Step(c, ResetCall, Done, Looks(s, s), s, s')
  {
    forall i | 0 <= i < MAX_ENDPOINTS ensures StepAt(c, i, ResetCall, Done, Looks(s, s), s, s') {
      assert ResetSlot(i, s, s') && Holds(c, i, s) && Holds(c, i, s');
      ResetStepAt(c, i, s, s');
    }
  }

  lemma ResetStepAt(c: Config, i: nat, s: St, s': St)
    requires GoodConfig(c) && |s.ep| == |s'.ep| == MAX_ENDPOINTS && i < MAX_ENDPOINTS && BothSound(c, i, s, s')
    requires ResetSlot(i, s, s')
    ensures StepAt(c, i, ResetCall, Done, Looks(s, s), s, s')
  {
    var h, h' := s.ep[i].h, s'.ep[i].h;
    if IsDataOut(c, i) && !s.ep[i].reg.complete && s'.ep[i].reg.complete {
      assert h'.rx[..|h'.rx|] == h'.rx;
    }
  }

  lemma ConfigureStep(c: Config, s: St, s': St)
    requires GoodConfig(c) && Inv(c, s) && Inv(c, s') && ConfiguredAll(c, s, s') && s'.epOut == s.epOut
    ensures Step(c, ConfigureCall, Done, Looks(s, s), s, s')
  {
    forall i | 0 <= i < MAX_ENDPOINTS ensures StepAt(c, i, ConfigureCall, Done, Looks(s, s), s, s') {
      assert ConfigEffect(c, i, s, s') && Holds(c, i, s) && Holds(c, i, s');
      if !IsDataOut(c, i) {
        PassedOver(c, i, ConfigureCall, Done, Looks(s, s), s, s', Uncontrolled(s'.ep[i], s.ep[i].reg));
      }
    }
  }
}
