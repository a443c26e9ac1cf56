/** Sessions: any number of calls on the bus, in any order, with the controller running
  * before each of their accesses. What the users of the data endpoints see. */
module Sessions {
  import opened Types
  import opened Device
  import opened Invariant
  import opened Agreement
  import opened Runs
  import opened CallEffects
  import opened Calls
  import opened DriverModel
  import opened BusModel

  /** The calls of a session and their replies, what the transfer calls saw at their two
    * looks, and the states between the calls. */
  datatype Trace = Trace(calls: seq<Call>, replies: seq<Reply>, looks: seq<Looks>, states: seq<St>) {
    predicate Sized() {
      |replies| == |looks| == |calls| && |states| == |calls| + 1
    }

    /** Slot `i` before call `n`. */
    function At(n: nat, i: nat): Ep
      requires Sized() && n <= |calls| && i < |states[n].ep|
    {
      states[n].ep[i]
    }

    function Grow(call: Call, reply: Reply, look: Looks, s: St): Trace {
      Trace(calls + [call], replies + [reply], looks + [look], states + [s])
    }
  }

  ghost predicate IsTrace(c: Config, t: Trace) {
    && GoodConfig(c) && t.Sized()
    && (forall s <- t.states :: |s.ep| == MAX_ENDPOINTS)
    && (forall l <- t.looks :: |l.first.ep| == |l.second.ep| == MAX_ENDPOINTS)
    && (forall k :: 0 <= k <= |t.calls| ==> Sound(c, t, k))
    && (forall k :: 0 <= k < |t.calls| ==> Next(c, t, k))
  }

  ghost predicate Sound(c: Config, t: Trace, k: nat)
    requires GoodConfig(c) && k < |t.states|
  {
    Inv(c, t.states[k]) && Calm(t.states[k])
  }

  ghost predicate Next(c: Config, t: Trace, k: nat)
    requires GoodConfig(c) && t.Sized() && k < |t.calls|
  {
    Step(c, t.calls[k], t.replies[k], t.looks[k], t.states[k], t.states[k + 1])
  }

  lemma HoldsAt(c: Config, t: Trace, i: nat, k: nat)
    requires IsTrace(c, t) && k <= |t.calls| && i < MAX_ENDPOINTS
    ensures Holds(c, i, t.states[k])
  {
    assert Sound(c, t, k);
  }

  // ---------------------------------------------------------------- serving

  /** After `n` calls no OUT data endpoint has been scheduled since the last reset, or since
    * the beginning if `clean` says so there. */
  predicate Fresh(calls: seq<Call>, clean: bool, n: nat)
    requires n <= |calls|
  {
    if n == 0 then clean
    else
      match calls[n - 1]
      case ResetCall => true
      case ConfigureCall => false
      case ReadCall(addr, _) => Fresh(calls, clean, n - 1) && addr.index == 0
      case StallCall(addr, stall) => Fresh(calls, clean, n - 1) && (stall || addr.dir == In || addr.index == 0)
      case _ => Fresh(calls, clean, n - 1)
  }

  /** The device is configured once after each reset, before its OUT data endpoints are used. */
  ghost predicate Orderly(calls: seq<Call>, clean: bool) {
    forall n :: 0 <= n < |calls| && calls[n].ConfigureCall? ==> Fresh(calls, clean, n)
  }

  /** Any calls, in any order that the stack may choose. In the run that they make, from
    * power-up on, the driver never handled an endpoint that the controller had. */
  method Serve(bus: Bus, calls: seq<Call>, clean: bool) returns (replies: seq<Reply>, ghost t: Trace)
    requires bus.Valid() && Orderly(calls, clean) && (clean ==> DataOutQuiet(bus.usb.usb.c, bus.S()))
    requires forall call <- calls :: Proper(bus.usb.usb.c, call)
    modifies bus.usb`epOut, bus.usb.usb`s, bus.usb.usb`run, bus.usb.usb`script
    ensures bus.Valid() && IsTrace(bus.usb.usb.c, t) && t.calls == calls && t.replies == replies
    ensures t.states[0] == old(bus.S()) && t.states[|calls|] == bus.S()
    ensures var p := bus.usb.usb; forall k :: 0 <= k < |p.run| ==> HandledQuiet(p.c, p.mem0, p.run, k)
  {
    ghost var c := bus.usb.usb.c;
    replies, t := [], Trace([], [], [], [bus.S()]);
    for k := 0 to |calls|
      invariant bus.Valid() && IsTrace(c, t) && t.calls == calls[..k] && t.replies == replies
      invariant t.states[0] == old(bus.S()) && t.states[k] == bus.S()
      invariant Fresh(calls, clean, k) ==> DataOutQuiet(c, bus.S())
    {
      var reply;
      reply, t := ServeOne(bus, calls, clean, k, t);
      replies := replies + [reply];
    }
    assert calls[..|calls|] == calls;
    RunIsQuiet(bus);
  }

  method ServeOne(bus: Bus, calls: seq<Call>, clean: bool, k: nat, ghost t: Trace) returns (reply: Reply, ghost t': Trace)
    requires bus.Valid() && k < |calls| && Orderly(calls, clean) && Proper(bus.usb.usb.c, calls[k])
    requires IsTrace(bus.usb.usb.c, t) && t.calls == calls[..k] && t.states[k] == bus.S()
    requires Fresh(calls, clean, k) ==> DataOutQuiet(bus.usb.usb.c, bus.S())
    modifies bus.usb`epOut, bus.usb.usb`s, bus.usb.usb`run, bus.usb.usb`script
    ensures bus.Valid() && IsTrace(bus.usb.usb.c, t') && t'.calls == calls[..k + 1] && t'.replies == t.replies + [reply]
    ensures t'.states[0] == t.states[0] && t'.states[k + 1] == bus.S()
    ensures Fresh(calls, clean, k + 1) ==> DataOutQuiet(bus.usb.usb.c, bus.S())
  {
    ghost var looks;
    reply, looks := bus.Perform(calls[k]);
    Served(bus.usb.usb.c, t, calls, clean, k, reply, looks, bus.S());
    t' := t.Grow(calls[k], reply, looks, bus.S());
  }

  lemma RunIsQuiet(bus: Bus)
    requires bus.Valid()
    ensures var p := bus.usb.usb; forall k :: 0 <= k < |p.run| ==> HandledQuiet(p.c, p.mem0, p.run, k)
  {
    var p := bus.usb.usb;
    forall k | 0 <= k < |p.run| ensures HandledQuiet(p.c, p.mem0, p.run, k) {
      OwnershipSafety(p.c, p.mem0, p.run, p.s, k);
    }
  }

  lemma Served(c: Config, t: Trace, calls: seq<Call>, clean: bool, k: nat, reply: Reply, looks: Looks, s: St)
    requires IsTrace(c, t) && Inv(c, s) && Calm(s) && k < |calls| && t.calls == calls[..k]
    requires Step(c, calls[k], reply, looks, t.states[k], s)
    requires Fresh(calls, clean, k) ==> DataOutQuiet(c, t.states[k])
    ensures IsTrace(c, t.Grow(calls[k], reply, looks, s)) && t.Grow(calls[k], reply, looks, s).calls == calls[..k + 1]
    ensures Fresh(calls, clean, k + 1) ==> DataOutQuiet(c, s)
  {
    TraceGrows(c, t, calls[k], reply, looks, s);
    StaysFresh(c, calls, clean, k, reply, looks, t.states[k], s);
  }

  lemma TraceGrows(c: Config, t: Trace, call: Call, reply: Reply, looks: Looks, s: St)
    requires IsTrace(c, t) && Inv(c, s) && Calm(s) && Step(c, call, reply, looks, t.states[|t.calls|], s)
    ensures IsTrace(c, t.Grow(call, reply, looks, s))
  {
    var t' := t.Grow(call, reply, looks, s);
    forall k | 0 <= k <= |t'.calls| ensures Sound(c, t', k) {
      if k <= |t.calls| {
        assert Sound(c, t, k);
      }
    }
    forall k | 0 <= k < |t'.calls| ensures Next(c, t', k) {
      if k < |t.calls| {
        assert Next(c, t, k);
      }
    }
  }

  lemma StaysFresh(c: Config, calls: seq<Call>, clean: bool, k: nat, reply: Reply, looks: Looks, s: St, s': St)
    requires GoodConfig(c) && k < |calls| && Step(c, calls[k], reply, looks, s, s')
    requires Fresh(calls, clean, k) ==> DataOutQuiet(c, s)
    ensures Fresh(calls, clean, k + 1) ==> DataOutQuiet(c, s')
  {
    if Fresh(calls, clean, k + 1) && !calls[k].ResetCall? {
      forall i | 0 <= i < MAX_ENDPOINTS && IsDataOut(c, i) ensures s'.ep[i].Quiet() {
        assert StepAt(c, i, calls[k], reply, looks, s, s');
      }
    }
  }

  // ---------------------------------------------------------------- flushes

  /** Calls `a` to `b` are no resets. */
  ghost predicate NoResetIn(t: Trace, a: nat, b: nat)
    requires b <= |t.calls|
  {
    forall k :: a <= k < b ==> !t.calls[k].ResetCall?
  }

  /** Without a reset no transfer of a data endpoint is cut, from any moment at which its bit
    * of ENDPTFLUSH is down. */
  lemma {:induction false} NoCut(c: Config, t: Trace, i: nat, a: nat, b: nat)
    requires IsTrace(c, t) && a <= b <= |t.calls| && 2 <= i < MAX_ENDPOINTS && NoResetIn(t, a, b) && !t.At(a, i).reg.flush
    ensures !t.At(b, i).reg.flush && t.At(b, i).h.cuts == t.At(a, i).h.cuts
    ensures NoneCut(t.At(a, i).h.fates, t.At(b, i).h.fates)
  {
    if a < b {
      NoCut(c, t, i, a, b - 1);
      assert Next(c, t, b - 1) && UncutAt(i, t.states[b - 1], t.states[b]);
      UncutJoin(t.At(a, i), t.At(b - 1, i), t.At(b, i));
    }
  }

  /** That bit is down between any two calls: at power-up, and whatever is called. */
  lemma {:induction false} FlushIsOver(c: Config, t: Trace, i: nat, n: nat)
    requires IsTrace(c, t) && n <= |t.calls| && 2 <= i < MAX_ENDPOINTS && !t.At(0, i).reg.flush
    ensures !t.At(n, i).reg.flush
  {
    if n > 0 {
      FlushIsOver(c, t, i, n - 1);
      assert Next(c, t, n - 1);
      if !t.calls[n - 1].ResetCall? {
        assert UncutAt(i, t.states[n - 1], t.states[n]);
      }
    }
  }

  // ---------------------------------------------------------------- OUT

  lemma OutStepOf(c: Config, t: Trace, i: nat, k: nat)
    requires IsTrace(c, t) && k < |t.calls| && i < MAX_ENDPOINTS && IsDataOut(c, i) && !Reschedules(t.calls[k], i)
    ensures OutStep(t.At(k, i), t.At(k + 1, i), Got(t.calls[k], t.replies[k], i), t.looks[k].first.ep[i], t.looks[k].second.ep[i])
  {
    assert Next(c, t, k) && StepAt(c, i, t.calls[k], t.replies[k], t.looks[k], t.states[k], t.states[k + 1]);
  }

  /** Call `k` handed a packet of slot `i` out to its caller. */
  predicate IsHandedOut(t: Trace, i: nat, k: nat)
    requires t.Sized() && k < |t.calls| && i < |t.states[k].ep| && i < |t.states[k + 1].ep|
  {
    Got(t.calls[k], t.replies[k], i).Some? && |t.At(k + 1, i).h.done| > |t.At(k, i).h.done|
  }

  /** The packets that the first `n` calls handed out of slot `i`, with the sizes asked for. */
  ghost function HandedOuts(c: Config, t: Trace, i: nat, n: nat): seq<(nat, Packet)>
    requires IsTrace(c, t) && n <= |t.calls| && i < MAX_ENDPOINTS
  {
    if n == 0 then []
    else
      HandedOuts(c, t, i, n - 1)
      + (if IsHandedOut(t, i, n - 1) then [Got(t.calls[n - 1], t.replies[n - 1], i).value] else [])
  }

  function Deliveries(got: seq<(nat, Packet)>): seq<Outcome> {
    seq(|got|, k requires 0 <= k < |got| => Delivered(got[k].0, got[k].1))
  }

  lemma DeliveriesGrow(got: seq<(nat, Packet)>, p: (nat, Packet))
    ensures Deliveries(got + [p]) == Deliveries(got) + [Delivered(p.0, p.1)]
  {
  }

  /** Nobody schedules slot `i` without reading it. */
  ghost predicate NeverRescheduled(t: Trace, i: nat) {
    forall call <- t.calls :: !Reschedules(call, i)
  }

  lemma {:induction false} MailboxUpTo(c: Config, t: Trace, i: nat, n: nat)
    requires IsTrace(c, t) && n <= |t.calls| && i < MAX_ENDPOINTS && IsDataOut(c, i) && NeverRescheduled(t, i)
    ensures Onwards(t.At(0, i).h, t.At(n, i).h)
    ensures t.At(n, i).h.done == t.At(0, i).h.done + Deliveries(HandedOuts(c, t, i, n))
  {
    if n > 0 {
      MailboxUpTo(c, t, i, n - 1);
      MailboxNext(c, t, i, n - 1);
      if IsHandedOut(t, i, n - 1) {
        DeliveriesGrow(HandedOuts(c, t, i, n - 1), Got(t.calls[n - 1], t.replies[n - 1], i).value);
      }
    }
  }

  lemma MailboxNext(c: Config, t: Trace, i: nat, k: nat)
    requires IsTrace(c, t) && k < |t.calls| && i < MAX_ENDPOINTS && IsDataOut(c, i) && NeverRescheduled(t, i)
    ensures Onwards(t.At(k, i).h, t.At(k + 1, i).h)
    ensures var got := Got(t.calls[k], t.replies[k], i);
            t.At(k + 1, i).h.done
            == t.At(k, i).h.done + (if IsHandedOut(t, i, k) then [Delivered(got.value.0, got.value.1)] else [])
  {
    assert t.calls[k] in t.calls;
    OutStepOf(c, t, i, k);
  }

  /** An OUT data endpoint is a mailbox, from its users' point of view, whatever fails. As long
    * as nobody unstalls or configures it, the packets received are, in order, those handed
    * out by reads, each cut to the caller's buffer, and at most one that waits: none is lost,
    * repeated or overwritten unread. `done` are those settled before the session. */
  lemma MailboxSession(c: Config, t: Trace, i: nat)
    requires IsTrace(c, t) && i < MAX_ENDPOINTS && IsDataOut(c, i) && NeverRescheduled(t, i)
    ensures var n := |t.calls|;
            var done, rx, got := |t.At(0, i).h.done|, t.At(n, i).h.rx, HandedOuts(c, t, i, n);
            && done + |got| <= |rx| <= done + |got| + 1 && t.At(0, i).h.rx <= rx
            && (forall k :: 0 <= k < |got| ==> got[k].1 == rx[done + k][..Min(got[k].0, |rx[done + k]|)])
            && (|rx| > done + |got| ==> t.At(n, i).Quiet() && Waits(c, t.states[n], i, Last(rx)))
  {
    var n := |t.calls|;
    MailboxUpTo(c, t, i, n);
    HoldsAt(c, t, i, n);
    var h0, h, got := t.At(0, i).h, t.At(n, i).h, HandedOuts(c, t, i, n);
    forall k | 0 <= k < |got| ensures got[k].1 == h.rx[|h0.done| + k][..Min(got[k].0, |h.rx[|h0.done| + k]|)] {
      assert h.done[|h0.done| + k] == Deliveries(got)[k];
    }
  }

  lemma RescheduleStepOf(c: Config, t: Trace, i: nat, k: nat)
    requires IsTrace(c, t) && k < |t.calls| && i < MAX_ENDPOINTS && IsDataOut(c, i) && Reschedules(t.calls[k], i)
    ensures RescheduleStep(t.At(k, i), t.At(k + 1, i)) && !IsHandedOut(t, i, k)
  {
    assert Next(c, t, k) && StepAt(c, i, t.calls[k], t.replies[k], t.looks[k], t.states[k], t.states[k + 1]);
  }

  /** What the first `n` calls settled on slot `i`: packets handed out, and packets discarded
    * by calls that schedule the endpoint whatever waits. */
  ghost function Settled(c: Config, t: Trace, i: nat, n: nat): seq<Outcome>
    requires IsTrace(c, t) && n <= |t.calls| && i < MAX_ENDPOINTS
  {
    if n == 0 then [] else Settled(c, t, i, n - 1) + SettledBy(c, t, i, n - 1)
  }

  ghost function SettledBy(c: Config, t: Trace, i: nat, k: nat): seq<Outcome>
    requires IsTrace(c, t) && k < |t.calls| && i < MAX_ENDPOINTS
  {
    var got := Got(t.calls[k], t.replies[k], i);
    if IsHandedOut(t, i, k) then [Delivered(got.value.0, got.value.1)]
    else if Reschedules(t.calls[k], i) && |t.At(k + 1, i).h.done| > |t.At(k, i).h.done| then [Discarded]
    else []
  }

  lemma SettledNext(c: Config, t: Trace, i: nat, k: nat)
    requires IsTrace(c, t) && k < |t.calls| && i < MAX_ENDPOINTS && IsDataOut(c, i)
    ensures Onwards(t.At(k, i).h, t.At(k + 1, i).h) && t.At(k + 1, i).h.done == t.At(k, i).h.done + SettledBy(c, t, i, k)
    ensures Reschedules(t.calls[k], i) && t.At(k, i).Quiet() ==>
              SettledBy(c, t, i, k) == if t.At(k, i).h.Pending() then [Discarded] else []
  {
    if Reschedules(t.calls[k], i) {
      RescheduleStepOf(c, t, i, k);
    } else {
      OutStepOf(c, t, i, k);
    }
  }

  lemma SettledOn(h0: History, h1: History, h2: History, a: seq<Outcome>, b: seq<Outcome>)
    requires Onwards(h0, h1) && Onwards(h1, h2) && h1.done == h0.done + a && h2.done == h1.done + b
    ensures Onwards(h0, h2) && h2.done == h0.done + (a + b)
  {
    Joined(h0.done, a, b);
  }

  ghost predicate SettledSoFar(c: Config, t: Trace, i: nat, n: nat)
    requires IsTrace(c, t) && n <= |t.calls| && i < MAX_ENDPOINTS
  {
    Onwards(t.At(0, i).h, t.At(n, i).h) && t.At(n, i).h.done == t.At(0, i).h.done + Settled(c, t, i, n)
  }

  lemma {:induction false} SettledUpTo(c: Config, t: Trace, i: nat, n: nat)
    requires IsTrace(c, t) && n <= |t.calls| && i < MAX_ENDPOINTS && IsDataOut(c, i)
    ensures SettledSoFar(c, t, i, n)
  {
    if n > 0 {
      SettledUpTo(c, t, i, n - 1);
      SettledStep(c, t, i, n - 1);
    }
  }

  lemma SettledStep(c: Config, t: Trace, i: nat, k: nat)
    requires IsTrace(c, t) && k < |t.calls| && i < MAX_ENDPOINTS && IsDataOut(c, i) && SettledSoFar(c, t, i, k)
    ensures SettledSoFar(c, t, i, k + 1)
  {
    SettledNext(c, t, i, k);
    SettledOn(t.At(0, i).h, t.At(k, i).h, t.At(k + 1, i).h, Settled(c, t, i, k), SettledBy(c, t, i, k));
  }

  /** The mailbox over any session at all: what a packet can lose its place to, besides a read
    * that hands it out, is an unstall or a configuration, and each discards one at most. */
  lemma AnySession(c: Config, t: Trace, i: nat)
    requires IsTrace(c, t) && i < MAX_ENDPOINTS && IsDataOut(c, i)
    ensures var n := |t.calls|;
            var done, rx, settled := |t.At(0, i).h.done|, t.At(n, i).h.rx, Settled(c, t, i, n);
            && done + |settled| <= |rx| <= done + |settled| + 1 && t.At(0, i).h.rx <= rx
            && (forall k :: 0 <= k < |settled| && settled[k].Delivered? ==>
                  settled[k].data == rx[done + k][..Min(settled[k].cap, |rx[done + k]|)])
            && (|rx| > done + |settled| ==> t.At(n, i).Quiet() && Waits(c, t.states[n], i, Last(rx)))
  {
    var n := |t.calls|;
    SettledUpTo(c, t, i, n);
    HoldsAt(c, t, i, n);
    OutcomesSince(t.At(0, i).h.done, Settled(c, t, i, n), t.At(n, i).h);
  }

  /** What was settled after `done`. */
  lemma OutcomesSince(done: seq<Outcome>, settled: seq<Outcome>, h: History)
    requires OutcomesMatch(h) && h.done == done + settled
    ensures forall k :: 0 <= k < |settled| && settled[k].Delivered? ==>
              |done| + k < |h.rx| && settled[k].data == h.rx[|done| + k][..Min(settled[k].cap, |h.rx[|done| + k]|)]
  {
    forall k | 0 <= k < |settled| && settled[k].Delivered?
      ensures |done| + k < |h.rx| && settled[k].data == h.rx[|done| + k][..Min(settled[k].cap, |h.rx[|done| + k]|)]
    {
      assert h.done[|done| + k] == settled[k];
    }
  }

  /** In the call a transfer of slot `i` failed between the two looks. */
  ghost predicate FailedBetween(c: Config, t: Trace, i: nat, k: nat)
    requires IsTrace(c, t) && k < |t.calls| && i < MAX_ENDPOINTS
  {
    t.looks[k].second.ep[i].h.fails > t.looks[k].first.ep[i].h.fails
  }

  /** From call `a` on a transfer is scheduled, short of a flush: it was before, or the call
    * schedules one. */
  ghost predicate IsLiveFrom(c: Config, t: Trace, i: nat, a: nat)
    requires IsTrace(c, t) && a < |t.calls| && i < MAX_ENDPOINTS
  {
    Live(t.At(a, i)) || Reschedules(t.calls[a], i)
  }

  lemma LiveNext(c: Config, t: Trace, i: nat, k: nat)
    requires IsTrace(c, t) && k < |t.calls| && i < MAX_ENDPOINTS && IsDataOut(c, i)
    ensures t.At(k, i).h.cuts <= t.At(k + 1, i).h.cuts
    ensures IsLiveFrom(c, t, i, k) && t.At(k + 1, i).h.cuts == t.At(k, i).h.cuts ==> Live(t.At(k + 1, i))
  {
    if Reschedules(t.calls[k], i) {
      RescheduleStepOf(c, t, i, k);
    } else {
      OutStepOf(c, t, i, k);
    }
  }

  lemma {:induction false} LiveUpTo(c: Config, t: Trace, i: nat, a: nat, n: nat)
    requires IsTrace(c, t) && a < n <= |t.calls| && i < MAX_ENDPOINTS && IsDataOut(c, i)
    ensures t.At(a, i).h.cuts <= t.At(n, i).h.cuts
    ensures IsLiveFrom(c, t, i, a) && t.At(n, i).h.cuts == t.At(a, i).h.cuts ==> Live(t.At(n, i))
  {
    LiveNext(c, t, i, n - 1);
    if n - 1 > a {
      LiveUpTo(c, t, i, a, n - 1);
    }
  }

  /** The reads that hand out nothing. From the last unstall or configuration on, or from any
    * call before which a transfer is scheduled, and without a reset: a successful read hands
    * out a packet if and only if no transfer failed between its two looks. One that finds
    * the endpoint free always does. */
  lemma StrayRead(c: Config, t: Trace, i: nat, a: nat, k: nat)
    requires IsTrace(c, t) && a <= k < |t.calls| && i < MAX_ENDPOINTS && IsDataOut(c, i) && IsLiveFrom(c, t, i, a)
    requires !t.At(a, i).reg.flush && NoResetIn(t, a, k + 1) && Got(t.calls[k], t.replies[k], i).Some?
    ensures IsHandedOut(t, i, k) <==> !FailedBetween(c, t, i, k)
    ensures t.At(k, i).Quiet() ==> IsHandedOut(t, i, k)
  {
    NoCut(c, t, i, a, k);
    NoCut(c, t, i, a, k + 1);
    if a < k {
      LiveUpTo(c, t, i, a, k);
    }
    OutStepOf(c, t, i, k);
  }

  /** After a reset, and until something schedules the endpoint again, a successful read hands
    * out a packet if and only if one waited when the reset was over; if none did, it returns
    * an empty one. `Gap.ReadAfterReset` shows that it can. */
  lemma ReadAfterReset(c: Config, t: Trace, i: nat, a: nat, k: nat)
    requires IsTrace(c, t) && a < k < |t.calls| && i < MAX_ENDPOINTS && IsDataOut(c, i) && t.calls[a].ResetCall?
    requires UnrescheduledIn(t, i, a, k) && forall m :: a < m < k ==> Got(t.calls[m], t.replies[m], i) == None
    requires Got(t.calls[k], t.replies[k], i).Some?
    ensures var h, got := t.At(a + 1, i).h, Got(t.calls[k], t.replies[k], i).value;
            && (IsHandedOut(t, i, k) <==> h.Pending())
            && got.1 == if h.Pending() then Last(h.rx)[..Min(got.0, |Last(h.rx)|)] else []
  {
    QuietSinceReset(c, t, i, a, k);
    OutStepOf(c, t, i, k);
    HoldsAt(c, t, i, k);
  }

  lemma {:induction false} QuietSinceReset(c: Config, t: Trace, i: nat, a: nat, n: nat)
    requires IsTrace(c, t) && a < n <= |t.calls| && i < MAX_ENDPOINTS && IsDataOut(c, i) && t.calls[a].ResetCall?
    requires UnrescheduledIn(t, i, a, n) && forall m :: a < m < n ==> Got(t.calls[m], t.replies[m], i) == None
    ensures t.At(n, i).Quiet() && t.At(n, i).h.rx == t.At(a + 1, i).h.rx && t.At(n, i).h.done == t.At(a + 1, i).h.done
  {
    if n == a + 1 {
      assert Next(c, t, a);
    } else {
      QuietSinceReset(c, t, i, a, n - 1);
      OutStepOf(c, t, i, n - 1);
    }
  }

  /** Calls `a` to `b` do not schedule slot `i` whatever waits. */
  ghost predicate UnrescheduledIn(t: Trace, i: nat, a: nat, b: nat)
    requires b <= |t.calls|
  {
    forall k :: a <= k < b ==> !Reschedules(t.calls[k], i)
  }

  /** Call `m` leaves the completion bit of slot `i` to the packet that waits: it is a
    * successful read, or it schedules the endpoint and finds it free with its bit down. */
  ghost predicate Matches(c: Config, t: Trace, i: nat, m: nat)
    requires IsTrace(c, t) && m < |t.calls| && i < MAX_ENDPOINTS
  {
    Got(t.calls[m], t.replies[m], i).Some? || (Reschedules(t.calls[m], i) && Spent(t.At(m, i)))
  }

  lemma {:induction false} MatchedUpTo(c: Config, t: Trace, i: nat, m: nat, n: nat)
    requires IsTrace(c, t) && m < n <= |t.calls| && i < MAX_ENDPOINTS && IsDataOut(c, i) && UnrescheduledIn(t, i, m + 1, n)
    requires Matches(c, t, i, m)
    ensures Matched(t.At(n, i))
  {
    if n - 1 > m {
      MatchedUpTo(c, t, i, m, n - 1);
      OutStepOf(c, t, i, n - 1);
    } else {
      MatchedFirst(c, t, i, m);
    }
  }

  lemma MatchedFirst(c: Config, t: Trace, i: nat, m: nat)
    requires IsTrace(c, t) && m < |t.calls| && i < MAX_ENDPOINTS && IsDataOut(c, i) && Matches(c, t, i, m)
    ensures Matched(t.At(m + 1, i))
  {
    if Reschedules(t.calls[m], i) {
      RescheduleStepOf(c, t, i, m);
    } else {
      OutStepOf(c, t, i, m);
    }
  }

  /** Power-up leaves every endpoint free with its bit down. Until the first call that
    * schedules or reads slot `i` it stays so, whatever is polled or reset; that call matches. */
  lemma {:induction false} FirstUseMatches(c: Config, t: Trace, i: nat, m: nat)
    requires IsTrace(c, t) && m < |t.calls| && i < MAX_ENDPOINTS && IsDataOut(c, i) && Spent(t.At(0, i))
    requires UnrescheduledIn(t, i, 0, m) && forall k :: 0 <= k < m ==> Got(t.calls[k], t.replies[k], i) == None
    ensures Spent(t.At(m, i))
    ensures Reschedules(t.calls[m], i) ==> Matches(c, t, i, m)
  {
    if m > 0 {
      FirstUseMatches(c, t, i, m - 1);
      OutStepOf(c, t, i, m - 1);
    }
  }

  /** The calls after `j` and before `k` neither report nor read. */
  ghost predicate NothingBetween(t: Trace, i: nat, j: nat, k: nat)
    requires t.Sized() && k <= |t.calls|
  {
    forall m :: j < m < k ==> !IsReport(t.replies[m]) && Got(t.calls[m], t.replies[m], i) == None
  }

  lemma {:induction false} MaskStays(c: Config, t: Trace, i: nat, j: nat, k: nat)
    requires IsTrace(c, t) && j < k <= |t.calls| && i < MAX_ENDPOINTS && IsDataOut(c, i) && UnrescheduledIn(t, i, j, k)
    requires IsReport(t.replies[j]) && NothingBetween(t, i, j, k)
    ensures t.states[k].epOut == t.replies[j].poll.epOut <= CompleteOut(t.states[j + 1])
    ensures t.At(k, i).h.done == t.At(j + 1, i).h.done && t.At(j + 1, i).h.rx <= t.At(k, i).h.rx
  {
    assert Next(c, t, k - 1);
    if k > j + 1 {
      MaskStays(c, t, i, j, k - 1);
      OutStepOf(c, t, i, k - 1);
    }
  }

  /** What a poll reports and what a read returns. Let call `m` be a successful read, or an
    * unstall or configuration that found the endpoint free with its completion bit down, and
    * the last unstall or configuration no later than that. Then the first successful read
    * (call `k`) after a report (call `j`) returns the packet that the report was about: the
    * report named the endpoint, a packet waited then, and the read hands out that packet. By
    * `FirstUseMatches` this covers the sessions that begin at power-up. If the last unstall or
    * configuration found the bit up, and for a second read after one report, it need not be
    * so: see `Gap.UnstalledThenPolled`, `Gap.ResetThenPolled` and `Gap.UnreportedRead`. */
  lemma FirstReadAfterReport(c: Config, t: Trace, i: nat, m: nat, j: nat, k: nat)
    requires IsTrace(c, t) && m < j < k < |t.calls| && i < MAX_ENDPOINTS && IsDataOut(c, i) && UnrescheduledIn(t, i, m + 1, k)
    requires Matches(c, t, i, m) && IsReport(t.replies[j]) && Got(t.calls[k], t.replies[k], i).Some?
    requires NothingBetween(t, i, j, k)
    ensures i / 2 in t.replies[j].poll.epOut && t.At(j + 1, i).h.Pending() && IsHandedOut(t, i, k)
    ensures var p, got := Last(t.At(j + 1, i).h.rx), Got(t.calls[k], t.replies[k], i).value;
            got.1 == p[..Min(got.0, |p|)]
  {
    MatchedUpTo(c, t, i, m, j + 1);
    ReadAfterReport(c, t, i, j, k);
  }

  /** Whatever came before: the report named the endpoint and its completion was up; and if a
    * packet waited at the report, the read hands out that packet. */
  lemma ReadAfterReport(c: Config, t: Trace, i: nat, j: nat, k: nat)
    requires IsTrace(c, t) && j < k < |t.calls| && i < MAX_ENDPOINTS && IsDataOut(c, i) && UnrescheduledIn(t, i, j, k)
    requires IsReport(t.replies[j]) && Got(t.calls[k], t.replies[k], i).Some? && NothingBetween(t, i, j, k)
    ensures i / 2 in t.replies[j].poll.epOut && t.At(j + 1, i).reg.complete
    ensures var h, got := t.At(j + 1, i).h, Got(t.calls[k], t.replies[k], i).value;
            h.Pending() ==> IsHandedOut(t, i, k) && got.1 == Last(h.rx)[..Min(got.0, |Last(h.rx)|)]
  {
    MaskStays(c, t, i, j, k);
    assert Next(c, t, k);
    assert i == 2 * (i / 2);
    if t.At(j + 1, i).h.Pending() {
      OutStepOf(c, t, i, k);
      HoldsAt(c, t, i, j + 1);
      WaitingIsRead(t.At(j + 1, i), t.At(k, i), t.At(k + 1, i), Got(t.calls[k], t.replies[k], i).value,
                    t.looks[k].first.ep[i], t.looks[k].second.ep[i]);
    }
  }

  /** A packet that waits in `e` and still in `m` is the one that a read there hands out. */
  lemma WaitingIsRead(e: Ep, m: Ep, e': Ep, got: (nat, Packet), first: Ep, second: Ep)
    requires OutStep(m, e', Some(got), first, second) && OutcomesMatch(e.h) && e.h.Pending() && m.h.done == e.h.done && e.h.rx <= m.h.rx
    ensures |e'.h.done| > |m.h.done| && got.1 == Last(e.h.rx)[..Min(got.0, |Last(e.h.rx)|)]
  {
    assert e'.h.rx[|e.h.done|] == m.h.rx[|e.h.done|] == e.h.rx[|e.h.done|];
  }

  /** No call after `j` and before `k` reads slot `i`. */
  predicate UnreadIn(t: Trace, i: nat, j: nat, k: nat)
    requires k <= |t.calls|
  {
    forall m :: j < m < k ==> !(t.calls[m].ReadCall? && Index(t.calls[m].addr) == i)
  }

  /** A packet that waits, with its completion up, when a poll reports: the report names its
    * endpoint, and the packet still waits. */
  lemma WaitingIsReported(c: Config, t: Trace, i: nat, j: nat)
    requires IsTrace(c, t) && j < |t.calls| && i < MAX_ENDPOINTS && IsDataOut(c, i)
    requires t.calls[j].PollCall? && IsReport(t.replies[j]) && t.At(j, i).h.Pending() && t.At(j, i).reg.complete
    ensures i / 2 in t.replies[j].poll.epOut && t.At(j + 1, i).h.Pending()
    ensures t.At(j + 1, i).h.rx == t.At(j, i).h.rx
  {
    HoldsAt(c, t, i, j);
    OutStepOf(c, t, i, j);
    assert Next(c, t, j) && i == 2 * (i / 2);
  }

  /** It goes on waiting, and the mask goes on naming it, however often the bus is polled. */
  lemma {:induction false} StaysWaiting(c: Config, t: Trace, i: nat, j: nat, n: nat)
    requires IsTrace(c, t) && j < n <= |t.calls| && i < MAX_ENDPOINTS && IsDataOut(c, i) && UnrescheduledIn(t, i, j, n)
    requires NoResetIn(t, j, n) && UnreadIn(t, i, j, n) && IsReport(t.replies[j]) && i / 2 in t.replies[j].poll.epOut
    requires t.At(j + 1, i).h.Pending()
    ensures i / 2 in t.states[n].epOut && t.At(n, i).reg.complete
    ensures t.At(n, i).h.rx == t.At(j + 1, i).h.rx && t.At(n, i).h.done == t.At(j + 1, i).h.done
  {
    assert Next(c, t, n - 1) && i == 2 * (i / 2);
    if n > j + 1 {
      StaysWaiting(c, t, i, j, n - 1);
      HoldsAt(c, t, i, n - 1);
      OutStepOf(c, t, i, n - 1);
      assert StepAt(c, i, t.calls[n - 1], t.replies[n - 1], t.looks[n - 1], t.states[n - 1], t.states[n]);
    }
  }

  /** A packet that waited when a poll reported its endpoint is handed out by the next read,
    * whatever else is called in between, short of a reset, a configuration and an unstall of
    * the endpoint. */
  lemma ReportedIsRead(c: Config, t: Trace, i: nat, j: nat, k: nat, cap: nat)
    requires IsTrace(c, t) && j < k < |t.calls| && i < MAX_ENDPOINTS && IsDataOut(c, i) && UnrescheduledIn(t, i, j, k)
    requires NoResetIn(t, j, k) && UnreadIn(t, i, j, k) && IsReport(t.replies[j]) && i / 2 in t.replies[j].poll.epOut
    requires t.At(j + 1, i).h.Pending() && t.calls[k] == ReadCall(AddressOf(i), cap)
    ensures var p := Last(t.At(j + 1, i).h.rx); t.replies[k] == ReadReply(Ok(p[..Min(cap, |p|)]))
    ensures IsHandedOut(t, i, k)
  {
    StaysWaiting(c, t, i, j, k);
    WaitingIsAccepted(c, t, i, k, cap);
    AcceptedIsWaiting(c, t, i, k);
  }

  lemma AcceptedIsWaiting(c: Config, t: Trace, i: nat, k: nat)
    requires IsTrace(c, t) && k < |t.calls| && i < MAX_ENDPOINTS && IsDataOut(c, i)
    requires Got(t.calls[k], t.replies[k], i).Some? && t.At(k, i).h.Pending()
    ensures var p, got := Last(t.At(k, i).h.rx), Got(t.calls[k], t.replies[k], i).value;
            IsHandedOut(t, i, k) && got.1 == p[..Min(got.0, |p|)]
  {
    HoldsAt(c, t, i, k);
    OutStepOf(c, t, i, k);
    WaitingIsRead(t.At(k, i), t.At(k, i), t.At(k + 1, i), Got(t.calls[k], t.replies[k], i).value,
                  t.looks[k].first.ep[i], t.looks[k].second.ep[i]);
  }

  lemma WaitingIsAccepted(c: Config, t: Trace, i: nat, k: nat, cap: nat)
    requires IsTrace(c, t) && k < |t.calls| && i < MAX_ENDPOINTS && IsDataOut(c, i)
    requires t.calls[k] == ReadCall(AddressOf(i), cap) && t.At(k, i).h.Pending() && i / 2 in t.states[k].epOut
    ensures t.replies[k].ReadReply? && t.replies[k].read.Ok?
  {
    HoldsAt(c, t, i, k);
    RestsAt(c, t, i, k);
    assert Next(c, t, k) && Index(AddressOf(i)) == i;
  }

  lemma RestsAt(c: Config, t: Trace, i: nat, k: nat)
    requires IsTrace(c, t) && k <= |t.calls| && i < MAX_ENDPOINTS
    ensures AtRest(t.At(k, i))
  {
    assert Sound(c, t, k);
  }

  /** The same without a word about what waits. Let call `m` match; then the next read after a
    * report that names the endpoint returns the packet of the report. */
  lemma NextReadAfterReport(c: Config, t: Trace, i: nat, m: nat, j: nat, k: nat, cap: nat)
    requires IsTrace(c, t) && m < j < k < |t.calls| && i < MAX_ENDPOINTS && IsDataOut(c, i) && UnrescheduledIn(t, i, m + 1, k)
    requires Matches(c, t, i, m) && IsReport(t.replies[j]) && i / 2 in t.replies[j].poll.epOut
    requires NoResetIn(t, j, k) && UnreadIn(t, i, j, k) && t.calls[k] == ReadCall(AddressOf(i), cap)
    ensures t.At(j + 1, i).h.Pending() && IsHandedOut(t, i, k)
    ensures var p := Last(t.At(j + 1, i).h.rx); t.replies[k] == ReadReply(Ok(p[..Min(cap, |p|)]))
  {
    MatchedUpTo(c, t, i, m, j + 1);
    assert Next(c, t, j) && i == 2 * (i / 2);
    ReportedIsRead(c, t, i, j, k, cap);
  }

  // ---------------------------------------------------------------- IN

  lemma InStepOf(c: Config, t: Trace, i: nat, k: nat)
    requires IsTrace(c, t) && k < |t.calls| && i < MAX_ENDPOINTS && IsDataIn(c, i)
    ensures InStep(t.At(k, i), t.At(k + 1, i), Took(t.calls[k], t.replies[k], i), Reports(t.replies[k], i),
                   t.calls[k].ResetCall?, t.looks[k].first.ep[i], t.looks[k].second.ep[i])
    ensures FatesMatch(t.At(k, i).h) && FatesMatch(t.At(k + 1, i).h)
  {
    assert Next(c, t, k) && StepAt(c, i, t.calls[k], t.replies[k], t.looks[k], t.states[k], t.states[k + 1]);
    HoldsAt(c, t, i, k);
    HoldsAt(c, t, i, k + 1);
  }

  /** The packets that the first `n` calls left with slot `i`. */
  function Accepted(t: Trace, i: nat, n: nat): seq<Packet>
    requires t.Sized() && n <= |t.calls|
  {
    if n == 0 then []
    else
      var took := Took(t.calls[n - 1], t.replies[n - 1], i);
      Accepted(t, i, n - 1) + (if took.Some? then [took.value] else [])
  }

  lemma {:induction false} QueueUpTo(c: Config, t: Trace, i: nat, n: nat)
    requires IsTrace(c, t) && n <= |t.calls| && i < MAX_ENDPOINTS && IsDataIn(c, i)
    ensures var h0, h := t.At(0, i).h, t.At(n, i).h;
            h0.fates <= h.fates && FatesMatch(h) && h.queued == h0.queued + Accepted(t, i, n)
  {
    if n == 0 {
      HoldsAt(c, t, i, 0);
    } else {
      QueueUpTo(c, t, i, n - 1);
      QueueNext(c, t, i, n - 1);
    }
  }

  lemma QueueNext(c: Config, t: Trace, i: nat, k: nat)
    requires IsTrace(c, t) && k < |t.calls| && i < MAX_ENDPOINTS && IsDataIn(c, i)
    ensures var m, h, took := t.At(k, i).h, t.At(k + 1, i).h, Took(t.calls[k], t.replies[k], i);
            m.fates <= h.fates && FatesMatch(h) && h.queued == m.queued + (if took.Some? then [took.value] else [])
  {
    InStepOf(c, t, i, k);
  }

  lemma {:induction false} FatesStay(c: Config, t: Trace, i: nat, k: nat, n: nat)
    requires IsTrace(c, t) && k <= n <= |t.calls| && i < MAX_ENDPOINTS && IsDataIn(c, i)
    ensures t.At(k, i).h.fates <= t.At(n, i).h.fates
  {
    if k < n {
      FatesStay(c, t, i, k, n - 1);
      QueueNext(c, t, i, n - 1);
    }
  }

  /** An IN data endpoint is a queue, from its users' point of view, whatever fails. The
    * packets that have met their fate are, in order, those that successful writes have
    * accepted, all but at most the last; what went onto the wire is byte for byte what was
    * accepted. Without a reset none of them was cut. */
  lemma QueueSession(c: Config, t: Trace, i: nat)
    requires IsTrace(c, t) && i < MAX_ENDPOINTS && IsDataIn(c, i)
    ensures var n, sent, h := |t.At(0, i).h.queued|, Accepted(t, i, |t.calls|), t.At(|t.calls|, i).h;
            && h.queued == t.At(0, i).h.queued + sent && |h.queued| - 1 <= |h.fates| <= |h.queued|
            && (forall k :: 0 <= k < |sent| && n + k < |h.fates| && h.fates[n + k].Sent? ==> h.fates[n + k].data == sent[k])
    ensures !t.At(0, i).reg.flush && NoResetIn(t, 0, |t.calls|) ==> NoneCut(t.At(0, i).h.fates, t.At(|t.calls|, i).h.fates)
  {
    QueueUpTo(c, t, i, |t.calls|);
    if !t.At(0, i).reg.flush && NoResetIn(t, 0, |t.calls|) {
      NoCut(c, t, i, 0, |t.calls|);
    }
    var n, sent, h := |t.At(0, i).h.queued|, Accepted(t, i, |t.calls|), t.At(|t.calls|, i).h;
    assert forall k :: 0 <= k < |sent| ==> h.queued[n + k] == sent[k];
  }

  /** When a write goes on behind a failed packet: the packet before the one that call `k`
    * accepts failed if and only if its failure fell between the two looks of that call. It
    * cannot fail there if ENDPTSTAT shows the endpoint free when the call begins; if it does
    * not, `Gap.WriteBehindFailure` shows that it can. */
  lemma FailedPredecessor(c: Config, t: Trace, i: nat, k: nat)
    requires IsTrace(c, t) && k < |t.calls| && i < MAX_ENDPOINTS && IsDataIn(c, i)
    requires Took(t.calls[k], t.replies[k], i).Some? && t.At(k, i).h.queued != []
    ensures var q, h := |t.At(k, i).h.queued| - 1, t.At(|t.calls|, i).h;
            && q < |h.fates| && (h.fates[q].Failed? <==> FailedBetween(c, t, i, k))
            && (t.At(k, i).Quiet() ==> !h.fates[q].Failed?)
  {
    InStepOf(c, t, i, k);
    FatesStay(c, t, i, k + 1, |t.calls|);
  }

  /** Every accepted packet that has a successor is the predecessor of one accepting call. */
  lemma {:induction false} SuccessorOf(c: Config, t: Trace, i: nat, q: nat, n: nat) returns (k: nat)
    requires IsTrace(c, t) && n <= |t.calls| && i < MAX_ENDPOINTS && IsDataIn(c, i)
    requires |t.At(0, i).h.queued| <= q < |t.At(n, i).h.queued| - 1
    ensures k < n && Took(t.calls[k], t.replies[k], i).Some? && |t.At(k, i).h.queued| == q + 1
  {
    InStepOf(c, t, i, n - 1);
    if |t.At(n - 1, i).h.queued| == q + 1 {
      k := n - 1;
    } else {
      k := SuccessorOf(c, t, i, q, n - 1);
    }
  }

  /** In the session, a call that accepts a packet behind another goes on behind a failure. */
  ghost predicate GoesOnBehind(c: Config, t: Trace, i: nat, k: nat)
    requires IsTrace(c, t) && k < |t.calls| && i < MAX_ENDPOINTS
  {
    Took(t.calls[k], t.replies[k], i).Some? && Accepted(t, i, k) != [] && FailedBetween(c, t, i, k)
  }

  /** Without a reset, and whatever the user does: all packets accepted, but the last, went
    * onto the wire as they were, if and only if no transfer failed between the two looks of a
    * call that accepts the packet behind it. */
  lemma UncutQueue(c: Config, t: Trace, i: nat)
    requires IsTrace(c, t) && i < MAX_ENDPOINTS && IsDataIn(c, i) && !t.At(0, i).reg.flush && NoResetIn(t, 0, |t.calls|)
    ensures var n, sent, h := |t.At(0, i).h.queued|, Accepted(t, i, |t.calls|), t.At(|t.calls|, i).h;
            && |h.queued| == n + |sent| && |h.queued| - 1 <= |h.fates|
            && ((forall q :: 0 <= q < |sent| - 1 ==> h.fates[n + q] == Sent(sent[q]))
                <==> (forall k :: 0 <= k < |t.calls| ==> !GoesOnBehind(c, t, i, k)))
  {
    QueueSession(c, t, i);
    var n, sent, h := |t.At(0, i).h.queued|, Accepted(t, i, |t.calls|), t.At(|t.calls|, i).h;
    forall k | 0 <= k < |t.calls| && GoesOnBehind(c, t, i, k)
      ensures exists q :: 0 <= q < |sent| - 1 && h.fates[n + q] != Sent(sent[q])
    {
      FailedBehind(c, t, i, k);
      assert h.fates[n + (|Accepted(t, i, k)| - 1)] != Sent(sent[|Accepted(t, i, k)| - 1]);
    }
    if forall k :: 0 <= k < |t.calls| ==> !GoesOnBehind(c, t, i, k) {
      forall q | 0 <= q < |sent| - 1 ensures h.fates[n + q] == Sent(sent[q]) {
        SentBehind(c, t, i, q);
      }
    }
  }

  /** The predecessor of a packet that was accepted behind a failure failed. */
  lemma FailedBehind(c: Config, t: Trace, i: nat, k: nat)
    requires IsTrace(c, t) && k < |t.calls| && i < MAX_ENDPOINTS && IsDataIn(c, i) && GoesOnBehind(c, t, i, k)
    ensures var n, m, h := |t.At(0, i).h.queued|, |Accepted(t, i, k)|, t.At(|t.calls|, i).h;
            && m < |Accepted(t, i, |t.calls|)| && n + m - 1 < |h.fates| && h.fates[n + m - 1].Failed?
  {
    QueueUpTo(c, t, i, k);
    FailedPredecessor(c, t, i, k);
    AcceptedGrows(t, i, k + 1, |t.calls|);
  }

  lemma {:induction false} AcceptedGrows(t: Trace, i: nat, k: nat, n: nat)
    requires t.Sized() && k <= n <= |t.calls|
    ensures |Accepted(t, i, k)| <= |Accepted(t, i, n)|
  {
    if k < n {
      AcceptedGrows(t, i, k, n - 1);
    }
  }

  lemma SentBehind(c: Config, t: Trace, i: nat, q: nat)
    requires IsTrace(c, t) && i < MAX_ENDPOINTS && IsDataIn(c, i) && !t.At(0, i).reg.flush && NoResetIn(t, 0, |t.calls|)
    requires q < |Accepted(t, i, |t.calls|)| - 1 && forall k :: 0 <= k < |t.calls| ==> !GoesOnBehind(c, t, i, k)
    ensures var n, h := |t.At(0, i).h.queued|, t.At(|t.calls|, i).h;
            n + q < |h.fates| && h.fates[n + q] == Sent(Accepted(t, i, |t.calls|)[q])
  {
    var n, h := |t.At(0, i).h.queued|, t.At(|t.calls|, i).h;
    QueueSession(c, t, i);
    var k := SuccessorOf(c, t, i, n + q, |t.calls|);
    QueueUpTo(c, t, i, k);
    FailedPredecessor(c, t, i, k);
    assert !GoesOnBehind(c, t, i, k);
    NoCut(c, t, i, 0, |t.calls|);
    HoldsAt(c, t, i, 0);
  }

  // ---------------------------------------------------------------- reports

  /** How many of the first `n` calls reported a completion of slot `i`. */
  function ReportCount(t: Trace, i: nat, n: nat): nat
    requires t.Sized() && n <= |t.calls|
  {
    if n == 0 then 0 else ReportCount(t, i, n - 1) + (if Reports(t.replies[n - 1], i) then 1 else 0)
  }

  /** After the first `n` calls a packet of slot `i` is still to be reported. */
  predicate Outstanding(t: Trace, i: nat, n: nat)
    requires t.Sized() && n <= |t.calls|
  {
    if n == 0 then false
    else if Took(t.calls[n - 1], t.replies[n - 1], i).Some? then true
    else Outstanding(t, i, n - 1) && !Reports(t.replies[n - 1], i)
  }

  /** The user writes again only after the completion of the last packet was reported. */
  ghost predicate Disciplined(t: Trace, i: nat)
    requires t.Sized()
  {
    forall n :: 0 <= n < |t.calls| && Took(t.calls[n], t.replies[n], i).Some? ==> !Outstanding(t, i, n)
  }

  lemma {:induction false} ReportsUpTo(c: Config, t: Trace, i: nat, n: nat)
    requires IsTrace(c, t) && n <= |t.calls| && i < MAX_ENDPOINTS && IsDataIn(c, i) && Disciplined(t, i) && Spent(t.At(0, i))
    ensures Tidy(t.At(n, i)) && t.At(n, i).h.merged == t.At(0, i).h.merged
    ensures !Outstanding(t, i, n) ==> Spent(t.At(n, i))
  {
    if n > 0 {
      ReportsUpTo(c, t, i, n - 1);
      ReportsNext(c, t, i, n - 1);
    }
  }

  lemma ReportsNext(c: Config, t: Trace, i: nat, k: nat)
    requires IsTrace(c, t) && k < |t.calls| && i < MAX_ENDPOINTS && IsDataIn(c, i) && Disciplined(t, i) && Tidy(t.At(k, i))
    requires !Outstanding(t, i, k) ==> Spent(t.At(k, i))
    ensures Tidy(t.At(k + 1, i)) && t.At(k + 1, i).h.merged == t.At(k, i).h.merged
    ensures !Outstanding(t, i, k + 1) ==> Spent(t.At(k + 1, i))
  {
    InStepOf(c, t, i, k);
  }

  lemma {:induction false} CountsUpTo(c: Config, t: Trace, i: nat, n: nat)
    requires IsTrace(c, t) && n <= |t.calls| && i < MAX_ENDPOINTS && IsDataIn(c, i)
    ensures var h0, h := t.At(0, i).h, t.At(n, i).h;
            h.reported == h0.reported + ReportCount(t, i, n) && h0.dropped <= h.dropped && h0.merged <= h.merged
  {
    if n > 0 {
      CountsUpTo(c, t, i, n - 1);
      CountsNext(c, t, i, n - 1);
    }
  }

  lemma CountsNext(c: Config, t: Trace, i: nat, k: nat)
    requires IsTrace(c, t) && k < |t.calls| && i < MAX_ENDPOINTS && IsDataIn(c, i)
    ensures var m, h := t.At(k, i).h, t.At(k + 1, i).h;
            && h.reported == m.reported + (if Reports(t.replies[k], i) then 1 else 0)
            && m.dropped <= h.dropped && m.merged <= h.merged && (!t.calls[k].ResetCall? ==> h.dropped == m.dropped)
  {
    InStepOf(c, t, i, k);
  }

  /** Every IN completion is accounted for once, in any session: it is reported by one poll, or
    * taken down by a reset, or it landed while an earlier one was still up, or its own bit is
    * up, to be reported by the next poll that looks. */
  lemma CompletionsSession(c: Config, t: Trace, i: nat)
    requires IsTrace(c, t) && i < MAX_ENDPOINTS && IsDataIn(c, i)
    ensures var e0, e := t.At(0, i), t.At(|t.calls|, i);
            && e0.h.dropped <= e.h.dropped && e0.h.merged <= e.h.merged
            && e.h.completions - e0.h.completions + (if e0.reg.complete then 1 else 0)
               == ReportCount(t, i, |t.calls|) + (e.h.dropped - e0.h.dropped) + (e.h.merged - e0.h.merged)
                  + (if e.reg.complete then 1 else 0)
    ensures (forall call <- t.calls :: !call.ResetCall?) ==> t.At(|t.calls|, i).h.dropped == t.At(0, i).h.dropped
  {
    CountsUpTo(c, t, i, |t.calls|);
    NothingDropped(c, t, i, |t.calls|);
    HoldsAt(c, t, i, 0);
    HoldsAt(c, t, i, |t.calls|);
  }

  /** Every IN completion is reported by exactly one poll, whatever the moment at which it
    * lands, if the user waits for each report before writing again, and starts on an endpoint
    * that the driver has and whose bit is down: the completions of a session are as many as
    * its reports, the completions that a reset has taken down, and one more while its bit is
    * up. */
  lemma ReportsSession(c: Config, t: Trace, i: nat)
    requires IsTrace(c, t) && i < MAX_ENDPOINTS && IsDataIn(c, i) && Disciplined(t, i) && Spent(t.At(0, i))
    ensures var h0, e := t.At(0, i).h, t.At(|t.calls|, i);
            && h0.dropped <= e.h.dropped
            && e.h.completions == h0.completions + ReportCount(t, i, |t.calls|) + (e.h.dropped - h0.dropped)
                                  + (if e.reg.complete then 1 else 0)
    ensures (forall call <- t.calls :: !call.ResetCall?) ==> t.At(|t.calls|, i).h.dropped == t.At(0, i).h.dropped
  {
    CompletionsSession(c, t, i);
    ReportsUpTo(c, t, i, |t.calls|);
  }

  lemma {:induction false} NothingDropped(c: Config, t: Trace, i: nat, n: nat)
    requires IsTrace(c, t) && n <= |t.calls| && i < MAX_ENDPOINTS && IsDataIn(c, i)
    ensures (forall call <- t.calls :: !call.ResetCall?) ==> t.At(n, i).h.dropped == t.At(0, i).h.dropped
  {
    if n > 0 {
      NothingDropped(c, t, i, n - 1);
      CountsNext(c, t, i, n - 1);
      assert t.calls[n - 1] in t.calls;
    }
  }

  /** The packets accepted since `n` up to the last but `slack` were sent. */
  ghost predicate SentSince(h: History, n: nat, slack: nat) {
    && |h.queued| <= |h.fates| + slack
    && forall k :: n <= k < |h.queued| - slack ==> h.fates[k].Sent?
  }

  lemma {:induction false} SentUpTo(c: Config, t: Trace, i: nat, n: nat)
    requires IsTrace(c, t) && n <= |t.calls| && i < MAX_ENDPOINTS && IsDataIn(c, i) && Disciplined(t, i) && Spent(t.At(0, i))
    ensures SentSince(t.At(n, i).h, |t.At(0, i).h.queued|, if Outstanding(t, i, n) then 1 else 0)
  {
    if n == 0 {
      HoldsAt(c, t, i, 0);
    } else {
      SentUpTo(c, t, i, n - 1);
      SentNext(c, t, i, n - 1);
    }
  }

  lemma SentNext(c: Config, t: Trace, i: nat, k: nat)
    requires IsTrace(c, t) && k < |t.calls| && i < MAX_ENDPOINTS && IsDataIn(c, i) && Disciplined(t, i) && Spent(t.At(0, i))
    requires SentSince(t.At(k, i).h, |t.At(0, i).h.queued|, if Outstanding(t, i, k) then 1 else 0)
    ensures SentSince(t.At(k + 1, i).h, |t.At(0, i).h.queued|, if Outstanding(t, i, k + 1) then 1 else 0)
  {
    ReportsUpTo(c, t, i, k);
    ReportsUpTo(c, t, i, k + 1);
    InStepOf(c, t, i, k);
    HoldsAt(c, t, i, k + 1);
    SentByStep(t.At(k, i).h, t.At(k + 1, i).h, |t.At(0, i).h.queued|, Outstanding(t, i, k), Outstanding(t, i, k + 1));
  }

  lemma SentByStep(m: History, h: History, n: nat, before: bool, after: bool)
    requires SentSince(m, n, if before then 1 else 0) && FatesMatch(m) && FatesMatch(h) && m.fates <= h.fates
    requires |h.queued| == |m.queued| + (if !before && after then 1 else 0)
    requires !after ==> |h.queued| == |h.fates|
    requires before && !after ==> LastSent(h)
    ensures SentSince(h, n, if after then 1 else 0)
  {
    assert forall k :: 0 <= k < |m.fates| ==> h.fates[k] == m.fates[k];
  }

  /** A user that waits for each report loses no packet but the last: whatever fails or is
    * flushed, all packets that it has left with the endpoint, but at most the last, went onto
    * the wire as they were. */
  lemma DisciplinedQueue(c: Config, t: Trace, i: nat)
    requires IsTrace(c, t) && i < MAX_ENDPOINTS && IsDataIn(c, i) && Disciplined(t, i) && Spent(t.At(0, i))
    ensures var n, sent, h := |t.At(0, i).h.queued|, Accepted(t, i, |t.calls|), t.At(|t.calls|, i).h;
            && |h.queued| == n + |sent| && |h.queued| - 1 <= |h.fates|
            && (forall k :: 0 <= k < |sent| - 1 ==> h.fates[n + k] == Sent(sent[k]))
  {
    QueueSession(c, t, i);
    SentUpTo(c, t, i, |t.calls|);
    var n, sent, h := |t.At(0, i).h.queued|, Accepted(t, i, |t.calls|), t.At(|t.calls|, i).h;
    forall k | 0 <= k < |sent| - 1 ensures h.fates[n + k] == Sent(sent[k]) {
      assert h.fates[n + k].Sent? && h.fates[n + k].data == sent[k];
    }
  }

  lemma {:induction false} NoErrorUpTo(c: Config, t: Trace, i: nat, n: nat)
    requires IsTrace(c, t) && n <= |t.calls| && i < MAX_ENDPOINTS && IsDataIn(c, i) && Disciplined(t, i) && Spent(t.At(0, i))
    requires !t.At(0, i).td.status.IsError()
    ensures !Outstanding(t, i, n) ==> Spent(t.At(n, i)) && !t.At(n, i).td.status.IsError()
  {
    if n > 0 {
      NoErrorUpTo(c, t, i, n - 1);
      ReportsUpTo(c, t, i, n - 1);
      ReportsUpTo(c, t, i, n);
      NoErrorNext(c, t, i, n - 1);
    }
  }

  lemma NoErrorNext(c: Config, t: Trace, i: nat, k: nat)
    requires IsTrace(c, t) && k < |t.calls| && i < MAX_ENDPOINTS && IsDataIn(c, i) && Tidy(t.At(k, i))
    requires !Outstanding(t, i, k) ==> Spent(t.At(k, i)) && !t.At(k, i).td.status.IsError()
    requires !Outstanding(t, i, k + 1) ==> Spent(t.At(k + 1, i))
    ensures !Outstanding(t, i, k + 1) ==> !t.At(k + 1, i).td.status.IsError()
  {
    InStepOf(c, t, i, k);
    ErrorIsLast(c, t, i, k);
    ErrorIsLast(c, t, i, k + 1);
  }

  /** Between calls the descriptor of a free IN endpoint shows an error if and only if the last
    * packet failed. */
  lemma ErrorIsLast(c: Config, t: Trace, i: nat, n: nat)
    requires IsTrace(c, t) && n <= |t.calls| && i < MAX_ENDPOINTS && IsDataIn(c, i)
    ensures t.At(n, i).Quiet() ==> (t.At(n, i).td.status.IsError() <==> LastFailed(t.At(n, i).h))
  {
    HoldsAt(c, t, i, n);
    RestsAt(c, t, i, n);
  }

  /** A user that waits for each report is never refused: every write accepts as much as one
    * packet and the buffer hold. */
  lemma DisciplinedIsAccepted(c: Config, t: Trace, i: nat, k: nat, data: Packet)
    requires IsTrace(c, t) && k < |t.calls| && i < MAX_ENDPOINTS && IsDataIn(c, i) && Disciplined(t, i) && Spent(t.At(0, i))
    requires !t.At(0, i).td.status.IsError() && !Outstanding(t, i, k) && t.calls[k] == WriteCall(AddressOf(i), data)
    ensures t.replies[k] == WriteReply(Ok(Min(|data|, Min(1024, BufferOf(c, i).len))))
  {
    NoErrorUpTo(c, t, i, k);
    assert Next(c, t, k) && Index(AddressOf(i)) == i;
  }

  // ---------------------------------------------------------------- errors

  /** There is no way back for an IN endpoint whose descriptor shows an error, that of
    * endpoint zero included: it refuses every later write, also after reset and
    * configuration. */
  lemma {:induction false} StuckIn(c: Config, t: Trace, i: nat, n: nat)
    requires IsTrace(c, t) && n <= |t.calls| && i < MAX_ENDPOINTS && !IsOut(i) && Allocated(c, i) && Stuck(t.At(0, i))
    ensures Stuck(t.At(n, i)) && forall k :: 0 <= k < n ==> Took(t.calls[k], t.replies[k], i) == None
  {
    if n > 0 {
      StuckIn(c, t, i, n - 1);
      assert Next(c, t, n - 1) && StepAt(c, i, t.calls[n - 1], t.replies[n - 1], t.looks[n - 1], t.states[n - 1], t.states[n]);
    }
  }

  /** An OUT data endpoint in that state refuses every read until it is unstalled or
    * configured, which schedules it again. */
  lemma {:induction false} StuckOut(c: Config, t: Trace, i: nat, n: nat)
    requires IsTrace(c, t) && n <= |t.calls| && i < MAX_ENDPOINTS && IsDataOut(c, i) && Stuck(t.At(0, i)) && NeverRescheduled(t, i)
    ensures Stuck(t.At(n, i)) && forall k :: 0 <= k < n ==> Got(t.calls[k], t.replies[k], i) == None
  {
    if n > 0 {
      StuckOut(c, t, i, n - 1);
      assert t.calls[n - 1] in t.calls;
      OutStepOf(c, t, i, n - 1);
    }
  }

  // ---------------------------------------------------------------- reset and configuration

  /** From every state, a reset and a configuration lead to the same control bits, to armed
    * mailboxes on exactly the OUT data endpoints, and to these writes in this order. */
  method ResetThenConfigure(d: Driver) returns (ghost reset: St, ghost first: St, ghost second: St)
    requires d.Valid()
    modifies d.usb`s, d.usb`run, d.usb`script
    ensures d.Valid() && AllQuiet(reset) && AllReset(old(d.usb.s), reset) && ConfiguredBelow(d.usb.c, MAX_ENDPOINTS, reset, false)
    ensures ConfiguredAll(d.usb.c, reset, d.usb.s)
    ensures |first.ep| == |second.ep| == MAX_ENDPOINTS && CompleteSlots(old(d.usb.s)) <= CompleteSlots(first)
    ensures Ops(d.usb.run) == Ops(old(d.usb.run)) + [ResetComplete(CompleteSlots(first)), ResetNak(NakSlots(second)), FlushAll]
                              + ControlOps(d.usb.c, MAX_ENDPOINTS, false)
                              + ControlOps(d.usb.c, MAX_ENDPOINTS, true) + PrimeOps(d.usb.c, MAX_ENDPOINTS)
  {
    first, second := d.BusReset();
    reset := d.usb.s;
    d.OnConfigured();
  }
}
