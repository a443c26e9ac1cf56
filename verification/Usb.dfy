/** The peripheral as the driver finds it: one access at a time, with the controller running
  * in between. */
module Usb {
  import opened Types
  import opened Memory
  import opened Device
  import opened Invariant
  import opened Agreement
  import opened ControllerSteps
  import opened DriverSteps
  import opened Runs

  /** No endpoint is priming, as between any two calls of the driver. */
  ghost predicate NonePriming(s: St) {
    |s.ep| == MAX_ENDPOINTS && forall i :: 0 <= i < MAX_ENDPOINTS ==> !s.ep[i].reg.prime
  }

  ghost predicate NoneFlushing(s: St) {
    |s.ep| == MAX_ENDPOINTS && forall i :: 0 <= i < MAX_ENDPOINTS ==> !s.ep[i].reg.flush
  }

  /** The words of ENDPTPRIME and ENDPTFLUSH, as sets of slots. */
  function Priming(s: St): set<nat>
    requires |s.ep| == MAX_ENDPOINTS
  {
    set i | 0 <= i < MAX_ENDPOINTS && s.ep[i].reg.prime
  }

  function Flushing(s: St): set<nat>
    requires |s.ep| == MAX_ENDPOINTS
  {
    set i | 0 <= i < MAX_ENDPOINTS && s.ep[i].reg.flush
  }

  lemma NoBits(s: St)
    requires |s.ep| == MAX_ENDPOINTS
    ensures Priming(s) == {} <==> NonePriming(s)
    ensures Flushing(s) == {} <==> NoneFlushing(s)
  {
    assert forall i :: 0 <= i < MAX_ENDPOINTS && s.ep[i].reg.prime ==> i in Priming(s);
    assert forall i :: 0 <= i < MAX_ENDPOINTS && s.ep[i].reg.flush ==> i in Flushing(s);
  }

  /** The controller's behaviour is a script, chosen before the run and unknown to the
    * driver: the steps it takes before each of the driver's accesses. Contracts hold for
    * every script. Once the script is used up the controller finishes what it was asked to
    * do, so that a driver that waits for it makes progress; nothing else is assumed of it. */
  class Peripheral {
    const c: Config
    var s: St
    var script: seq<seq<Act>>
    ghost const mem0: Mem
    ghost var run: seq<Event>

    ghost predicate Valid()
      reads this
    {
      GoodConfig(c) && Inv(c, s) && Reached(c, mem0, run, s)
    }

    constructor (c: Config, mem: Mem, script: seq<seq<Act>>)
      requires GoodConfig(c)
      ensures Valid() && this.c == c && s == Initial(c, mem) && run == []
    {
      this.c, this.s, this.script := c, Initial(c, mem), script;
      this.mem0, this.run := mem, [];
      InitialInv(c, mem);
      ReachedInitially(c, mem);
    }

    method Act(a: Act)
      requires Valid()
      modifies this`s, this`run
      ensures Valid() && s == DoAct(c, old(s), a) && Rely(c, old(s), s) && Ops(run) == Ops(old(run)) && Looked(run) == Looked(old(run))
    {
      ActKeeps(c, s, a);
      ReachedNext(c, mem0, run, s, Ctl(a));
      s, run := DoAct(c, s, a), run + [Ctl(a)];
    }

    method Batch(acts: seq<Act>)
      requires Valid()
      modifies this`s, this`run
      ensures Valid() && Rely(c, old(s), s) && Ops(run) == Ops(old(run)) && Looked(run) == Looked(old(run))
    {
      RelyReflexive(c, s);
      for k := 0 to |acts|
        invariant Valid() && Rely(c, old(s), s) && Ops(run) == Ops(old(run)) && Looked(run) == Looked(old(run))
      {
        ghost var mid := s;
        Act(acts[k]);
        RelyTransitive(c, old(s), mid, s);
      }
    }

    method FinishPrime(i: nat)
      requires Valid() && i < MAX_ENDPOINTS
      modifies this`s, this`run
      ensures Valid() && Rely(c, old(s), s) && Ops(run) == Ops(old(run))
      ensures Looked(run) == Looked(old(run)) && !s.ep[i].reg.prime && s.sutw == old(s.sutw)
    {
      Act(AcceptPrime(i));
    }

    method FinishFlushing(i: nat)
      requires Valid() && i < MAX_ENDPOINTS
      modifies this`s, this`run
      ensures Valid() && Rely(c, old(s), s) && Ops(run) == Ops(old(run))
      ensures Looked(run) == Looked(old(run)) && !s.ep[i].reg.flush && s.sutw == old(s.sutw)
    {
      Act(FinishFlush(i));
    }

    method SettleSlot(i: nat)
      requires Valid() && i < MAX_ENDPOINTS
      modifies this`s, this`run
      ensures Valid() && Rely(c, old(s), s) && Ops(run) == Ops(old(run)) && Looked(run) == Looked(old(run))
      ensures !s.ep[i].reg.prime && !s.ep[i].reg.flush && s.sutw == old(s.sutw)
    {
      FinishPrime(i);
      ghost var mid := s;
      FinishFlushing(i);
      assert SlotRely(c, i, mid, s);
      RelyTransitive(c, old(s), mid, s);
    }

    /** Primes are accepted and flushes finished. */
    method Settle()
      requires Valid()
      modifies this`s, this`run
      ensures Valid() && Rely(c, old(s), s) && Ops(run) == Ops(old(run)) && Looked(run) == Looked(old(run))
      ensures NonePriming(s) && NoneFlushing(s) && s.sutw == old(s.sutw)
    {
      RelyReflexive(c, s);
      for i := 0 to MAX_ENDPOINTS
        invariant Valid() && Rely(c, old(s), s) && Ops(run) == Ops(old(run)) && Looked(run) == Looked(old(run))
        invariant s.sutw == old(s.sutw) && forall j :: 0 <= j < i ==> !s.ep[j].reg.prime && !s.ep[j].reg.flush
      {
        ghost var mid := s;
        SettleSlot(i);
        forall j | 0 <= j < i ensures !s.ep[j].reg.prime && !s.ep[j].reg.flush {
          assert SlotRely(c, j, mid, s);
        }
        RelyTransitive(c, old(s), mid, s);
      }
    }

    /** The controller runs. */
    method Tick()
      requires Valid()
      modifies this`s, this`run, this`script
      ensures Valid() && Rely(c, old(s), s) && Ops(run) == Ops(old(run)) && Looked(run) == Looked(old(run))
      ensures old(script) == [] ==> script == [] && NonePriming(s) && NoneFlushing(s) && s.sutw == old(s.sutw)
      ensures old(script) != [] ==> |script| < |old(script)|
    {
      if script == [] {
        Settle();
      } else {
        var acts := script[0];
        script := script[1..];
        Batch(acts);
      }
    }

    /** One read: the driver looks at one register, or one word of memory, of the state that
      * it finds. */
    method Sample(at: Register) returns (now: St)
      requires Valid()
      modifies this`s, this`run, this`script
      ensures Valid() && Rely(c, old(s), s) && Ops(run) == Ops(old(run)) && Looked(run) == Looked(old(run)) + [at] && now == s
      ensures old(script) == [] ==> script == [] && NonePriming(s) && NoneFlushing(s) && s.sutw == old(s.sutw)
      ensures old(script) != [] ==> |script| < |old(script)|
    {
      Tick();
      ReachedNext(c, mem0, run, s, Look(at));
      run := run + [Look(at)];
      now := s;
    }

    /** One write; `mid` is the state that it finds. */
    method Do(op: Op) returns (ghost mid: St)
      requires Valid() && Legal(c, s, op)
      modifies this`s, this`run, this`script
      ensures Valid() && Rely(c, old(s), mid) && Inv(c, mid) && Legal(c, mid, op) && s == DoOp(c, mid, op)
      ensures Ops(run) == Ops(old(run)) + [op] && Looked(run) == Looked(old(run))
      ensures old(script) == [] ==> script == []
      ensures old(script) != [] ==> |script| < |old(script)|
    {
      ghost var before := s;
      Tick();
      mid := s;
      LegalIsStable(c, before, s, op);
      OpKeeps(c, s, op);
      ReachedNext(c, mem0, run, s, Drv(op));
      s, run := DoOp(c, s, op), run + [Drv(op)];
    }

    /** The spin on ENDPTPRIME: no endpoint is priming when it ends, and it ends. */
    method AwaitPrimed()
      requires Valid()
      modifies this`s, this`run, this`script
      ensures Valid() && Rely(c, old(s), s) && Ops(run) == Ops(old(run)) && NonePriming(s)
    {
      var now := Sample(EndptPrime);
      while Priming(now) != {}
        invariant Valid() && Rely(c, old(s), s) && Ops(run) == Ops(old(run)) && now == s
        decreases |script|, |Priming(now)|
      {
        ghost var mid := s;
        now := Sample(EndptPrime);
        RelyTransitive(c, old(s), mid, s);
        NoBits(now);
      }
      NoBits(now);
    }

    /** The spin on ENDPTFLUSH. */
    method AwaitFlushed()
      requires Valid()
      modifies this`s, this`run, this`script
      ensures Valid() && Rely(c, old(s), s) && Ops(run) == Ops(old(run)) && NoneFlushing(s)
    {
      var now := Sample(EndptFlush);
      while Flushing(now) != {}
        invariant Valid() && Rely(c, old(s), s) && Ops(run) == Ops(old(run)) && now == s
        decreases |script|, |Flushing(now)|
      {
        ghost var mid := s;
        now := Sample(EndptFlush);
        RelyTransitive(c, old(s), mid, s);
        NoBits(now);
      }
      NoBits(now);
    }
  }
}
