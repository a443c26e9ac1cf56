/** Exactly when the writes of a schedule, and of a configuration, keep to the agreement. */
module Ownership {
  import opened Types
  import opened TransferDescriptor
  import opened Memory
  import opened Device
  import opened EndpointDriver
  import opened CallEffects

  /** A list of accesses, one after the other, while the controller stands still. */
  ghost function Perform(c: Config, s: St, ops: seq<Op>): (r: Option<St>)
    requires GoodConfig(c) && |s.ep| == MAX_ENDPOINTS
    ensures r.Some? ==> |r.value.ep| == MAX_ENDPOINTS
  {
    if ops == [] then Some(s)
    else
      match Perform(c, s, ops[..|ops| - 1])
      case None => None
      case Some(m) => var op := ops[|ops| - 1]; if Legal(c, m, op) then Some(DoOp(c, m, op)) else None
  }

  lemma PerformOne(c: Config, s: St, ops: seq<Op>, op: Op)
    requires GoodConfig(c) && |s.ep| == MAX_ENDPOINTS
    ensures var m := Perform(c, s, ops);
            Perform(c, s, ops + [op]) == if m.Some? && Legal(c, m.value, op) then Some(DoOp(c, m.value, op)) else None
  {
    assert (ops + [op])[..|ops|] == ops;
  }

  lemma {:induction false} PerformBoth(c: Config, s: St, a: seq<Op>, b: seq<Op>)
    requires GoodConfig(c) && |s.ep| == MAX_ENDPOINTS
    ensures var m := Perform(c, s, a); Perform(c, s, a + b) == if m.Some? then Perform(c, m.value, b) else None
  {
    if b == [] {
      assert a + b == a;
    } else {
      var last := |b| - 1;
      PerformBoth(c, s, a, b[..last]);
      assert a + b == (a + b[..last]) + [b[last]];
      PerformOne(c, s, a + b[..last], b[last]);
    }
  }

  /** The endpoint while its schedule is being written. */
  function WrittenEp(c: Config, i: nat, e: Ep, mem: Mem, size: nat, n: nat): Ep
    requires GoodConfig(c) && Allocated(c, i) && n <= 7
    decreases n
  {
    if n == 0 then e
    else DoSlotOp(c, i, WrittenEp(c, i, e, mem, size, n - 1), mem, ScheduleOps(i, size)[n - 1])
  }

  ghost predicate WrittenSoFar(c: Config, i: nat, e0: Ep, e: Ep, size: nat, n: nat)
    requires GoodConfig(c) && Allocated(c, i)
  {
    && e.reg == e0.reg && e.h == (if n == 0 then e0.h else BeginEdit(i, e0.h)) && (n >= 1 ==> e.td.next == 1)
    && (n >= 2 ==> e.td.total == e.td.last == size && e.td.pages == PageList(BufferOf(c, i).ptr, size))
    && (n >= 3 ==> e.td.ioc) && (n >= 4 ==> e.td.status == ACTIVE)
    && (n >= 5 ==> e.qh.overlay.next == TdAddress(c, i))
  }

  lemma {:induction false} WrittenFields(c: Config, i: nat, e: Ep, mem: Mem, size: nat, n: nat)
    requires GoodConfig(c) && i < MAX_ENDPOINTS && Allocated(c, i) && n <= 6 && size <= MaxLen(c, i) && !e.h.editing
    ensures WrittenSoFar(c, i, e, WrittenEp(c, i, e, mem, size, n), size, n)
  {
    if n > 0 {
      WrittenFields(c, i, e, mem, size, n - 1);
      FieldWritten(c, i, e, WrittenEp(c, i, e, mem, size, n - 1), mem, size, n - 1);
    }
  }

  lemma FieldWritten(c: Config, i: nat, e0: Ep, e: Ep, mem: Mem, size: nat, n: nat)
    requires GoodConfig(c) && i < MAX_ENDPOINTS && Allocated(c, i) && n < 6 && size <= MaxLen(c, i)
    requires WrittenSoFar(c, i, e0, e, size, n)
    ensures WrittenSoFar(c, i, e0, DoSlotOp(c, i, e, mem, ScheduleOps(i, size)[n]), size, n + 1)
  {
    TdSlotOfAddress(c, i);
  }

  /** The endpoint when its schedule has been written. */
  lemma WrittenWhole(c: Config, i: nat, e: Ep, mem: Mem, size: nat)
    requires GoodConfig(c) && i < MAX_ENDPOINTS && Allocated(c, i) && size <= MaxLen(c, i) && !e.h.editing
    ensures var w := WrittenEp(c, i, e, mem, size, 7);
            && w.reg == e.reg.Prime() && w.h == ScheduledHistory(c, i, e, mem, size)
            && w.td.total == w.td.last == size && w.qh.overlay.next == TdAddress(c, i)
  {
    WrittenFields(c, i, e, mem, size, 6);
  }

  /** The state while the schedule is being written. */
  function WrittenSt(c: Config, s: St, i: nat, size: nat, n: nat): St
    requires GoodConfig(c) && |s.ep| == MAX_ENDPOINTS && i < MAX_ENDPOINTS && Allocated(c, i) && n <= 7
  {
    s.(ep := s.ep[i := WrittenEp(c, i, s.ep[i], s.mem, size, n)])
  }

  lemma WrittenNext(c: Config, s: St, i: nat, size: nat, n: nat)
    requires GoodConfig(c) && |s.ep| == MAX_ENDPOINTS && i < MAX_ENDPOINTS && Allocated(c, i) && n < 7
    requires size <= MaxLen(c, i) && s.ep[i].Quiet() && !s.ep[i].h.editing
    ensures var op := ScheduleOps(i, size)[n];
            && Legal(c, WrittenSt(c, s, i, size, n), op)
            && DoOp(c, WrittenSt(c, s, i, size, n), op) == WrittenSt(c, s, i, size, n + 1)
  {
    WrittenFields(c, i, s.ep[i], s.mem, size, n);
    var e := WrittenEp(c, i, s.ep[i], s.mem, size, n);
    var op := ScheduleOps(i, size)[n];
    assert s.ep[i := e][i := DoSlotOp(c, i, e, s.mem, op)] == s.ep[i := DoSlotOp(c, i, e, s.mem, op)];
  }

  lemma {:induction false} ScheduleUpTo(c: Config, s: St, i: nat, size: nat, n: nat)
    requires GoodConfig(c) && |s.ep| == MAX_ENDPOINTS && i < MAX_ENDPOINTS && Allocated(c, i) && n <= 7
    requires size <= MaxLen(c, i) && s.ep[i].Quiet() && !s.ep[i].h.editing
    ensures Perform(c, s, ScheduleOps(i, size)[..n]) == Some(WrittenSt(c, s, i, size, n))
  {
    var ops := ScheduleOps(i, size);
    if n == 0 {
      assert ops[..0] == [] && s.ep[i := s.ep[i]] == s.ep;
    } else {
      ScheduleUpTo(c, s, i, size, n - 1);
      assert ops[..n] == ops[..n - 1] + [ops[n - 1]];
      PerformOne(c, s, ops[..n - 1], ops[n - 1]);
      WrittenNext(c, s, i, size, n - 1);
    }
  }

  /** `schedule_transfer` keeps the agreement if and only if the endpoint is the driver's. */
  lemma ScheduleIsLegal(c: Config, s: St, i: nat, size: nat)
    requires GoodConfig(c) && |s.ep| == MAX_ENDPOINTS && i < MAX_ENDPOINTS && Allocated(c, i) && size <= MaxLen(c, i)
    ensures Perform(c, s, ScheduleOps(i, size)).Some? <==> s.ep[i].Quiet() && !s.ep[i].h.editing
    ensures Perform(c, s, ScheduleOps(i, size)).Some? ==>
              Perform(c, s, ScheduleOps(i, size)).value == WrittenSt(c, s, i, size, 7)
  {
    var ops := ScheduleOps(i, size);
    assert ops[..7] == ops;
    if s.ep[i].Quiet() && !s.ep[i].h.editing {
      ScheduleUpTo(c, s, i, size, 7);
    } else {
      assert ops == ops[..1] + ops[1..];
      PerformOne(c, s, [], ops[0]);
      PerformBoth(c, s, ops[..1], ops[1..]);
    }
  }

  ghost predicate DataOutMine(c: Config, k: nat, s: St)
    requires |s.ep| == MAX_ENDPOINTS
  {
    forall i :: 0 <= i < k && i < MAX_ENDPOINTS && IsDataOut(c, i) ==> s.ep[i].Quiet() && !s.ep[i].h.editing
  }

  /** `prime_endpoints`, which does not look at ENDPTSTAT, keeps the agreement if and only if
    * the controller has no OUT data endpoint. With one primed it rewrites the descriptor of a
    * transfer that is under way. */
  lemma {:induction false} PrimingIsLegal(c: Config, s: St, k: nat)
    requires GoodConfig(c) && |s.ep| == MAX_ENDPOINTS && k <= MAX_ENDPOINTS
    ensures LegalBelow(c, s, k, PrimeOps(c, k))
  {
    if k <= 2 {
      NoneLegal(c, s, k);
    } else {
      PrimingIsLegal(c, s, k - 1);
      PrimingNext(c, s, k - 1, PrimeOps(c, k - 1));
    }
  }

  /** Accesses `ops` keep the agreement if and only if the driver has the OUT data endpoints
    * below slot `k`, and leave the slots from `k` on alone. */
  ghost predicate LegalBelow(c: Config, s: St, k: nat, ops: seq<Op>)
    requires GoodConfig(c) && |s.ep| == MAX_ENDPOINTS
  {
    var r := Perform(c, s, ops);
    && (r.Some? <==> DataOutMine(c, k, s))
    && (r.Some? ==> forall j :: k <= j < MAX_ENDPOINTS ==> r.value.ep[j] == s.ep[j])
  }

  lemma NoneLegal(c: Config, s: St, k: nat)
    requires GoodConfig(c) && |s.ep| == MAX_ENDPOINTS && k <= 2
    ensures LegalBelow(c, s, k, [])
  {
  }

  lemma PrimingNext(c: Config, s: St, k: nat, ops: seq<Op>)
    requires GoodConfig(c) && |s.ep| == MAX_ENDPOINTS && k < MAX_ENDPOINTS && LegalBelow(c, s, k, ops)
    ensures LegalBelow(c, s, k + 1, ops + TurnOps(c, k))
  {
    PerformBoth(c, s, ops, TurnOps(c, k));
    var m := Perform(c, s, ops);
    if m.Some? {
      assert m.value.ep[k] == s.ep[k];
      TurnIsLegal(c, m.value, k);
    }
  }

  lemma TurnIsLegal(c: Config, s: St, k: nat)
    requires GoodConfig(c) && |s.ep| == MAX_ENDPOINTS && k < MAX_ENDPOINTS
    ensures var m := Perform(c, s, TurnOps(c, k));
            && (m.Some? <==> (IsDataOut(c, k) ==> s.ep[k].Quiet() && !s.ep[k].h.editing))
            && (m.Some? ==> forall j :: 0 <= j < MAX_ENDPOINTS && j != k ==> m.value.ep[j] == s.ep[j])
  {
    if IsDataOut(c, k) {
      ScheduleIsLegal(c, s, k, MaxLen(c, k));
    }
  }
}
