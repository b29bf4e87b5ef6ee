/**
 What runs of requests, refunds and metered time keep of a month's counter and bill
 (packages/billing/src/store.ts:426-516, packages/billing/src/bill.ts:53-76): the counter is exactly what was counted,
 Free's limit and the billing cap hold.
 */
module RequestRuns {
  import opened Plan
  import opened Bill
  import opened Ledger

  function RequestsIn(s: State, month: int): real {
    At(s.usage, Key(month, Requests))
  }

  ghost predicate WholeRequests(s: State) {
    forall month :: 0.0 <= RequestsIn(s, month) == RequestsIn(s, month).Floor as real
  }

  lemma CountingKeepsWhole(calendar: Calendar, s: State, op: Op)
    requires WholeRequests(s) && Allowed(op)
    ensures WholeRequests(Do(calendar, s, op))
  {
    var s' := Do(calendar, s, op);
    forall month ensures 0.0 <= RequestsIn(s', month) == RequestsIn(s', month).Floor as real {
      var before := RequestsIn(s, month);
      assert before == before.Floor as real;
      assert RequestsIn(s', month) in {before, before + 1.0, Max(0.0, before - 1.0)} by {
        OnlyCountingMovesRequests(calendar, s, op, month);
      }
      assert (before + 1.0).Floor == before.Floor + 1 && (before - 1.0).Floor == before.Floor - 1;
    }
  }

  /** Whether a call counts a request against a month. */
  predicate Counts(calendar: Calendar, s: State, op: Op, month: int) {
    op.OpAdmit? && calendar(op.now).start == month && LimitOf(calendar, s, Requests, op.now).None?
  }

  lemma OnlyCountingMovesRequests(calendar: Calendar, s: State, op: Op, month: int)
    requires Allowed(op) && 0.0 <= RequestsIn(s, month)
    ensures RequestsIn(Do(calendar, s, op), month) ==
            if Counts(calendar, s, op, month) then RequestsIn(s, month) + 1.0
            else if op == OpRefund(month) then Max(0.0, RequestsIn(s, month) - 1.0)
            else RequestsIn(s, month)
  {
  }

  /** Only metered time moves a month's hours, each unit's its own: 3,600,000 ms are an hour. */
  lemma OnlyMeteringMovesHours(calendar: Calendar, s: State, op: Op, month: int, unit: Unit)
    requires !unit.Requests? && 0.0 <= At(s.usage, Key(month, unit))
    ensures At(Do(calendar, s, op).usage, Key(month, unit)) ==
            At(s.usage, Key(month, unit)) + MeteredBy(calendar, op, month, unit) / 3600000.0
  {
  }

  /** The milliseconds a call meters to a month and unit. */
  function MeteredBy(calendar: Calendar, op: Op, month: int, unit: Unit): (ms: real)
    ensures 0.0 <= ms
  {
    if op.OpAddTime? && op.unit == unit && calendar(op.now).start == month && op.ms > 0.0 then op.ms else 0.0
  }

  function Metered(calendar: Calendar, ops: seq<Op>, month: int, unit: Unit): real {
    if ops == [] then 0.0 else MeteredBy(calendar, ops[0], month, unit) + Metered(calendar, ops[1..], month, unit)
  }

  /**
   A month's hours of a unit are what they were plus the time metered to that unit in that month, whatever else is
   called: no time is lost, counted twice, or counted as another unit.
   */
  lemma {:induction false} HoursAreConserved(calendar: Calendar, s: State, ops: seq<Op>, month: int, unit: Unit)
    requires !unit.Requests? && 0.0 <= At(s.usage, Key(month, unit))
    ensures At(Run(calendar, s, ops).usage, Key(month, unit)) ==
            At(s.usage, Key(month, unit)) + Metered(calendar, ops, month, unit) / 3600000.0
    decreases |ops|
  {
    if ops != [] {
      OnlyMeteringMovesHours(calendar, s, ops[0], month, unit);
      HoursAreConserved(calendar, Do(calendar, s, ops[0]), ops[1..], month, unit);
    }
  }

  /** In every state reached from an org's first, a month's requests are a whole number, not below zero. */
  lemma {:induction false} ReachableCountsAreWhole(calendar: Calendar, s: State, ops: seq<Op>)
    requires WholeRequests(s) && AllAllowed(ops)
    ensures WholeRequests(EMPTY)
    ensures WholeRequests(Run(calendar, s, ops))
    decreases |ops|
  {
    if ops != [] {
      CountingKeepsWhole(calendar, s, ops[0]);
      ReachableCountsAreWhole(calendar, Do(calendar, s, ops[0]), ops[1..]);
    }
  }

  // ---- conservation ----

  /** What a call does to the requests admitted against a month and not taken back. */
  function Held(calendar: Calendar, s: State, op: Op, month: int, held: int): int {
    if Counts(calendar, s, op, month) then held + 1 else if op == OpRefund(month) then held - 1 else held
  }

  /** Every refund of a month takes back one of the requests counted against it before. */
  predicate Matched(calendar: Calendar, s: State, ops: seq<Op>, month: int, held: int)
    decreases |ops|
  {
    held >= 0 &&
    (ops == [] ||
     Matched(calendar, Do(calendar, s, ops[0]), ops[1..], month, Held(calendar, s, ops[0], month, held)))
  }

  function HeldAfter(calendar: Calendar, s: State, ops: seq<Op>, month: int, held: int): int
    decreases |ops|
  {
    if ops == [] then held
    else HeldAfter(calendar, Do(calendar, s, ops[0]), ops[1..], month, Held(calendar, s, ops[0], month, held))
  }

  /**
   A month's counter is exactly what it was plus the requests counted less those taken back, across any calls and month
   boundaries: the floor at zero never bites.
   */
  lemma {:induction false} TheCounterIsConserved(calendar: Calendar, s: State, ops: seq<Op>, month: int, held: int)
    requires AllAllowed(ops) && Matched(calendar, s, ops, month, held)
    requires held as real <= RequestsIn(s, month)
    ensures RequestsIn(Run(calendar, s, ops), month) - RequestsIn(s, month) ==
            (HeldAfter(calendar, s, ops, month, held) - held) as real
    decreases |ops|
  {
    if ops != [] {
      OnlyCountingMovesRequests(calendar, s, ops[0], month);
      TheCounterIsConserved(
        calendar, Do(calendar, s, ops[0]), ops[1..], month, Held(calendar, s, ops[0], month, held));
    }
  }

  predicate HeldToFree(calendar: Calendar, s: State, ops: seq<Op>)
    decreases |ops|
  {
    LimitsPlan(s).Free? && (ops == [] || HeldToFree(calendar, Do(calendar, s, ops[0]), ops[1..]))
  }

  /** While Free's limits apply, a month's requests never pass the free amount. */
  lemma {:induction false} FreeUsageIsNotPassed(calendar: Calendar, s: State, ops: seq<Op>, month: int)
    requires AllAllowed(ops) && HeldToFree(calendar, s, ops) && WholeRequests(s)
    requires RequestsIn(s, month) <= FREE_USAGE.requests
    ensures RequestsIn(Run(calendar, s, ops), month) <= FREE_USAGE.requests
    decreases |ops|
  {
    if ops != [] {
      var s' := Do(calendar, s, ops[0]);
      assert RequestsIn(s, month) == RequestsIn(s, month).Floor as real;
      OnlyCountingMovesRequests(calendar, s, ops[0], month);
      CountingKeepsWhole(calendar, s, ops[0]);
      FreeUsageIsNotPassed(calendar, s', ops[1..], month);
    }
  }

  // ---- the billing cap ----

  function MonthBill(s: State, month: int): real {
    BillMicros(UsedIn(s.usage, month))
  }

  /** A billed org with payments that go through and a cap. */
  predicate Capped(s: State, cap: real) {
    s.plan.Payg? && !s.unbilled && s.account.payment.Okay? && s.cap == Some(cap)
  }

  /** Use, and what leaves the cap, the plan and the payment alone. */
  predicate IsUse(op: Op) {
    op.OpAdmit? || op.OpRefund? || op.OpAddTime? || op.OpTake? || op.OpAcknowledge? || op.OpSetCustomer? || op.OpRaise?
  }

  /** The cost, in micro-dollars, of the time a call meters into a month. */
  function TimeCost(calendar: Calendar, op: Op, month: int): real {
    if op.OpAddTime? && calendar(op.now).start == month && op.ms > 0.0
    then op.ms / MS_PER_HOUR * 150000.0 else 0.0
  }

  function TimeCosts(calendar: Calendar, ops: seq<Op>, month: int): real {
    if ops == [] then 0.0 else TimeCost(calendar, ops[0], month) + TimeCosts(calendar, ops[1..], month)
  }

  lemma UseKeepsTheCap(calendar: Calendar, s: State, op: Op, month: int, cap: real)
    requires Capped(s, cap) && IsUse(op) && Allowed(op) && WholeRequests(s)
    ensures Capped(Do(calendar, s, op), cap)
    ensures MonthBill(Do(calendar, s, op), month) <=
            Max(MonthBill(s, month), ToMicros(cap) as real) + TimeCost(calendar, op, month)
    ensures 0.0 <= TimeCost(calendar, op, month)
  {
    var s' := Do(calendar, s, op);
    var used, used' := UsedIn(s.usage, month), UsedIn(s'.usage, month);
    BillIsTheSumOverUnits(used);
    BillIsTheSumOverUnits(used');
    assert used.requests == RequestsIn(s, month) && 0.0 <= used.requests == RequestsIn(s, month).Floor as real;
    match op
    case OpAdmit(now) =>
      if Counts(calendar, s, op, month) {
        assert !CapRefuses(used, cap, Requests);
        assert used' == used.(requests := used.requests + 1.0);
      } else {
        assert used' == used;
      }
    case OpRefund(m) =>
      assert used' == used || used' == used.(requests := Max(0.0, used.requests - 1.0));
    case OpAddTime(unit, ms, now) =>
      var hours := ms / MS_PER_HOUR;
      assert ms > 0.0 ==> hours > 0.0;
      TimeGrowsTheBillByItsCost(s, Key(calendar(now).start, unit), hours, month);
    case _ =>
      assert used' == used;
  }

  lemma TimeGrowsTheBillByItsCost(s: State, key: Key, hours: real, month: int)
    requires !key.unit.Requests?
    ensures hours > 0.0 ==>
              MonthBill(Ledger.Add(s, key, hours), month) <=
              MonthBill(s, month) + (if key.month == month then hours * 150000.0 else 0.0)
  {
    var used, used' := UsedIn(s.usage, month), UsedIn(Ledger.Add(s, key, hours).usage, month);
    BillIsTheSumOverUnits(used);
    BillIsTheSumOverUnits(used');
  }

  /**
   Whatever requests, refunds and time come, a month's bill passes the larger of the cap and what it was only by what
   the time metered since costs: requests alone never take it past the cap.
   */
  lemma {:induction false} TheCapHolds(calendar: Calendar, s: State, ops: seq<Op>, month: int, cap: real)
    requires Capped(s, cap) && WholeRequests(s) && AllAllowed(ops)
    requires forall i :: 0 <= i < |ops| ==> IsUse(ops[i])
    ensures MonthBill(Run(calendar, s, ops), month) <=
            Max(MonthBill(s, month), ToMicros(cap) as real) + TimeCosts(calendar, ops, month)
    ensures (forall i :: 0 <= i < |ops| ==> !ops[i].OpAddTime?) ==> TimeCosts(calendar, ops, month) == 0.0
    decreases |ops|
  {
    if ops != [] {
      UseKeepsTheCap(calendar, s, ops[0], month, cap);
      CountingKeepsWhole(calendar, s, ops[0]);
      TheCapHolds(calendar, Do(calendar, s, ops[0]), ops[1..], month, cap);
    }
  }
}
