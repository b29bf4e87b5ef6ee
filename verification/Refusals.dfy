/**
 The refusals an isolate remembers (packages/billing/src/meter.ts:154-194, packages/billing/src/cache.ts): a refusal is
 sticky, so serving a remembered one is serving what the store would still answer.
 */
module Refusals {
  import opened Plan
  import opened Bill
  import opened Ledger
  import Accounts

  const BILLING_TTL_MS := 30000
  const BILLING_CAP_REFUSAL_TTL_MS := 5000

  // ---- a refusal is sticky ----

  /**
   What can lift a refusal before its month ends: a refund, or a change of the cap, plan, payment or unbilled mark.
   */
  predicate MayLift(op: Op) {
    op.OpRefund? || op.OpSetCap? || op.OpApply? || op.OpEnd? || op.OpSetUnbilled?
  }

  /** What an isolate keeps of a refusal: all but the seconds to wait, which it works out anew for each request. */
  datatype CachedRefusal = CachedRefusal(limit: LimitKind, allowed: real, resetsAt: int, pastDue: bool)

  function ToCache(limit: PlanLimit): CachedRefusal {
    CachedRefusal(limit.limit, limit.allowed, limit.resetsAt, limit.pastDue)
  }

  /** What a request at `now` is told. */
  function Served(refusal: CachedRefusal, now: int): PlanLimit {
    PlanLimit(
      refusal.limit, refusal.allowed, refusal.resetsAt, RetryAfterSeconds(refusal.resetsAt, now), refusal.pastDue)
  }

  /** Two answers of `limitOf` that refuse alike: only the seconds to wait may differ. */
  predicate SameRefusal(a: Option<PlanLimit>, b: Option<PlanLimit>) {
    a.Some? && b.Some? && ToCache(a.value) == ToCache(b.value)
  }

  /** What was kept of a refusal is all that matters: serving it gives the seconds to wait too. */
  lemma ServingIsRefusing(calendar: Calendar, s: State, unit: Unit, now: int)
    requires LimitOf(calendar, s, unit, now).Some?
    ensures Served(ToCache(LimitOf(calendar, s, unit, now).value), now) == LimitOf(calendar, s, unit, now).value
  {
  }

  lemma OtherCallsOnlyAddUse(calendar: Calendar, s: State, op: Op, month: int)
    requires !MayLift(op)
    ensures var s' := Do(calendar, s, op);
            && s'.plan == s.plan && s'.cap == s.cap && s'.unbilled == s.unbilled
            && s'.account.payment == s.account.payment
            && NoLess(UsedIn(s.usage, month), UsedIn(s'.usage, month))
  {
    match op
    case OpTake(now, id) => Accounts.OnlyTheLedgerMoves(s, calendar(now).end, id);
    case _ =>
  }

  /** Once a unit is refused, nothing that only uses, sends or raises ceilings lets it through again that month. */
  lemma {:induction false} RefusalsAreSticky(
    calendar: Calendar, s: State, unit: Unit, now: int, ops: seq<Op>, later: int)
    requires LimitOf(calendar, s, unit, now).Some?
    requires forall i :: 0 <= i < |ops| ==> !MayLift(ops[i])
    requires calendar(later) == calendar(now)
    ensures SameRefusal(LimitOf(calendar, s, unit, now), LimitOf(calendar, Run(calendar, s, ops), unit, later))
    decreases |ops|
  {
    if ops != [] {
      var s' := Do(calendar, s, ops[0]);
      OneCallKeepsTheRefusal(calendar, s, unit, now, ops[0]);
      RefusalsAreSticky(calendar, s', unit, now, ops[1..], later);
    }
  }

  lemma OneCallKeepsTheRefusal(calendar: Calendar, s: State, unit: Unit, now: int, op: Op)
    requires LimitOf(calendar, s, unit, now).Some? && !MayLift(op)
    ensures SameRefusal(LimitOf(calendar, s, unit, now), LimitOf(calendar, Do(calendar, s, op), unit, now))
  {
    var month := calendar(now).start;
    var s' := Do(calendar, s, op);
    OtherCallsOnlyAddUse(calendar, s, op, month);
    assert UsedIn(s.usage, month).Of(unit) <= UsedIn(s'.usage, month).Of(unit);
    if s.cap.Some? {
      CapRefusalsAreMonotone(UsedIn(s.usage, month), UsedIn(s'.usage, month), s.cap.value, unit);
    }
  }

  // ---- isolates that remember refusals ----

  /**
   A refusal an isolate keeps: the store gave it when the clock was `given`, to a request whose own clock read `at`.
   `lifted`: when a call that may lift it was first made since, which nothing reads.
   */
  datatype Refusal = Refusal(cached: CachedRefusal, at: int, given: int, lifted: Option<int>)

  function Ttl(limit: LimitKind): int {
    if limit.BillingCapLimit? then BILLING_CAP_REFUSAL_TTL_MS else BILLING_TTL_MS
  }

  /** When an isolate stops trusting a refusal given to a request at `at`. */
  function UntilOf(cached: CachedRefusal, at: int): int {
    if cached.resetsAt < at + Ttl(cached.limit) then cached.resetsAt else at + Ttl(cached.limit)
  }

  function Until(refusal: Refusal): int {
    UntilOf(refusal.cached, refusal.at)
  }

  /** A request in flight: it missed what its isolate remembers, or the store refused it. */
  datatype Asking = Missed(isolate: nat, now: int) | Told(isolate: nat, refusal: Refusal)

  /** `known`: what each isolate remembers of the org; `skew`: how far the clock a request reads may be off. */
  datatype World = World(skew: nat, clock: int, store: State, known: map<nat, Refusal>, asking: map<nat, Asking>)

  datatype Step =
    | Tick(to: int)
    | Call(op: Op)
    | LookUp(request: nat, isolate: nat, now: int)
    | AskStore(request: nat)
    | Remember(request: nat)
    | Fail(request: nat)
    | Drop(isolate: nat)

  function Lift(refusal: Refusal, op: Op, clock: int): Refusal {
    if MayLift(op) && refusal.lifted.None? then refusal.(lifted := Some(clock)) else refusal
  }

  function LiftAsking(asking: Asking, op: Op, clock: int): Asking {
    match asking
    case Missed(_, _) => asking
    case Told(isolate, refusal) => Told(isolate, Lift(refusal, op, clock))
  }

  /** Whether an isolate refuses a request from what it remembers. */
  predicate ServedFromMemory(w: World, isolate: nat, now: int) {
    isolate in w.known && now < Until(w.known[isolate])
  }

  predicate Reads(w: World, now: int) {
    w.clock - w.skew <= now <= w.clock + w.skew
  }

  predicate Enabled(w: World, step: Step) {
    match step
    case Tick(to) => w.clock <= to
    case Call(op) => Allowed(op)
    case LookUp(request, _, now) => request !in w.asking && Reads(w, now)
    case AskStore(request) => request in w.asking && w.asking[request].Missed?
    case Remember(request) => request in w.asking && w.asking[request].Told?
    case Fail(request) => request in w.asking
    case Drop(_) => true
  }

  function Called(w: World, op: Op, store: State): World {
    w.(store := store,
       known := map isolate | isolate in w.known :: Lift(w.known[isolate], op, w.clock),
       asking := map request | request in w.asking :: LiftAsking(w.asking[request], op, w.clock))
  }

  function Asked(calendar: Calendar, w: World, request: nat): World
    requires Enabled(w, AskStore(request))
  {
    var now := w.asking[request].now;
    var limit := LimitOf(calendar, w.store, Requests, now);
    w.(store := Admit(calendar, w.store, now),
       asking := if limit.None? then w.asking - {request}
                 else
                   w.asking[request :=
                     Told(w.asking[request].isolate, Refusal(ToCache(limit.value), now, w.clock, None))])
  }

  function Next(calendar: Calendar, w: World, step: Step): World
    requires Enabled(w, step)
  {
    match step
    case Tick(to) => w.(clock := to)
    case Call(op) => Called(w, op, Do(calendar, w.store, op))
    case LookUp(request, isolate, now) =>
      if ServedFromMemory(w, isolate, now) then w
      else w.(known := w.known - {isolate}, asking := w.asking[request := Missed(isolate, now)])
    case AskStore(request) => Asked(calendar, w, request)
    case Remember(request) =>
      var told := w.asking[request];
      w.(known := w.known[told.isolate := told.refusal], asking := w.asking - {request})
    case Fail(request) => w.(asking := w.asking - {request})
    case Drop(isolate) => w.(known := w.known - {isolate})
  }

  predicate Possible(calendar: Calendar, w: World, steps: seq<Step>)
    decreases |steps|
  {
    steps == [] || (Enabled(w, steps[0]) && Possible(calendar, Next(calendar, w, steps[0]), steps[1..]))
  }

  function After(calendar: Calendar, w: World, steps: seq<Step>): World
    requires Possible(calendar, w, steps)
    decreases |steps|
  {
    if steps == [] then w else After(calendar, Next(calendar, w, steps[0]), steps[1..])
  }

  /**
   A refusal ends with the month of its request and, while nothing lifted it, is what the store gives in that month.
   */
  ghost predicate Good(calendar: Calendar, s: State, refusal: Refusal) {
    && refusal.cached.resetsAt == calendar(refusal.at).end
    && (refusal.lifted.None? ==> forall t {:trigger calendar(t)} :: calendar(t) == calendar(refusal.at) ==>
          LimitOf(calendar, s, Requests, t).Some? && ToCache(LimitOf(calendar, s, Requests, t).value) == refusal.cached)
  }

  /** Its request read its clock before it was given, and it was given before it was lifted. */
  predicate InTime(skew: nat, clock: int, refusal: Refusal) {
    && refusal.at - skew <= refusal.given <= clock
    && (refusal.lifted.Some? ==> refusal.given <= refusal.lifted.value <= clock)
  }

  ghost predicate GoodAsking(calendar: Calendar, w: World, asking: Asking) {
    match asking
    case Missed(_, now) => now - w.skew <= w.clock
    case Told(_, refusal) => Good(calendar, w.store, refusal) && InTime(w.skew, w.clock, refusal)
  }

  ghost predicate Inv(calendar: Calendar, w: World) {
    && (forall isolate :: isolate in w.known ==>
          Good(calendar, w.store, w.known[isolate]) && InTime(w.skew, w.clock, w.known[isolate]))
    && (forall request :: request in w.asking ==> GoodAsking(calendar, w, w.asking[request]))
  }

  lemma CallsKeepGood(calendar: Calendar, s: State, refusal: Refusal, op: Op, clock: int)
    requires Good(calendar, s, refusal)
    ensures Good(calendar, Do(calendar, s, op), Lift(refusal, op, clock))
  {
    if Lift(refusal, op, clock).lifted.None? {
      var s' := Do(calendar, s, op);
      forall t {:trigger calendar(t)} | calendar(t) == calendar(refusal.at)
        ensures LimitOf(calendar, s', Requests, t).Some?
        ensures ToCache(LimitOf(calendar, s', Requests, t).value) == refusal.cached
      {
        OneCallKeepsTheRefusal(calendar, s, Requests, t, op);
      }
    }
  }

  lemma AdmittingKeepsGood(calendar: Calendar, s: State, refusal: Refusal, now: int)
    requires Good(calendar, s, refusal)
    ensures Good(calendar, Admit(calendar, s, now), refusal)
  {
    CallsKeepGood(calendar, s, refusal, OpAdmit(now), 0);
    assert Lift(refusal, OpAdmit(now), 0) == refusal;
  }

  lemma LiftingKeepsInv(calendar: Calendar, w: World, op: Op, store: State)
    requires Inv(calendar, w)
    requires forall refusal :: Good(calendar, w.store, refusal) ==> Good(calendar, store, Lift(refusal, op, w.clock))
    ensures Inv(calendar, Called(w, op, store))
  {
    var w' := Called(w, op, store);
    forall isolate | isolate in w'.known
      ensures Good(calendar, store, w'.known[isolate]) && InTime(w'.skew, w'.clock, w'.known[isolate])
    {
      assert Good(calendar, w.store, w.known[isolate]);
    }
    forall request | request in w'.asking ensures GoodAsking(calendar, w', w'.asking[request]) {
      assert GoodAsking(calendar, w, w.asking[request]);
    }
  }

  lemma CallKeepsInv(calendar: Calendar, w: World, op: Op)
    requires Inv(calendar, w)
    ensures Inv(calendar, Called(w, op, Do(calendar, w.store, op)))
  {
    forall refusal | Good(calendar, w.store, refusal)
      ensures Good(calendar, Do(calendar, w.store, op), Lift(refusal, op, w.clock))
    {
      CallsKeepGood(calendar, w.store, refusal, op, w.clock);
    }
    LiftingKeepsInv(calendar, w, op, Do(calendar, w.store, op));
  }

  lemma AskStoreKeepsInv(calendar: Calendar, w: World, request: nat)
    requires Inv(calendar, w) && Enabled(w, AskStore(request))
    ensures Inv(calendar, Asked(calendar, w, request))
  {
    var w' := Asked(calendar, w, request);
    var now := w.asking[request].now;
    forall isolate | isolate in w'.known ensures Good(calendar, w'.store, w'.known[isolate]) {
      AdmittingKeepsGood(calendar, w.store, w.known[isolate], now);
    }
    assert GoodAsking(calendar, w, w.asking[request]);
    forall other | other in w'.asking ensures GoodAsking(calendar, w', w'.asking[other]) {
      if other != request && w.asking[other].Told? {
        assert GoodAsking(calendar, w, w.asking[other]);
        AdmittingKeepsGood(calendar, w.store, w.asking[other].refusal, now);
      }
    }
  }

  lemma StepKeepsInv(calendar: Calendar, w: World, step: Step)
    requires Inv(calendar, w) && Enabled(w, step)
    ensures Inv(calendar, Next(calendar, w, step))
  {
    match step
    case Call(op) => CallKeepsInv(calendar, w, op);
    case AskStore(request) => AskStoreKeepsInv(calendar, w, request);
    case _ =>
  }

  lemma {:induction false} RunKeepsInv(calendar: Calendar, w: World, steps: seq<Step>)
    requires Inv(calendar, w) && Possible(calendar, w, steps)
    ensures Inv(calendar, After(calendar, w, steps))
    ensures After(calendar, w, steps).skew == w.skew
    decreases |steps|
  {
    if steps != [] {
      StepKeepsInv(calendar, w, steps[0]);
      RunKeepsInv(calendar, Next(calendar, w, steps[0]), steps[1..]);
    }
  }

  /** Nothing remembered, nothing in flight. */
  predicate IsFirst(w: World) {
    w.known == map[] && w.asking == map[]
  }

  /**
   Serving a remembered refusal is sound, in any run of any isolates, however far their clocks are off: it is served
   only before it lapses and before the month it was given in ends; and unless a call that may lift it was made since,
   it is, seconds to wait included, what the store asked now would answer.
   */
  lemma RememberedRefusalsAreSound(calendar: Calendar, first: World, steps: seq<Step>, isolate: nat, now: int)
    requires IsFirst(first) && Possible(calendar, first, steps)
    requires ServedFromMemory(After(calendar, first, steps), isolate, now)
    ensures var w := After(calendar, first, steps);
            var refusal := w.known[isolate];
            && now < calendar(refusal.at).end
            && now < refusal.at + Ttl(refusal.cached.limit)
            && (refusal.at <= now && refusal.lifted.None? ==>
                  LimitOf(calendar, w.store, Requests, now) == Some(Served(refusal.cached, now)))
  {
    RunKeepsInv(calendar, first, steps);
    var w := After(calendar, first, steps);
    var refusal := w.known[isolate];
    assert Good(calendar, w.store, refusal);
    if refusal.at <= now {
      assert calendar(refusal.at).start <= now < calendar(refusal.at).end;
      assert calendar(now) == calendar(refusal.at);
    }
  }

  /** A refusal is served for 5 s (the cap) or 30 s (free usage) from its request on, but not past its month. */
  lemma ServedExactlyWhile(w: World, isolate: nat, now: int)
    ensures ServedFromMemory(w, isolate, now) <==>
            && isolate in w.known && now < w.known[isolate].cached.resetsAt
            && now < w.known[isolate].at + if w.known[isolate].cached.limit.BillingCapLimit? then 5000 else 30000
  {
  }

  /**
   How long a refusal is served after a call that may lift it: for less than its time to live (5 s for the billing cap,
   30 s for free usage) plus what the clocks of the two requests may be off.
   */
  lemma LiftedRefusalsLapse(calendar: Calendar, first: World, steps: seq<Step>, isolate: nat, now: int)
    requires IsFirst(first) && Possible(calendar, first, steps)
    requires var w := After(calendar, first, steps);
             ServedFromMemory(w, isolate, now) && Reads(w, now) && w.known[isolate].lifted.Some?
    ensures var w := After(calendar, first, steps);
            var refusal := w.known[isolate];
            w.clock < refusal.lifted.value + 2 * first.skew
                      + if refusal.cached.limit.BillingCapLimit? then 5000 else 30000
  {
    RunKeepsInv(calendar, first, steps);
  }
}
