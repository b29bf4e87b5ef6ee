/**
 What one org's billing tables hold, and what each method of `BillingStore` makes of them
 (packages/billing/src/store.ts), on values. A table without its one row reads as its default here. `BillingStore` (in
 BillingStore.dfy) is the class whose methods are proved to do exactly this.
 */
module Ledger {
  import opened Plan
  import opened Bill

  /** The most a key may lag behind without a batch being made for it, in units. */
  const SEND_EPSILON := 0.000000001

  /** `Number.MAX_SAFE_INTEGER`, which stands for "every month". */
  const EVERY_MONTH := 9007199254740991

  datatype Account = Account(
    customerId: Option<string>,
    subscriptionId: Option<string>,
    endedSubscriptionId: Option<string>,
    payment: Payment,
    changedAt: int)

  const NO_ACCOUNT := Account(None, None, None, Okay, 0)

  datatype Status = Active | PastDueStatus | Ended

  /** What the provider reports of the org's subscription. */
  datatype Change = Change(status: Status, subscriptionId: string, customerId: string, changedAt: int)

  /** The batch on its way: its events, one per key. */
  datatype Batch = Batch(id: string, customerId: string, amounts: map<Key, real>)

  datatype State = State(
    plan: Plan,
    usage: map<Key, real>,
    account: Account,
    sent: map<Key, real>,
    pending: Option<Batch>,
    cap: Option<real>,
    unbilled: bool,
    raised: Raised)

  const EMPTY := State(Free, map[], NO_ACCOUNT, map[], None, Some(DEFAULT_BILLING_CAP), false, Raised(None, None, None))

  datatype LimitKind = RequestsLimit | BrowserHoursLimit | ComputerHoursLimit | BillingCapLimit

  datatype PlanLimit = PlanLimit(
    limit: LimitKind, allowed: real, resetsAt: int, retryAfterSeconds: int, pastDue: bool)

  datatype Admission = Counted(monthStart: int) | Refused(limit: PlanLimit)

  function UnitLimit(unit: Unit): LimitKind {
    match unit
    case Requests => RequestsLimit
    case BrowserHours => BrowserHoursLimit
    case ComputerHours => ComputerHoursLimit
  }

  // ---- reading ----

  /** What `plan()` answers: the unbilled mark counts as Pay as you go, whatever was subscribed. */
  function PlanOf(s: State): Plan {
    if s.unbilled then Payg else s.plan
  }

  /**
   What `limitsPlan()` answers: a failed payment takes Pay as you go down to Free, the unbilled mark overrides both.
   */
  function LimitsPlan(s: State): Plan {
    if s.unbilled then Payg
    else if s.plan.Payg? && s.account.payment.PastDue? then Free
    else s.plan
  }

  function UsedIn(usage: map<Key, real>, month: int): Usage {
    Usage(At(usage, Key(month, Requests)), At(usage, Key(month, BrowserHours)), At(usage, Key(month, ComputerHours)))
  }

  /** The part of a key's usage that is priced. */
  function Above(s: State, key: Key): real {
    Max(0.0, At(s.usage, key) - FREE_USAGE.Of(key.unit))
  }

  function OnItsWay(s: State, key: Key): real {
    if s.pending.Some? then At(s.pending.value.amounts, key) else 0.0
  }

  /** What the ledger counts as settled for a key: sent (or written off) and on its way. */
  function Covered(s: State, key: Key): real {
    At(s.sent, key) + OnItsWay(s, key)
  }

  function RetryAfterSeconds(resetsAt: int, now: int): int {
    var seconds := (resetsAt - now + 999) / 1000;
    if seconds < 1 then 1 else seconds
  }

  function LimitOf(calendar: Calendar, s: State, unit: Unit, now: int): Option<PlanLimit> {
    var month := calendar(now);
    var used := UsedIn(s.usage, month.start);
    var retry := RetryAfterSeconds(month.end, now);
    if LimitsPlan(s).Free? && used.Of(unit) >= FREE_USAGE.Of(unit) then
      Some(PlanLimit(UnitLimit(unit), FREE_USAGE.Of(unit), month.end, retry, PlanOf(s).Payg?))
    else if LimitsPlan(s).Payg? && !s.unbilled && s.cap.Some? && CapRefuses(used, s.cap.value, unit) then
      Some(PlanLimit(BillingCapLimit, s.cap.value, month.end, retry, false))
    else None
  }

  /**
   What is sent of a month is what its bill prices: requests above 25,000, browser hours above one, computer hours.
   */
  lemma WhatIsSentIsWhatIsBilled(s: State, month: int)
    ensures Above(s, Key(month, Requests)) == Max(0.0, At(s.usage, Key(month, Requests)) - 25000.0)
    ensures Above(s, Key(month, BrowserHours)) == Max(0.0, At(s.usage, Key(month, BrowserHours)) - 1.0)
    ensures Above(s, Key(month, ComputerHours)) == Max(0.0, At(s.usage, Key(month, ComputerHours)))
    ensures BillMicros(UsedIn(s.usage, month)) ==
            5.0 * Above(s, Key(month, Requests))
            + 150000.0 * (Above(s, Key(month, BrowserHours)) + Above(s, Key(month, ComputerHours)))
  {
    BillIsTheSumOverUnits(UsedIn(s.usage, month));
  }

  /** Held to Free's limits: on Free, or on Pay as you go after a failed payment, and not unbilled. */
  predicate IsHeldToFree(s: State) {
    !s.unbilled && (s.plan.Free? || s.account.payment.PastDue?)
  }

  /**
   Whether a month's use of a unit is as much as is free: 25,000 requests, a browser hour, no computer hour at all.
   */
  predicate UsedUp(s: State, month: int, unit: Unit) {
    match unit
    case Requests => At(s.usage, Key(month, Requests)) >= 25000.0
    case BrowserHours => At(s.usage, Key(month, BrowserHours)) >= 1.0
    case ComputerHours => At(s.usage, Key(month, ComputerHours)) >= 0.0
  }

  /**
   Free's limit refuses a unit exactly when the org is held to it and the unit is used up: a unit with nothing free is
   refused from the start. What it says: the free amount, the month's end, and whether a failed payment is why.
   */
  lemma FreeLimitsRefuseExactlyWhen(calendar: Calendar, s: State, unit: Unit, now: int)
    ensures var limit := LimitOf(calendar, s, unit, now);
            limit.Some? && !limit.value.limit.BillingCapLimit? <==>
            IsHeldToFree(s) && UsedUp(s, calendar(now).start, unit)
    ensures var limit := LimitOf(calendar, s, unit, now);
            limit.Some? && !limit.value.limit.BillingCapLimit? ==>
              && limit.value.resetsAt == calendar(now).end && limit.value.pastDue == s.plan.Payg?
              && match unit
                 case Requests => limit.value.limit.RequestsLimit? && limit.value.allowed == 25000.0
                 case BrowserHours => limit.value.limit.BrowserHoursLimit? && limit.value.allowed == 1.0
                 case ComputerHours => limit.value.limit.ComputerHoursLimit? && limit.value.allowed == 0.0
  {
  }

  /**
   The cap refuses a unit exactly when the org is billed at Pay-as-you-go's limits, has a cap, used the unit up, and one
   request (5 micro-dollars) or minute (2,500) more would take the month's bill past the cap.
   */
  lemma TheCapRefusesExactlyWhen(calendar: Calendar, s: State, unit: Unit, now: int)
    ensures var limit := LimitOf(calendar, s, unit, now);
            var month := calendar(now).start;
            var bill := 5.0 * Max(0.0, At(s.usage, Key(month, Requests)) - 25000.0)
                        + 150000.0 * Max(0.0, At(s.usage, Key(month, BrowserHours)) - 1.0)
                        + 150000.0 * Max(0.0, At(s.usage, Key(month, ComputerHours)));
            limit.Some? && limit.value.limit.BillingCapLimit? <==>
            && s.plan.Payg? && !s.account.payment.PastDue? && !s.unbilled && s.cap.Some? && UsedUp(s, month, unit)
            && bill + (if unit.Requests? then 5.0 else 2500.0) > ToMicros(s.cap.value) as real
    ensures var limit := LimitOf(calendar, s, unit, now);
            limit.Some? && limit.value.limit.BillingCapLimit? ==>
              && Some(limit.value.allowed) == s.cap && !limit.value.pastDue && limit.value.resetsAt == calendar(now).end
  {
    BillIsTheSumOverUnits(UsedIn(s.usage, calendar(now).start));
  }

  /** Waiting as long as a refusal says, and no less in whole seconds, reaches the month after. */
  lemma RetryAfterReachesTheMonthEnd(calendar: Calendar, s: State, unit: Unit, now: int)
    requires LimitOf(calendar, s, unit, now).Some?
    ensures var limit := LimitOf(calendar, s, unit, now).value;
            && limit.retryAfterSeconds >= 1 && limit.resetsAt == calendar(now).end
            && calendar(now + 1000 * limit.retryAfterSeconds).start >= limit.resetsAt
            && now + 1000 * (limit.retryAfterSeconds - 1) < limit.resetsAt
  {
    var limit := LimitOf(calendar, s, unit, now).value;
    var later := now + 1000 * limit.retryAfterSeconds;
    MonthsAreContiguous(calendar, now);
    assert calendar(now).end <= later;
    assert calendar(later).start <= later < calendar(later).end;
    assert calendar(later).start <= calendar(now).end - 1 < calendar(later).end ==>
        calendar(calendar(now).end - 1) == calendar(later);
    assert calendar(calendar(now).end - 1) == calendar(now);
  }

  /** The higher of a plan's ceiling and the one set for the org. */
  function Raise(plan: int, raised: Option<int>): (ceiling: int)
    ensures ceiling >= plan && (raised.Some? ==> ceiling >= raised.value)
    ensures ceiling == plan || raised == Some(ceiling)
  {
    if raised.Some? && plan < raised.value then raised.value else plan
  }

  function CeilingsOf(s: State): Ceilings {
    var plan := PlanCeilings(LimitsPlan(s));
    Ceilings(
      Raise(plan.browserSessions, s.raised.browserSessions),
      Raise(plan.computers, s.raised.computers),
      Raise(plan.requestRate, s.raised.requestRate))
  }

  // ---- usage ----

  function Add(s: State, key: Key, amount: real): State {
    s.(usage := s.usage[key := Max(0.0, At(s.usage, key) + amount)])
  }

  function Admit(calendar: Calendar, s: State, now: int): State {
    if LimitOf(calendar, s, Requests, now).Some? then s
    else Add(s, Key(calendar(now).start, Requests), 1.0)
  }

  function Refund(s: State, month: int): State {
    Add(s, Key(month, Requests), -1.0)
  }

  function AddTime(calendar: Calendar, s: State, unit: Unit, ms: real, now: int): State {
    if ms <= 0.0 then s else Add(s, Key(calendar(now).start, unit), ms / MS_PER_HOUR)
  }

  // ---- the ledger ----

  /** What writing off leaves as sent for a key of the usage table. */
  function WrittenOff(s: State, key: Key): real {
    Max(At(s.sent, key), Max(0.0, Above(s, key) - OnItsWay(s, key)))
  }

  /** Settles every key of the usage table without sending anything. */
  function WriteOff(s: State): State {
    s.(sent := map key | key in s.usage.Keys + s.sent.Keys ::
               if key in s.usage then WrittenOff(s, key) else s.sent[key])
  }

  /** What usage above free grew by since it was last sent. */
  function Unsent(s: State, key: Key): real {
    Above(s, key) - At(s.sent, key)
  }

  function NewAmounts(s: State, until: int): map<Key, real> {
    map key | key in s.usage && key.month < until && Unsent(s, key) > SEND_EPSILON :: Unsent(s, key)
  }

  /**
   Puts `NewAmounts` into `pending`, which is empty, when the org has a customer; an unbilled org is settled instead.
   */
  function NewBatch(s: State, until: int, id: string): State {
    if s.unbilled then WriteOff(s)
    else if s.account.customerId.None? then s
    else
      var amounts := NewAmounts(s, until);
      if amounts == map[] then s else s.(pending := Some(Batch(id, s.account.customerId.value, amounts)))
  }

  /** The last batch of a billed stretch, unless one is pending, and `WriteOff` of whatever that leaves. */
  function CloseUsage(s: State, id: string): State {
    WriteOff(if s.pending.None? then NewBatch(s, EVERY_MONTH, id) else s)
  }

  /** The state after asking for the batch to send. */
  function Take(calendar: Calendar, s: State, now: int, id: string): State {
    if s.pending.Some? || PlanOf(s).Free? then s else NewBatch(s, calendar(now).end, id)
  }

  /** The batch `Take` answers. */
  function Taken(calendar: Calendar, s: State, now: int, id: string): Option<Batch> {
    Take(calendar, s, now, id).pending
  }

  function AddAll(table: map<Key, real>, amounts: map<Key, real>): map<Key, real> {
    map key | key in table.Keys + amounts.Keys :: At(table, key) + At(amounts, key)
  }

  /** Moves the pending amounts into `sent`, if they are those of the batch `id`. */
  function Acknowledge(s: State, id: string): State {
    if s.pending.None? || s.pending.value.id != id then s
    else s.(sent := AddAll(s.sent, s.pending.value.amounts), pending := None)
  }

  // ---- the account ----

  /** Changes `applySubscription` answers false to without recording anything. */
  predicate Ignored(account: Account, change: Change) {
    || change.changedAt < account.changedAt
    || (!change.status.Active? && account.endedSubscriptionId == Some(change.subscriptionId))
    || (!change.status.Active? && account.subscriptionId.Some? && account.subscriptionId != Some(change.subscriptionId))
    || (change.status.Ended? && account.subscriptionId.None?)
  }

  function PlanAfter(change: Change): Plan {
    if change.status.Ended? then Free else Payg
  }

  function AccountAfter(account: Account, change: Change): Account {
    var ended := change.status.Ended?;
    Account(
      if account.customerId.Some? then account.customerId else Some(change.customerId),
      if ended then None else Some(change.subscriptionId),
      if ended then Some(change.subscriptionId)
      else if account.endedSubscriptionId == Some(change.subscriptionId) then None
      else account.endedSubscriptionId,
      if change.status.PastDueStatus? then PastDue else Okay,
      change.changedAt)
  }

  function Apply(s: State, change: Change, id: string): State {
    if Ignored(s.account, change) then s
    else
      var next := s.(account := AccountAfter(s.account, change), plan := PlanAfter(change));
      if change.status.Ended? then CloseUsage(next, id)
      else if s.plan.Free? then WriteOff(next)
      else next
  }

  /** What `applySubscription` answers. */
  predicate Changed(s: State, change: Change) {
    var next := AccountAfter(s.account, change);
    !Ignored(s.account, change) &&
    (PlanAfter(change) != s.plan || next.customerId != s.account.customerId ||
     next.subscriptionId != s.account.subscriptionId || next.payment != s.account.payment)
  }

  function EndSubscription(s: State, now: int, id: string): State {
    var account := s.account.(
      subscriptionId := None,
      endedSubscriptionId :=
        if s.account.subscriptionId.Some? then s.account.subscriptionId else s.account.endedSubscriptionId,
      payment := Okay,
      changedAt := if s.account.changedAt < now then now else s.account.changedAt);
    CloseUsage(s.(account := account, plan := Free), id)
  }

  function SetCustomer(s: State, customerId: string): State {
    s.(account := s.account.(customerId := Some(customerId)))
  }

  function SetUnbilled(s: State, unbilled: bool, id: string): State {
    if s.unbilled == unbilled then s
    else (if unbilled && s.plan.Payg? then CloseUsage(s, id) else WriteOff(s)).(unbilled := unbilled)
  }

  // ---- operations, and runs of them ----

  /** A call of the store. Where it may make a batch, `id` is the fresh id it would give it. */
  datatype Op =
    | OpAdmit(now: int)
    | OpRefund(month: int)
    | OpAddTime(unit: Unit, ms: real, now: int)
    | OpTake(now: int, id: string)
    | OpAcknowledge(id: string)
    | OpApply(change: Change, id: string)
    | OpEnd(now: int, id: string)
    | OpSetCustomer(customerId: string)
    | OpSetUnbilled(unbilled: bool, id: string)
    | OpSetCap(cap: Option<real>)
    | OpRaise(raised: Raised)

  function Do(calendar: Calendar, s: State, op: Op): State {
    match op
    case OpAdmit(now) => Admit(calendar, s, now)
    case OpRefund(month) => Refund(s, month)
    case OpAddTime(unit, ms, now) => AddTime(calendar, s, unit, ms, now)
    case OpTake(now, id) => Take(calendar, s, now, id)
    case OpAcknowledge(id) => Acknowledge(s, id)
    case OpApply(change, id) => Apply(s, change, id)
    case OpEnd(now, id) => EndSubscription(s, now, id)
    case OpSetCustomer(customerId) => SetCustomer(s, customerId)
    case OpSetUnbilled(unbilled, id) => SetUnbilled(s, unbilled, id)
    case OpSetCap(cap) => s.(cap := cap)
    case OpRaise(raised) => s.(raised := raised)
  }

  /** What callers see to: time is metered in hours only. */
  predicate Allowed(op: Op) {
    op.OpAddTime? ==> !op.unit.Requests?
  }

  predicate AllAllowed(ops: seq<Op>) {
    forall i :: 0 <= i < |ops| ==> Allowed(ops[i])
  }

  /**
   An end that finds the org subscribed to Free. Its caller read Pay as you go, or a current subscription, before; a
   report may have come in between.
   */
  predicate IsStaleEnd(s: State, op: Op) {
    op.OpEnd? && s.plan.Free?
  }

  function Run(calendar: Calendar, s: State, ops: seq<Op>): State
    decreases |ops|
  {
    if ops == [] then s else Run(calendar, Do(calendar, s, ops[0]), ops[1..])
  }

  // ---- what each call leaves alone ----

  /** Which calls move which table, and what those that set a value leave there. */
  lemma OnlyOwnTablesMove(calendar: Calendar, s: State, op: Op)
    ensures var s' := Do(calendar, s, op);
            && (s'.usage != s.usage ==> op.OpAdmit? || op.OpRefund? || op.OpAddTime?)
            && (s'.plan != s.plan ==> op.OpApply? || op.OpEnd?)
            && (s'.account != s.account ==> op.OpApply? || op.OpEnd? || op.OpSetCustomer?)
            && (s'.sent != s.sent ==> op.OpTake? || op.OpAcknowledge? || op.OpApply? || op.OpEnd? || op.OpSetUnbilled?)
            && (s'.pending != s.pending ==>
                  op.OpTake? || op.OpAcknowledge? || op.OpApply? || op.OpEnd? || op.OpSetUnbilled?)
            && s'.cap == (if op.OpSetCap? then op.cap else s.cap)
            && s'.unbilled == (if op.OpSetUnbilled? then op.unbilled else s.unbilled)
            && s'.raised == (if op.OpRaise? then op.raised else s.raised)
            && (op.OpSetCustomer? ==> s'.account == s.account.(customerId := Some(op.customerId)))
  {
  }

  /** The cap is what was set last; $50 until an owner sets one. */
  lemma {:induction false} TheCapIsTheLastSet(calendar: Calendar, s: State, ops: seq<Op>)
    ensures EMPTY.cap == Some(50.0) && ToMicros(50.0) == 50000000 && EMPTY.raised == Raised(None, None, None)
    ensures (forall i :: 0 <= i < |ops| ==> !ops[i].OpSetCap?) ==> Run(calendar, s, ops).cap == s.cap
    ensures forall i :: 0 <= i < |ops| && ops[i].OpSetCap? && (forall j :: i < j < |ops| ==> !ops[j].OpSetCap?) ==>
              Run(calendar, s, ops).cap == ops[i].cap
    decreases |ops|
  {
    if ops != [] {
      OnlyOwnTablesMove(calendar, s, ops[0]);
      TheCapIsTheLastSet(calendar, Do(calendar, s, ops[0]), ops[1..]);
      assert forall i :: 1 <= i < |ops| ==> ops[i] == ops[1..][i - 1];
    }
  }

  // ---- ceilings over calls ----

  predicate NoHigher(a: Ceilings, b: Ceilings) {
    a.browserSessions <= b.browserSessions && a.computers <= b.computers && a.requestRate <= b.requestRate
  }

  predicate NoHigherRaise(a: Option<int>, b: Option<int>) {
    a.Some? ==> b.Some? && a.value <= b.value
  }

  predicate NoHigherRaises(a: Raised, b: Raised) {
    && NoHigherRaise(a.browserSessions, b.browserSessions)
    && NoHigherRaise(a.computers, b.computers)
    && NoHigherRaise(a.requestRate, b.requestRate)
  }

  /**
   No ceiling is below that of `LimitsPlan`, nor of Free; with nothing set they are just the plan's; and a higher plan
   or setting lowers none.
   */
  lemma CeilingsFollowPlanAndRaises(s: State, t: State)
    ensures NoHigher(PlanCeilings(Free), PlanCeilings(LimitsPlan(s)))
    ensures NoHigher(PlanCeilings(LimitsPlan(s)), CeilingsOf(s))
    ensures s.raised == Raised(None, None, None) ==> CeilingsOf(s) == PlanCeilings(LimitsPlan(s))
    ensures (LimitsPlan(s).Free? || LimitsPlan(t).Payg?) && NoHigherRaises(s.raised, t.raised) ==>
              NoHigher(CeilingsOf(s), CeilingsOf(t))
  {
  }

  /** A ceiling is the higher of its plan's and its own setting, and of no other. */
  predicate IsHigherOf(ceiling: int, plan: int, raised: Option<int>) {
    && plan <= ceiling && (raised.Some? ==> raised.value <= ceiling)
    && (ceiling == plan || raised == Some(ceiling))
  }

  /**
   One browser session, no computer and 60 requests a minute on Free, 5, 3 and 600 on Pay as you go, each unless
   raised.
   */
  lemma CeilingsAreTheirOwn(s: State)
    ensures var ceilings, free := CeilingsOf(s), IsHeldToFree(s);
            && IsHigherOf(ceilings.browserSessions, if free then 1 else 5, s.raised.browserSessions)
            && IsHigherOf(ceilings.computers, if free then 0 else 3, s.raised.computers)
            && IsHigherOf(ceilings.requestRate, if free then 60 else 600, s.raised.requestRate)
  {
  }

  /**
   Whether a call may lower a ceiling: it lowers a raise, takes the org off Pay as you go, or holds it to Free's
   limits.
   */
  predicate MayLower(s: State, op: Op) {
    match op
    case OpRaise(raised) => !NoHigherRaises(s.raised, raised)
    case OpApply(change, _) => LimitsPlan(s).Payg? && !s.unbilled && !change.status.Active?
    case OpEnd(_, _) => LimitsPlan(s).Payg? && !s.unbilled
    case OpSetUnbilled(unbilled, _) => s.unbilled && !unbilled
    case _ => false
  }

  /** No other call lowers a ceiling: use, sending, caps, repeated activations and the unbilled mark never do. */
  lemma OnlyTheseLowerCeilings(calendar: Calendar, s: State, op: Op)
    requires !MayLower(s, op)
    ensures NoHigher(CeilingsOf(s), CeilingsOf(Do(calendar, s, op)))
  {
    CeilingsFollowPlanAndRaises(s, Do(calendar, s, op));
  }
}
