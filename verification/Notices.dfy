/**
 The notices of `GET /billing` (packages/billing/src/notices.ts), and that they agree with what the store refuses.
 */
module Notices {
  import opened Plan
  import opened Bill
  import opened Ledger

  datatype Notice = PaymentFailed | FreeUsage(unit: Unit, percent: int) | BillingCap(percent: int)

  /** What the Billing part answers of an org's billing, as far as the notices read it. */
  datatype BillingUsage = BillingUsage(
    plan: Plan, unbilled: bool, payment: Payment, used: Usage, billingCap: Option<real>)

  function UsageOf(calendar: Calendar, s: State, now: int): BillingUsage {
    BillingUsage(PlanOf(s), s.unbilled, s.account.payment, UsedIn(s.usage, calendar(now).start), s.cap)
  }

  predicate AtEightyPercent(used: real, limit: real) {
    used * 5.0 >= limit * 4.0
  }

  function CapNotice(billing: BillingUsage, cap: real): Option<Notice> {
    var capMicros := ToMicros(cap) as real;
    if CapRefuses(billing.used, cap, Requests) || CapRefuses(billing.used, cap, BrowserHours)
       || CapRefuses(billing.used, cap, ComputerHours) then Some(BillingCap(100))
    else if capMicros > 0.0 && AtEightyPercent(BillMicros(billing.used), capMicros) then Some(BillingCap(80))
    else None
  }

  /** The percent a unit's free usage is noticed at, if it is. */
  function FreePercent(used: real, free: real): Option<int> {
    if free <= 0.0 then None
    else if used >= free then Some(100)
    else if AtEightyPercent(used, free) then Some(80)
    else None
  }

  predicate HeldToFree(billing: BillingUsage) {
    billing.plan.Free? || billing.payment.PastDue?
  }

  function Position(unit: Unit): (i: int)
    ensures 0 <= i < |UNITS| && UNITS[i] == unit
  {
    match unit
    case Requests => 0
    case BrowserHours => 1
    case ComputerHours => 2
  }

  /** The notices, stated one by one: which there are, and that there is nothing else. */
  ghost predicate AreTheNotices(billing: BillingUsage, notices: seq<Notice>) {
    && (PaymentFailed in notices <==> !billing.unbilled && billing.plan.Payg? && billing.payment.PastDue?)
    && (forall unit, percent :: FreeUsage(unit, percent) in notices <==>
          !billing.unbilled && HeldToFree(billing) &&
          FreePercent(billing.used.Of(unit), FREE_USAGE.Of(unit)) == Some(percent))
    && (forall percent :: BillingCap(percent) in notices <==>
          !billing.unbilled && !HeldToFree(billing) && billing.billingCap.Some? &&
          CapNotice(billing, billing.billingCap.value) == Some(BillingCap(percent)))
    && (billing.unbilled ==> notices == [])
    && (PaymentFailed in notices ==> notices[0] == PaymentFailed)
    && (forall i, j :: 0 <= i < j < |notices| ==> InOrder(notices[i], notices[j]))
  }

  /** No notice twice, and those of free usage in the order of the units. */
  predicate InOrder(a: Notice, b: Notice) {
    a != b && (a.FreeUsage? && b.FreeUsage? ==> Position(a.unit) < Position(b.unit))
  }

  method BillingNotices(billing: BillingUsage) returns (notices: seq<Notice>)
    ensures AreTheNotices(billing, notices)
  {
    notices := [];
    if billing.unbilled {
      return;
    }
    var pastDue := billing.plan.Payg? && billing.payment.PastDue?;
    if pastDue {
      notices := [PaymentFailed];
    }
    if billing.plan.Free? || pastDue {
      for i := 0 to |UNITS|
        invariant PaymentFailed in notices <==> pastDue
        invariant PaymentFailed in notices ==> notices[0] == PaymentFailed
        invariant forall unit, percent :: FreeUsage(unit, percent) in notices <==>
                    unit in UNITS[..i] && FreePercent(billing.used.Of(unit), FREE_USAGE.Of(unit)) == Some(percent)
        invariant forall percent :: BillingCap(percent) !in notices
        invariant forall j, k :: 0 <= j < k < |notices| ==> InOrder(notices[j], notices[k])
        invariant forall j :: 0 <= j < |notices| && notices[j].FreeUsage? ==> Position(notices[j].unit) < i
      {
        var unit := UNITS[i];
        var free, used := FREE_USAGE.Of(unit), billing.used.Of(unit);
        assert UNITS[..i + 1] == UNITS[..i] + [unit] && Position(unit) == i;
        if free <= 0.0 {
          continue;
        }
        if used >= free {
          notices := notices + [FreeUsage(unit, 100)];
        } else if AtEightyPercent(used, free) {
          notices := notices + [FreeUsage(unit, 80)];
        }
      }
      forall unit: Unit ensures unit in UNITS[..|UNITS|] {
        assert UNITS[..|UNITS|][Position(unit)] == unit;
      }
      return;
    }
    if billing.billingCap.Some? {
      var notice := CapNotice(billing, billing.billingCap.value);
      if notice.Some? {
        notices := notices + [notice.value];
      }
    }
  }

  /**
   The notices and the refusals cannot disagree, in any state: the 100% notice of the cap is there exactly when the cap
   refuses some unit, that of a unit's free usage exactly when its limit refuses it (a unit with free usage), and an
   unbilled org has neither. The cap's 80% notice is there from 80% of a cap that refuses nothing yet, and that of a
   unit's free usage from 80% of what its limit does not refuse yet: 20,000 requests, 0.8 browser hours. A failed
   payment is noticed on Pay as you go.
   */
  lemma NoticesAgreeWithRefusals(calendar: Calendar, s: State, now: int, notices: seq<Notice>)
    requires AreTheNotices(UsageOf(calendar, s, now), notices)
    ensures BillingCap(100) in notices <==>
            exists unit :: LimitOf(calendar, s, unit, now).Some? &&
                           LimitOf(calendar, s, unit, now).value.limit == BillingCapLimit
    ensures forall unit :: FREE_USAGE.Of(unit) > 0.0 ==>
              (FreeUsage(unit, 100) in notices <==>
               LimitOf(calendar, s, unit, now).Some? && LimitOf(calendar, s, unit, now).value.limit == UnitLimit(unit))
    ensures BillingCap(80) in notices <==>
            && LimitsPlan(s).Payg? && !s.unbilled && s.cap.Some? && ToMicros(s.cap.value) > 0
            && 5.0 * BillMicros(UsedIn(s.usage, calendar(now).start)) >= 4.0 * ToMicros(s.cap.value) as real
            && forall unit :: LimitOf(calendar, s, unit, now).None?
    ensures FreeUsage(Requests, 80) in notices <==>
            IsHeldToFree(s) && 20000.0 <= At(s.usage, Key(calendar(now).start, Requests)) < 25000.0
    ensures FreeUsage(BrowserHours, 80) in notices <==>
            IsHeldToFree(s) && 0.8 <= At(s.usage, Key(calendar(now).start, BrowserHours)) < 1.0
    ensures forall percent :: FreeUsage(ComputerHours, percent) !in notices
    ensures forall unit, percent :: FreeUsage(unit, percent) in notices ==> percent == 80 || percent == 100
    ensures PaymentFailed in notices <==> !s.unbilled && s.plan.Payg? && s.account.payment.PastDue?
    ensures s.unbilled ==> notices == [] && forall unit :: LimitOf(calendar, s, unit, now).None?
  {
    var billing := UsageOf(calendar, s, now);
    assert !s.unbilled ==> (HeldToFree(billing) <==> LimitsPlan(s).Free?);
    assert (forall unit :: LimitOf(calendar, s, unit, now).None?) ==>
        LimitOf(calendar, s, Requests, now).None? && LimitOf(calendar, s, BrowserHours, now).None?
        && LimitOf(calendar, s, ComputerHours, now).None?;
    if s.cap.Some? && BillingCap(100) in notices {
      var unit :| CapRefuses(billing.used, s.cap.value, unit);
      assert LimitOf(calendar, s, unit, now).value.limit == BillingCapLimit;
    }
  }
}
