/**
 The price of a month's use and when the cap refuses more (packages/billing/src/bill.ts). Amounts are micro-dollars;
 hours are reals, so no rounding is modelled except that of a cap to whole micro-dollars.
 */
module Bill {
  import opened Plan

  const MICROS := 1000000.0

  const DEFAULT_BILLING_CAP := 50.0

  /** Micro-dollars per unit above free usage. */
  function RateMicros(unit: Unit): real {
    match unit
    case Requests => 5.0
    case BrowserHours => 150000.0
    case ComputerHours => 150000.0
  }

  /** The least use the cap reckons with: one request, a sixtieth of an hour. */
  function CapStep(unit: Unit): real {
    match unit
    case Requests => 1.0
    case BrowserHours => 1.0 / 60.0
    case ComputerHours => 1.0 / 60.0
  }

  /** Dollars as a whole number of micro-dollars, never more than half of one off, and upwards when exactly that. */
  function ToMicros(dollars: real): (micros: int)
    ensures dollars * MICROS - 0.5 < micros as real <= dollars * MICROS + 0.5
  {
    (dollars * MICROS + 0.5).Floor
  }

  /** The reduce over the units, from `sum`. */
  function AddBills(used: Usage, units: seq<Unit>, sum: real): real {
    if units == [] then sum
    else
      AddBills(used, units[1..], sum + Max(0.0, used.Of(units[0]) - FREE_USAGE.Of(units[0])) * RateMicros(units[0]))
  }

  function BillMicros(used: Usage): real {
    AddBills(used, UNITS, 0.0)
  }

  /** The guard on one more `CapStep` of a unit whose free amount is gone, under a cap in dollars. */
  predicate CapRefuses(used: Usage, cap: real, unit: Unit) {
    && used.Of(unit) >= FREE_USAGE.Of(unit)
    && BillMicros(used) + RateMicros(unit) * CapStep(unit) > ToMicros(cap) as real
  }

  /** The bill, unit by unit: 5 micro-dollars a request and 150,000 an hour, of what is above free usage only. */
  lemma BillIsTheSumOverUnits(used: Usage)
    ensures BillMicros(used) ==
            5.0 * Max(0.0, used.requests - 25000.0)
            + 150000.0 * Max(0.0, used.browserHours - 1.0)
            + 150000.0 * Max(0.0, used.computerHours)
  {
    var second, third := UNITS[1..], UNITS[1..][1..];
    assert UNITS[0] == Requests && second[0] == BrowserHours && third[0] == ComputerHours && third[1..] == [];
    var requests := 0.0 + Max(0.0, used.Of(Requests) - FREE_USAGE.Of(Requests)) * RateMicros(Requests);
    var browser :=
      requests + Max(0.0, used.Of(BrowserHours) - FREE_USAGE.Of(BrowserHours)) * RateMicros(BrowserHours);
    var computer :=
      browser + Max(0.0, used.Of(ComputerHours) - FREE_USAGE.Of(ComputerHours)) * RateMicros(ComputerHours);
    assert AddBills(used, third[1..], computer) == computer;
    assert AddBills(used, third, browser) == AddBills(used, third[1..], computer);
    assert AddBills(used, second, requests) == AddBills(used, third, browser);
    assert AddBills(used, UNITS, 0.0) == AddBills(used, second, requests);
  }

  /** The month's use with one `CapStep` more, counted as metering counts it: a minute is 60,000 ms. */
  function OneMore(used: Usage, unit: Unit): Usage {
    match unit
    case Requests => used.(requests := used.requests + 1.0)
    case BrowserHours => used.(browserHours := used.browserHours + 60000.0 / MS_PER_HOUR)
    case ComputerHours => used.(computerHours := used.computerHours + 60000.0 / MS_PER_HOUR)
  }

  /** The cap refuses exactly the use that would be billed and whose bill would be past the cap. */
  lemma CapRefusesExactlyWhatWouldPassIt(used: Usage, cap: real, unit: Unit)
    ensures CapRefuses(used, cap, unit) <==>
            used.Of(unit) >= FREE_USAGE.Of(unit) && BillMicros(OneMore(used, unit)) > ToMicros(cap) as real
  {
    BillIsTheSumOverUnits(used);
    BillIsTheSumOverUnits(OneMore(used, unit));
  }

  predicate NoLess(a: Usage, b: Usage) {
    forall unit :: a.Of(unit) <= b.Of(unit)
  }

  /** More use never bills less, and a use the cap refuses stays refused after more use. */
  lemma CapRefusalsAreMonotone(a: Usage, b: Usage, cap: real, unit: Unit)
    requires NoLess(a, b)
    ensures BillMicros(a) <= BillMicros(b)
    ensures CapRefuses(a, cap, unit) ==> CapRefuses(b, cap, unit)
  {
    BillIsTheSumOverUnits(a);
    BillIsTheSumOverUnits(b);
    assert a.Of(Requests) <= b.Of(Requests);
    assert a.Of(BrowserHours) <= b.Of(BrowserHours);
    assert a.Of(ComputerHours) <= b.Of(ComputerHours);
  }
}
