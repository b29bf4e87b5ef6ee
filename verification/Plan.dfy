/**
 Plans, units, free usage and the ceilings of an org (packages/billing/src/plan.ts), and the calendar a plan counts in
 (packages/billing/src/month.ts), of which only what the rest relies on is kept.
 */
module Plan {

  datatype Option<+T> = None | Some(value: T)

  datatype Plan = Free | Payg

  datatype Payment = Okay | PastDue

  datatype Unit = Requests | BrowserHours | ComputerHours

  /** The primary key of the usage and sent tables: the start of a month and a unit. */
  datatype Key = Key(month: int, unit: Unit)

  /** An amount of each unit. */
  datatype Usage = Usage(requests: real, browserHours: real, computerHours: real) {
    function Of(unit: Unit): real {
      match unit
      case Requests => requests
      case BrowserHours => browserHours
      case ComputerHours => computerHours
    }
  }

  const UNITS: seq<Unit> := [Requests, BrowserHours, ComputerHours]

  const FREE_USAGE := Usage(25000.0, 1.0, 0.0)

  const MS_PER_HOUR := 3600000.0

  const RATE_WINDOW_MS := 60000

  /** How much of a shared thing one org may hold at once, or ask for in a minute. */
  datatype Ceilings = Ceilings(browserSessions: int, computers: int, requestRate: int)

  /** Ceilings set for one org; None leaves it to the plan. */
  datatype Raised = Raised(browserSessions: Option<int>, computers: Option<int>, requestRate: Option<int>)

  function PlanCeilings(plan: Plan): Ceilings {
    match plan
    case Free => Ceilings(1, 0, 60)
    case Payg => Ceilings(5, 3, 600)
  }

  /** `amount ?? 0` of a row of the usage or sent table. */
  function At(table: map<Key, real>, key: Key): real {
    if key in table then table[key] else 0.0
  }

  function Max(a: real, b: real): real {
    if a < b then b else a
  }

  datatype Month = Month(start: int, end: int)

  /** Months are half-open, contain the time they are asked for, and every time in one has the same month. */
  ghost predicate IsCalendar(monthOf: int -> Month) {
    forall t, u {:trigger monthOf(t), monthOf(u)} ::
      monthOf(t).start <= t < monthOf(t).end && (monthOf(t).start <= u < monthOf(t).end ==> monthOf(u) == monthOf(t))
  }

  type Calendar = monthOf: int -> Month | IsCalendar(monthOf)
    witness ((t: int) => Month(t, t + 1))

  /** Months are contiguous: the end of one is the start of the next. */
  lemma MonthsAreContiguous(calendar: Calendar, t: int)
    ensures calendar(calendar(t).end).start == calendar(t).end
  {
    var next := calendar(calendar(t).end);
    var last := calendar(t).end - 1;
    assert calendar(last) == calendar(t);
    assert next.start <= last < next.end ==> calendar(last) == next;
  }
}
