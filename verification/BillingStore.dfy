/**
 The store of an org's billing (packages/billing/src/store.ts): a class over the tables, with the loops its methods run
 over rows and events, each proved to do what `Ledger` says on the value the tables stand for.
 */
module BillingStore {
  import opened Plan
  import opened Bill
  import opened Ledger
  import Text
  import RateWindows

  // ---- meter events ----

  /** One event of a batch; `externalId` is what the provider knows it by. */
  datatype MeterEvent = MeterEvent(unit: Unit, monthStart: int, amount: real, externalId: string)

  /** The row of the batch on its way. */
  datatype StoredBatch = StoredBatch(id: string, customerId: string, events: seq<MeterEvent>)

  function KeyOf(event: MeterEvent): Key {
    Key(event.monthStart, event.unit)
  }

  function UnitText(unit: Unit): string {
    match unit
    case Requests => "requests"
    case BrowserHours => "browserHours"
    case ComputerHours => "computerHours"
  }

  function ExternalId(id: string, key: Key): string {
    id + [':'] + (Text.Decimal(key.month) + [':'] + UnitText(key.unit))
  }

  /** A UUID, for what matters here: no colon. */
  predicate IsBatchId(id: string) {
    ':' !in id
  }

  /**
   An external id belongs to one batch, month and unit only, so the provider's ignoring a repeat loses nothing else.
   */
  lemma ExternalIdsAreUnique(id: string, key: Key, other: string, otherKey: Key)
    requires IsBatchId(id) && IsBatchId(other)
    ensures ExternalId(id, key) == ExternalId(other, otherKey) <==> id == other && key == otherKey
  {
    if ExternalId(id, key) == ExternalId(other, otherKey) {
      var a, b := Text.Decimal(key.month), Text.Decimal(otherKey.month);
      Text.FirstSeparatorDecides(
        id, a + [':'] + UnitText(key.unit), other, b + [':'] + UnitText(otherKey.unit), ':');
      Text.FirstSeparatorDecides(a, UnitText(key.unit), b, UnitText(otherKey.unit), ':');
      Text.DecimalReadsBack(key.month);
      Text.DecimalReadsBack(otherKey.month);
      assert UnitText(key.unit)[0] == UnitText(otherKey.unit)[0];
    }
  }

  /** The order of units in text: browserHours, computerHours, requests. */
  function Rank(unit: Unit): int {
    match unit
    case BrowserHours => 0
    case ComputerHours => 1
    case Requests => 2
  }

  lemma UnitsAreInTextOrder(a: Unit, b: Unit)
    ensures Rank(a) < Rank(b) <==> UnitText(a)[0] < UnitText(b)[0]
  {
  }

  /** `ORDER BY month_start, unit`. */
  predicate Before(a: Key, b: Key) {
    a.month < b.month || (a.month == b.month && Rank(a.unit) < Rank(b.unit))
  }

  predicate Ascending(keys: seq<Key>) {
    forall i, j :: 0 <= i < j < |keys| ==> Before(keys[i], keys[j])
  }

  function Keys(events: seq<MeterEvent>): (keys: seq<Key>)
    ensures |keys| == |events| && forall i :: 0 <= i < |keys| ==> keys[i] == KeyOf(events[i])
  {
    seq(|events|, i requires 0 <= i < |events| => KeyOf(events[i]))
  }

  /** The events as a table; a batch has one event per key. */
  function Amounts(events: seq<MeterEvent>): map<Key, real> {
    if events == [] then map[]
    else
      var last := events[|events| - 1];
      Amounts(events[..|events| - 1])[KeyOf(last) := last.amount]
  }

  lemma {:induction false} AmountsAreTheEvents(events: seq<MeterEvent>)
    ensures forall key :: key in Amounts(events) <==> key in Keys(events)
    ensures Ascending(Keys(events)) ==>
              forall i :: 0 <= i < |events| ==> Amounts(events)[KeyOf(events[i])] == events[i].amount
  {
    if events != [] {
      var before := events[..|events| - 1];
      AmountsAreTheEvents(before);
      assert Keys(events) == Keys(before) + [KeyOf(events[|events| - 1])];
    }
  }

  /** What a batch carries of a key: its events of the key, added up. */
  function SumOf(events: seq<MeterEvent>, key: Key): real {
    if events == [] then 0.0
    else
      var last := events[|events| - 1];
      SumOf(events[..|events| - 1], key) + (if KeyOf(last) == key then last.amount else 0.0)
  }

  lemma {:induction false} SumIsTheAmount(events: seq<MeterEvent>, key: Key)
    requires Ascending(Keys(events))
    ensures SumOf(events, key) == At(Amounts(events), key)
  {
    if events != [] {
      var before := events[..|events| - 1];
      assert Keys(events)[..|before|] == Keys(before);
      SumIsTheAmount(before, key);
      AmountsAreTheEvents(before);
      assert forall i :: 0 <= i < |before| ==> Before(Keys(events)[i], Keys(events)[|before|]);
    }
  }

  // ---- rows in order ----

  /** The least key of some rows. */
  method Least(keys: set<Key>) returns (least: Key)
    requires keys != {}
    ensures least in keys && forall key :: key in keys && key != least ==> Before(least, key)
  {
    least :| least in keys;
    var todo := keys - {least};
    while todo != {}
      invariant least in keys && todo < keys && least !in todo
      invariant forall key :: key in keys && key !in todo && key != least ==> Before(least, key)
      decreases todo
    {
      var key :| key in todo;
      if Before(key, least) {
        least := key;
      }
      todo := todo - {key};
    }
  }

  /** The keys of the rows of the months before `until`, in order. */
  method SelectRows(table: map<Key, real>, until: int) returns (rows: seq<Key>)
    ensures Ascending(rows)
    ensures forall key :: key in rows <==> key in table && key.month < until
  {
    rows := [];
    var todo := set key | key in table && key.month < until;
    while todo != {}
      invariant Ascending(rows)
      invariant forall key :: key in todo ==> key in table && key.month < until
      invariant forall key :: key in rows || key in todo <==> key in table && key.month < until
      invariant forall i, key :: 0 <= i < |rows| && key in todo ==> Before(rows[i], key)
      decreases todo
    {
      var least := Least(todo);
      rows, todo := rows + [least], todo - {least};
    }
  }

  class Store {
    const calendar: Calendar
    var plan: Plan
    var usage: map<Key, real>
    var account: Account
    var sent: map<Key, real>
    var batch: Option<StoredBatch>
    var cap: Option<real>
    var unbilled: bool
    var raised: Raised
    /** Not a table: a restart forgets it. */
    var rate: RateWindows.Window

    ghost predicate Valid()
      reads this
    {
      batch.Some? ==>
        var stored := batch.value;
        && IsBatchId(stored.id)
        && Ascending(Keys(stored.events))
        && forall i :: 0 <= i < |stored.events| ==>
             stored.events[i].externalId == ExternalId(stored.id, KeyOf(stored.events[i]))
    }

    /** What the tables stand for. */
    ghost function Value(): State
      reads this
    {
      State(plan, usage, account, sent, ValueOf(batch), cap, unbilled, raised)
    }

    static ghost function ValueOf(stored: Option<StoredBatch>): Option<Batch> {
      if stored.None? then None
      else Some(Batch(stored.value.id, stored.value.customerId, Amounts(stored.value.events)))
    }

    constructor (calendar: Calendar)
      ensures Valid() && Value() == EMPTY && rate == RateWindows.Window(0, 0) && this.calendar == calendar
      ensures plan == Free && usage == map[] && sent == map[] && batch == None && cap == Some(50.0) && !unbilled
      ensures account == Account(None, None, None, Okay, 0) && raised == Raised(None, None, None)
    {
      this.calendar := calendar;
      plan, usage, account, sent, batch := Free, map[], NO_ACCOUNT, map[], None;
      cap, unbilled, raised := Some(DEFAULT_BILLING_CAP), false, Raised(None, None, None);
      rate := RateWindows.Window(0, 0);
    }

    // ---- the ledger ----

    /** One pass over the usage rows, raising each row's sent amount to what `WrittenOff` gives. */
    method WriteOffUnsent()
      requires Valid()
      modifies this`sent
      ensures Valid() && Value() == WriteOff(old(Value()))
    {
      ghost var before := Value();
      var events := if batch.Some? then batch.value.events else [];
      var todo := usage.Keys;
      while todo != {}
        modifies this`sent
        invariant todo <= usage.Keys
        invariant sent.Keys == before.sent.Keys + (usage.Keys - todo)
        invariant forall key :: key in sent ==>
                    sent[key] == if key in usage && key !in todo then WrittenOff(before, key) else before.sent[key]
        decreases todo
      {
        var key :| key in todo;
        var onItsWay := SumOf(events, key);
        SumIsTheAmount(events, key);
        var off := Max(0.0, Max(0.0, usage[key] - FREE_USAGE.Of(key.unit)) - onItsWay);
        sent := sent[key := if key in sent then Max(sent[key], off) else off];
        todo := todo - {key};
      }
    }

    /** Makes one event per owed key, in row order, and keeps them in the batch row; None when no key owes. */
    method NewBatch(until: int, id: string) returns (made: Option<StoredBatch>)
      requires Valid() && batch.None? && IsBatchId(id)
      modifies this`sent, this`batch
      ensures Valid() && Value() == Ledger.NewBatch(old(Value()), until, id)
      ensures made == batch
    {
      made := None;
      if unbilled {
        WriteOffUnsent();
        return;
      }
      if account.customerId.None? {
        return;
      }
      ghost var before := Value();
      var rows := SelectRows(usage, until);
      var events: seq<MeterEvent> := [];
      for i := 0 to |rows|
        invariant Keys(events) == OwedKeys(before, rows[..i])
        invariant forall j :: 0 <= j < |events| ==>
                    && events[j].externalId == ExternalId(id, KeyOf(events[j]))
                    && events[j].amount == Unsent(before, KeyOf(events[j]))
      {
        var unsent := Max(0.0, usage[rows[i]] - FREE_USAGE.Of(rows[i].unit)) - At(sent, rows[i]);
        assert rows[..i + 1][..i] == rows[..i];
        if unsent > SEND_EPSILON {
          events := events + [MeterEvent(rows[i].unit, rows[i].month, unsent, ExternalId(id, rows[i]))];
        }
      }
      assert rows[..|rows|] == rows;
      EventsAreOwed(before, rows, events, until);
      if events != [] {
        made := Some(StoredBatch(id, account.customerId.value, events));
        batch := made;
      }
    }

    /** The keys of `rows` with more than rounding to send, in their order. */
    static ghost function OwedKeys(s: State, rows: seq<Key>): seq<Key> {
      if rows == [] then []
      else
        var last := rows[|rows| - 1];
        OwedKeys(s, rows[..|rows| - 1]) + (if Unsent(s, last) > SEND_EPSILON then [last] else [])
    }

    static lemma {:induction false} OwedKeysAscend(s: State, rows: seq<Key>)
      requires Ascending(rows)
      ensures Ascending(OwedKeys(s, rows))
      ensures forall key :: key in OwedKeys(s, rows) <==> key in rows && Unsent(s, key) > SEND_EPSILON
    {
      if rows != [] {
        var before := rows[..|rows| - 1];
        OwedKeysAscend(s, before);
        assert rows == before + [rows[|rows| - 1]];
        assert forall i :: 0 <= i < |before| ==> Before(rows[i], rows[|before|]);
        assert forall key :: key in before ==> Before(key, rows[|before|]);
      }
    }

    static lemma {:induction false} EventsAreOwed(s: State, rows: seq<Key>, events: seq<MeterEvent>, until: int)
      requires Ascending(rows) && forall key :: key in rows <==> key in s.usage && key.month < until
      requires Keys(events) == OwedKeys(s, rows)
      requires forall j :: 0 <= j < |events| ==> events[j].amount == Unsent(s, KeyOf(events[j]))
      ensures Ascending(Keys(events)) && Amounts(events) == NewAmounts(s, until)
      ensures events == [] <==> NewAmounts(s, until) == map[]
    {
      OwedKeysAscend(s, rows);
      forall key ensures key in Keys(events) <==> key in NewAmounts(s, until) {
        assert key in OwedKeys(s, rows) <==> key in rows && Unsent(s, key) > SEND_EPSILON;
      }
      AmountsAre(events, NewAmounts(s, until));
      if events != [] {
        assert Keys(events)[0] in NewAmounts(s, until);
      }
    }

    static lemma {:induction false} AmountsAre(events: seq<MeterEvent>, table: map<Key, real>)
      requires Ascending(Keys(events)) && forall key :: key in Keys(events) <==> key in table
      requires forall j :: 0 <= j < |events| ==>
                 KeyOf(events[j]) in table ==> events[j].amount == table[KeyOf(events[j])]
      ensures Amounts(events) == table
    {
      AmountsAreTheEvents(events);
      forall key | key in table ensures Amounts(events)[key] == table[key] {
        var j :| 0 <= j < |events| && Keys(events)[j] == key;
        assert Amounts(events)[KeyOf(events[j])] == events[j].amount;
      }
    }

    /** A last batch unless the row is taken, and a pass that settles every key. */
    method CloseUsage(id: string)
      requires Valid() && IsBatchId(id)
      modifies this`sent, this`batch
      ensures Valid() && Value() == Ledger.CloseUsage(old(Value()), id)
    {
      if batch.None? {
        var _ := NewBatch(EVERY_MONTH, id);
      }
      WriteOffUnsent();
    }

    /** Answers the batch row, made now when it is empty and the plan is Pay as you go. */
    method MeterBatch(now: int, id: string) returns (answer: Option<StoredBatch>)
      requires Valid() && IsBatchId(id)
      modifies this`sent, this`batch
      ensures Valid() && Value() == Take(calendar, old(Value()), now, id)
      ensures answer == batch && ValueOf(answer) == Taken(calendar, old(Value()), now, id)
    {
      if batch.Some? {
        return batch;
      }
      if !unbilled && plan.Free? {
        return None;
      }
      answer := NewBatch(calendar(now).end, id);
    }

    static lemma {:induction false} AddsOne(table: map<Key, real>, events: seq<MeterEvent>)
      requires events != [] && Ascending(Keys(events))
      ensures var last := events[|events| - 1];
              var before := AddAll(table, Amounts(events[..|events| - 1]));
              AddAll(table, Amounts(events)) == before[KeyOf(last) := At(before, KeyOf(last)) + last.amount]
    {
      var n := |events| - 1;
      LastKeyIsNew(events);
      AddAllPut(table, Amounts(events[..n]), KeyOf(events[n]), events[n].amount);
    }

    static lemma AddAllPut(table: map<Key, real>, amounts: map<Key, real>, key: Key, amount: real)
      requires key !in amounts
      ensures AddAll(table, amounts[key := amount]) ==
              AddAll(table, amounts)[key := At(AddAll(table, amounts), key) + amount]
    {
    }

    static lemma {:induction false} LastKeyIsNew(events: seq<MeterEvent>)
      requires events != [] && Ascending(Keys(events))
      ensures KeyOf(events[|events| - 1]) !in Amounts(events[..|events| - 1])
    {
      var n := |events| - 1;
      AmountsAreTheEvents(events[..n]);
      assert forall j :: 0 <= j < n ==> Before(Keys(events)[j], Keys(events)[n]);
      assert KeyOf(events[n]) !in Keys(events[..n]);
    }

    method CountAsSent(events: seq<MeterEvent>)
      requires Ascending(Keys(events))
      modifies this`sent
      ensures sent == AddAll(old(sent), Amounts(events))
    {
      ghost var before := sent;
      for i := 0 to |events|
        modifies this`sent
        invariant sent == AddAll(before, Amounts(events[..i]))
      {
        assert events[..i + 1][..i] == events[..i];
        AddsOne(before, events[..i + 1]);
        var key := KeyOf(events[i]);
        assert events[..i + 1][i] == events[i];
        sent := sent[key := (if key in sent then sent[key] else 0.0) + events[i].amount];
      }
      assert events[..|events|] == events;
    }

    /** The provider took the batch `id`; any other id changes nothing. */
    method MeterBatchSent(id: string)
      requires Valid()
      modifies this`sent, this`batch
      ensures Valid() && Value() == Acknowledge(old(Value()), id)
    {
      if batch.None? || batch.value.id != id {
        return;
      }
      CountAsSent(batch.value.events);
      batch := None;
    }

    // ---- use ----

    method Add(key: Key, amount: real)
      modifies this`usage
      ensures Value() == Ledger.Add(old(Value()), key, amount)
    {
      usage := usage[key := if key in usage then Max(0.0, usage[key] + amount) else Max(0.0, amount)];
    }

    /** What the org used in a month; units never counted read 0. */
    method Used(monthStart: int) returns (used: Usage)
      ensures forall unit :: used.Of(unit) == At(usage, Key(monthStart, unit))
    {
      var requests, browser, computer :=
        Key(monthStart, Requests), Key(monthStart, BrowserHours), Key(monthStart, ComputerHours);
      used := Usage(
        if requests in usage then usage[requests] else 0.0,
        if browser in usage then usage[browser] else 0.0,
        if computer in usage then usage[computer] else 0.0);
    }

    /** Reads one month's counters and answers the first limit that is reached, if any. */
    method LimitOf(unit: Unit, now: int) returns (limit: Option<PlanLimit>)
      ensures limit == Ledger.LimitOf(calendar, Value(), unit, now)
    {
      var month := calendar(now);
      var used := Used(month.start);
      assert used == UsedIn(usage, month.start) by {
        assert used.Of(Requests) == used.requests && used.Of(BrowserHours) == used.browserHours
            && used.Of(ComputerHours) == used.computerHours;
      }
      var held := !unbilled && plan.Payg? && account.payment.PastDue?;
      var retry := RetryAfterSeconds(month.end, now);
      if (held || (!unbilled && plan.Free?)) && used.Of(unit) >= FREE_USAGE.Of(unit) {
        return Some(PlanLimit(UnitLimit(unit), FREE_USAGE.Of(unit), month.end, retry, held));
      }
      if !held && !unbilled && plan.Payg? && cap.Some? && CapRefuses(used, cap.value, unit) {
        return Some(PlanLimit(BillingCapLimit, cap.value, month.end, retry, false));
      }
      return None;
    }

    /** A request starts being served: counted, or refused and not counted. */
    method Admit(now: int) returns (admission: Admission)
      modifies this`usage
      ensures Value() == Ledger.Admit(calendar, old(Value()), now)
      ensures match Ledger.LimitOf(calendar, old(Value()), Requests, now)
              case Some(limit) => admission == Refused(limit)
              case None => admission == Counted(calendar(now).start)
    {
      var limit := LimitOf(Requests, now);
      if limit.Some? {
        return Refused(limit.value);
      }
      Add(Key(calendar(now).start, Requests), 1.0);
      return Counted(calendar(now).start);
    }

    /** Undoes one `Admit` of the month it answered. */
    method Refund(monthStart: int)
      modifies this`usage
      ensures Value() == Ledger.Refund(old(Value()), monthStart)
    {
      Add(Key(monthStart, Requests), -1.0);
    }

    /** Counts time whatever the limits say. */
    method AddTime(unit: Unit, ms: real, now: int)
      requires !unit.Requests?
      modifies this`usage
      ensures Value() == Ledger.AddTime(calendar, old(Value()), unit, ms, now)
    {
      if ms > 0.0 {
        Add(Key(calendar(now).start, unit), ms / MS_PER_HOUR);
      }
    }

    /** Counts a request against the raised request rate, in one-minute windows. */
    method AdmitRate(now: int) returns (admitted: bool)
      modifies this`rate
      ensures (rate, admitted) == RateWindows.Count(old(rate), CeilingsOf(Value()).requestRate, now)
    {
      var start := now / RATE_WINDOW_MS * RATE_WINDOW_MS;
      if start > rate.start {
        rate := RateWindows.Window(start, 0);
      }
      var ceilings := ReadCeilings();
      if rate.count >= ceilings.requestRate {
        return false;
      }
      rate := rate.(count := rate.count + 1);
      return true;
    }

    method ReadCeilings() returns (ceilings: Ceilings)
      ensures ceilings == CeilingsOf(Value())
    {
      var limits := if unbilled then Payg else if plan.Payg? && account.payment.PastDue? then Free else plan;
      var own := PlanCeilings(limits);
      ceilings := Ceilings(
        Raise(own.browserSessions, raised.browserSessions),
        Raise(own.computers, raised.computers),
        Raise(own.requestRate, raised.requestRate));
    }

    // ---- the account ----

    method SetCustomer(customerId: string)
      requires Valid()
      modifies this`account
      ensures Valid() && Value() == Ledger.SetCustomer(old(Value()), customerId)
    {
      account := account.(customerId := Some(customerId));
    }

    /** Drops the report or takes it up; `changed` tells whether anything an owner sees differs. */
    method ApplySubscription(change: Change, id: string) returns (changed: bool)
      requires Valid() && IsBatchId(id)
      modifies this`account, this`plan, this`sent, this`batch
      ensures Valid() && Value() == Apply(old(Value()), change, id)
      ensures changed == Changed(old(Value()), change)
    {
      if change.changedAt < account.changedAt {
        return false;
      }
      if !change.status.Active? && account.endedSubscriptionId == Some(change.subscriptionId) {
        return false;
      }
      var current := account.subscriptionId;
      if !change.status.Active? && current.Some? && current.value != change.subscriptionId {
        return false;
      }
      if change.status.Ended? && current.None? {
        return false;
      }
      var ended := change.status.Ended?;
      var next := Account(
        if account.customerId.Some? then account.customerId else Some(change.customerId),
        if ended then None else Some(change.subscriptionId),
        if ended then Some(change.subscriptionId)
        else if Some(change.subscriptionId) == account.endedSubscriptionId then None
        else account.endedSubscriptionId,
        if change.status.PastDueStatus? then PastDue else Okay,
        change.changedAt);
      var before, after := plan, if ended then Free else Payg;
      changed := after != before || next.customerId != account.customerId
        || next.subscriptionId != account.subscriptionId || next.payment != account.payment;
      account, plan := next, after;
      if ended {
        CloseUsage(id);
      } else if before.Free? {
        WriteOffUnsent();
      }
    }

    /** Free at once, with the last batch made; the caller cancels the subscription it answers. */
    method EndSubscription(now: int, id: string) returns (cancel: Option<string>)
      requires Valid() && IsBatchId(id)
      modifies this`account, this`plan, this`sent, this`batch
      ensures Valid() && Value() == Ledger.EndSubscription(old(Value()), now, id)
      ensures cancel == old(account.subscriptionId)
    {
      cancel := account.subscriptionId;
      account := account.(
        subscriptionId := None,
        endedSubscriptionId := if cancel.Some? then cancel else account.endedSubscriptionId,
        payment := Okay,
        changedAt := if account.changedAt < now then now else account.changedAt);
      plan := Free;
      CloseUsage(id);
    }

    /** Settles the ledger and flips the mark, or leaves both alone when the mark is already so. */
    method SetUnbilled(unbilled: bool, id: string)
      requires Valid() && IsBatchId(id)
      modifies this`unbilled, this`sent, this`batch
      ensures Valid() && Value() == Ledger.SetUnbilled(old(Value()), unbilled, id)
    {
      if this.unbilled == unbilled {
        return;
      }
      if unbilled && plan.Payg? {
        CloseUsage(id);
      } else {
        WriteOffUnsent();
      }
      this.unbilled := unbilled;
    }

    method SetBillingCap(cap: Option<real>)
      requires Valid()
      modifies this`cap
      ensures Valid() && Value() == old(Value()).(cap := cap)
    {
      this.cap := cap;
    }
  }
}
