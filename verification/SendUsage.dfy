/**
 `sendUsage` (packages/billing/src/send-usage.ts) over the store and a provider, and that what it does is a run of the
 protocol in SendUsageRuns.dfy: so what holds in every run there holds of the class.
 */
module SendUsage {
  import opened Plan
  import opened Ledger
  import opened BillingStore
  import opened SendUsageRuns

  function Ids(events: seq<MeterEvent>): set<string> {
    set i | 0 <= i < |events| :: events[i].externalId
  }

  predicate DistinctIds(events: seq<MeterEvent>) {
    forall i, j :: 0 <= i < j < |events| ==> events[i].externalId != events[j].externalId
  }

  /** What events add to a key's total, when those in `seen` are ignored. */
  function SumOfNew(seen: set<string>, events: seq<MeterEvent>, key: Key): real {
    if events == [] then 0.0
    else
      var last := events[|events| - 1];
      SumOfNew(seen, events[..|events| - 1], key)
      + (if KeyOf(last) == key && last.externalId !in seen then last.amount else 0.0)
  }

  /** The billing provider: it takes each event at most once, by its id, and sums amounts per unit and month. */
  class Provider {
    var seen: set<string>
    var total: map<Key, real>

    constructor ()
      ensures seen == {} && total == map[]
    {
      seen, total := {}, map[];
    }

    /**
     A request with some events. How many of them the provider takes before it fails, and whether its answer arrives, is
     up to it; it answers only when it took them all.
     */
    method Ingest(events: seq<MeterEvent>, taken: nat, answers: bool) returns (ok: bool)
      requires DistinctIds(events) && taken <= |events|
      modifies this
      ensures ok <==> answers && taken == |events|
      ensures seen == old(seen) + Ids(events[..taken])
      ensures forall key :: At(total, key) == At(old(total), key) + SumOfNew(old(seen), events[..taken], key)
    {
      for i := 0 to taken
        invariant seen == old(seen) + Ids(events[..i])
        invariant forall key :: At(total, key) == At(old(total), key) + SumOfNew(old(seen), events[..i], key)
      {
        assert events[..i + 1][..i] == events[..i];
        assert Ids(events[..i + 1]) == Ids(events[..i]) + {events[i].externalId};
        assert events[i].externalId !in Ids(events[..i]);
        if events[i].externalId !in seen {
          seen := seen + {events[i].externalId};
          total := total[KeyOf(events[i]) := At(total, KeyOf(events[i])) + events[i].amount];
        }
      }
      ok := answers && taken == |events|;
    }
  }

  /** The events are of one batch, one per key. */
  predicate OfBatch(id: string, events: seq<MeterEvent>) {
    && IsBatchId(id)
    && Ascending(Keys(events))
    && forall i :: 0 <= i < |events| ==> events[i].externalId == ExternalId(id, KeyOf(events[i]))
  }

  lemma OfBatchHasDistinctIds(id: string, events: seq<MeterEvent>)
    requires OfBatch(id, events)
    ensures DistinctIds(events)
  {
    forall i, j | 0 <= i < j < |events| ensures events[i].externalId != events[j].externalId {
      assert Before(Keys(events)[i], Keys(events)[j]);
      ExternalIdsAreUnique(id, KeyOf(events[i]), id, KeyOf(events[j]));
    }
  }

  lemma {:induction false} SumOfNewIsTheAmount(id: string, seen: set<string>, events: seq<MeterEvent>, key: Key)
    requires OfBatch(id, events)
    ensures SumOfNew(seen, events, key) == if ExternalId(id, key) in seen then 0.0 else At(Amounts(events), key)
  {
    if events != [] {
      var n := |events| - 1;
      assert Keys(events)[..n] == Keys(events[..n]);
      SumOfNewIsTheAmount(id, seen, events[..n], key);
      AmountsAreTheEvents(events[..n]);
      assert forall i :: 0 <= i < n ==> Before(Keys(events)[i], Keys(events)[n]);
    }
  }

  lemma IdsOfBatch(id: string, events: seq<MeterEvent>, other: string, key: Key)
    requires OfBatch(id, events) && IsBatchId(other)
    ensures ExternalId(other, key) in Ids(events) <==> other == id && key in Amounts(events)
  {
    AmountsAreTheEvents(events);
    forall i | 0 <= i < |events|
      ensures events[i].externalId == ExternalId(other, key) <==> id == other && KeyOf(events[i]) == key
    {
      ExternalIdsAreUnique(id, KeyOf(events[i]), other, key);
    }
    if other == id && key in Amounts(events) {
      var i :| 0 <= i < |events| && Keys(events)[i] == key;
      assert events[i].externalId == ExternalId(other, key);
    }
  }

  lemma {:induction false} FirstEvents(id: string, events: seq<MeterEvent>, taken: nat)
    requires OfBatch(id, events) && taken <= |events|
    ensures OfBatch(id, events[..taken])
    ensures forall key :: key in Amounts(events[..taken]) ==>
              key in Amounts(events) && Amounts(events[..taken])[key] == Amounts(events)[key]
  {
    var some := events[..taken];
    AmountsAreTheEvents(events);
    AmountsAreTheEvents(some);
    assert Keys(some) == Keys(events)[..taken];
    forall key | key in Amounts(some)
      ensures key in Amounts(events) && Amounts(some)[key] == Amounts(events)[key]
    {
      var i :| 0 <= i < |some| && Keys(some)[i] == key;
      assert Keys(events)[i] == key && some[i] == events[i];
      assert Amounts(some)[KeyOf(some[i])] == some[i].amount;
      assert Amounts(events)[KeyOf(events[i])] == events[i].amount;
    }
  }

  /** A provider's ids and totals are those of a state of the protocol. */
  ghost predicate Mirrors(seen: set<string>, total: map<Key, real>, w: World) {
    && (forall key :: At(total, key) == w.total(key))
    && (forall id: string, key :: IsBatchId(id) ==> (ExternalId(id, key) in seen <==> (id, key) in w.seen))
  }

  /** Taking the first events of a sender's batch is the protocol's delivery of their keys. */
  lemma IngestIsDeliver(
    calendar: Calendar, w: World, sender: nat, batch: StoredBatch, taken: nat,
    seen: set<string>, total: map<Key, real>, seen': set<string>, total': map<Key, real>)
    requires OfBatch(batch.id, batch.events) && taken <= |batch.events|
    requires Mirrors(seen, total, w)
    requires sender in w.senders && Some(w.senders[sender].batch) == Store.ValueOf(Some(batch))
    requires seen' == seen + Ids(batch.events[..taken])
    requires forall key :: At(total', key) == At(total, key) + SumOfNew(seen, batch.events[..taken], key)
    ensures Mirrors(seen', total', Next(calendar, w, Deliver(sender, Amounts(batch.events[..taken]).Keys)))
  {
    var some := batch.events[..taken];
    var w' := Next(calendar, w, Deliver(sender, Amounts(some).Keys));
    FirstEvents(batch.id, batch.events, taken);
    forall key ensures At(total', key) == w'.total(key) {
      SumOfNewIsTheAmount(batch.id, seen, some, key);
      assert ExternalId(batch.id, key) in seen <==> (batch.id, key) in w.seen;
    }
    forall id: string, key | IsBatchId(id) ensures ExternalId(id, key) in seen' <==> (id, key) in w'.seen {
      IdsOfBatch(batch.id, some, id, key);
      assert ExternalId(id, key) in seen <==> (id, key) in w.seen;
    }
  }

  /** A call of the org's part: it never arrives, its answer is lost, or it is answered. */
  datatype Reach = Lost | Unheard | Heard

  datatype Outcome = NothingToSend | Failed | Sent

  /** The steps of one sender up to where it fails, from the one that took the batch. */
  predicate AreOfSender(steps: seq<Step>, sender: nat, now: int, id: string) {
    && 1 <= |steps| <= 3
    && steps[0] == Start(sender, now, id)
    && (|steps| >= 2 ==> steps[1].Deliver? && steps[1].sender == sender)
    && (|steps| == 3 ==> steps[2] == Acknowledged(sender))
  }

  /**
   Sends what the org has not sent yet: takes the batch, gives it to the provider and records it as sent. Any of the
   three calls may fail before it arrives or lose its answer. What is done is what one sender of the protocol does, up
   to where it fails; when the batch was taken but the answer lost, only the store has moved.
   */
  method Send(
    store: Store, provider: Provider, now: int, id: string, take: Reach, accepts: nat, answers: bool, record: Reach,
    ghost w: World, ghost sender: nat)
    returns (outcome: Outcome, ghost steps: seq<Step>)
    requires store.Valid() && store.Value() == w.store && Mirrors(provider.seen, provider.total, w)
    requires IsBatchId(id) && Enabled(w, Start(sender, now, id))
    modifies store`sent, store`batch, provider
    ensures Possible(store.calendar, w, steps)
    ensures store.Valid() && store.Value() == After(store.calendar, w, steps).store
    ensures Mirrors(provider.seen, provider.total, After(store.calendar, w, steps))
    ensures match take
            case Lost => steps == [] && outcome == Failed
            case Unheard => steps == [Call(OpTake(now, id))] && outcome == Failed
            case Heard =>
              && AreOfSender(steps, sender, now, id)
              && var batch := Taken(store.calendar, w.store, now, id);
              && (batch.None? <==> |steps| == 1) && (outcome == NothingToSend <==> batch.None?)
              && (|steps| == 2 ==>
                    outcome == Failed && (record.Lost? || !answers || steps[1].keys != batch.value.amounts.Keys))
              && (|steps| == 3 ==>
                    answers && steps[1].keys == batch.value.amounts.Keys &&
                    outcome == if record.Heard? then Sent else Failed)
  {
    ghost var calendar := store.calendar;
    steps := [];
    if take.Lost? {
      outcome := Failed;
      return;
    }
    var batch := store.MeterBatch(now, id);
    if take.Unheard? {
      OneStep(calendar, w, Call(OpTake(now, id)));
      steps := [Call(OpTake(now, id))];
      outcome := Failed;
      return;
    }
    if batch.None? {
      OneStep(calendar, w, Start(sender, now, id));
      steps := [Start(sender, now, id)];
      outcome := NothingToSend;
      return;
    }
    var events := batch.value.events;
    OfBatchHasDistinctIds(batch.value.id, events);
    var taken := if accepts < |events| then accepts else |events|;
    ghost var seen, total := provider.seen, provider.total;
    var ok := provider.Ingest(events, taken, answers);
    SendingIsARun(calendar, w, sender, now, id, batch.value, taken, seen, total, provider.seen, provider.total);
    steps := Sending(sender, now, id, events[..taken]);
    if !ok || record.Lost? {
      outcome := Failed;
      return;
    }
    store.MeterBatchSent(batch.value.id);
    steps := [steps[0], steps[1], Acknowledged(sender)];
    outcome := if record.Heard? then Sent else Failed;
  }

  /** What a sender has done when the provider took some events of its batch. */
  ghost function Sending(sender: nat, now: int, id: string, some: seq<MeterEvent>): seq<Step> {
    [Start(sender, now, id), Deliver(sender, Amounts(some).Keys)]
  }

  lemma SendingIsARun(
    calendar: Calendar, w: World, sender: nat, now: int, id: string, batch: StoredBatch, taken: nat,
    seen: set<string>, total: map<Key, real>, seen': set<string>, total': map<Key, real>)
    requires OfBatch(batch.id, batch.events) && taken <= |batch.events|
    requires Enabled(w, Start(sender, now, id)) && Mirrors(seen, total, w)
    requires Taken(calendar, w.store, now, id) == Store.ValueOf(Some(batch))
    requires seen' == seen + Ids(batch.events[..taken])
    requires forall key :: At(total', key) == At(total, key) + SumOfNew(seen, batch.events[..taken], key)
    ensures var steps := Sending(sender, now, id, batch.events[..taken]);
            && Possible(calendar, w, steps) && Mirrors(seen', total', After(calendar, w, steps))
            && After(calendar, w, steps).store == Take(calendar, w.store, now, id)
            && (taken == |batch.events| <==> steps[1].keys == Amounts(batch.events).Keys)
    ensures var steps := [Start(sender, now, id), Deliver(sender, Amounts(batch.events).Keys), Acknowledged(sender)];
            taken == |batch.events| ==>
              && Possible(calendar, w, steps) && Mirrors(seen', total', After(calendar, w, steps))
              && After(calendar, w, steps).store == Acknowledge(Take(calendar, w.store, now, id), batch.id)
  {
    var some := batch.events[..taken];
    var start, deliver := Start(sender, now, id), Deliver(sender, Amounts(some).Keys);
    var started := Next(calendar, w, start);
    assert Mirrors(seen, total, started);
    IngestIsDeliver(calendar, started, sender, batch, taken, seen, total, seen', total');
    TwoSteps(calendar, w, start, deliver);
    if taken < |batch.events| {
      SomeKeyIsMissing(batch.events, taken);
    } else {
      assert some == batch.events;
      ThreeSteps(calendar, w, start, deliver, Acknowledged(sender));
    }
  }

  lemma {:induction false} SomeKeyIsMissing(events: seq<MeterEvent>, taken: nat)
    requires Ascending(Keys(events)) && taken < |events|
    ensures Amounts(events[..taken]).Keys != Amounts(events).Keys
  {
    AmountsAreTheEvents(events);
    AmountsAreTheEvents(events[..taken]);
    var key := Keys(events)[taken];
    assert Keys(events[..taken]) == Keys(events)[..taken];
    assert forall i :: 0 <= i < taken ==> Before(Keys(events)[i], key);
    assert key in Amounts(events) && key !in Amounts(events[..taken]);
  }

  lemma OneStep(calendar: Calendar, w: World, step: Step)
    requires Enabled(w, step)
    ensures Possible(calendar, w, [step]) && After(calendar, w, [step]) == Next(calendar, w, step)
  {
    assert [step][1..] == [];
  }

  lemma TwoSteps(calendar: Calendar, w: World, a: Step, b: Step)
    requires Enabled(w, a) && Enabled(Next(calendar, w, a), b)
    ensures Possible(calendar, w, [a, b])
    ensures After(calendar, w, [a, b]) == Next(calendar, Next(calendar, w, a), b)
  {
    assert [a, b][1..] == [b] && [b][1..] == [];
    assert After(calendar, Next(calendar, w, a), [b]) == Next(calendar, Next(calendar, w, a), b);
  }

  lemma ThreeSteps(calendar: Calendar, w: World, a: Step, b: Step, c: Step)
    requires Enabled(w, a) && Enabled(Next(calendar, w, a), b)
    requires Enabled(Next(calendar, Next(calendar, w, a), b), c)
    ensures Possible(calendar, w, [a, b, c])
    ensures After(calendar, w, [a, b, c]) == Next(calendar, Next(calendar, Next(calendar, w, a), b), c)
  {
    assert [a, b, c][1..] == [b, c];
    TwoSteps(calendar, Next(calendar, w, a), b, c);
  }
}
