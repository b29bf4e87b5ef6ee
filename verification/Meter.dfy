/**
 Counting a request and taking it back (packages/billing/src/meter.ts:145-208) over the refusal cache
 (packages/billing/src/cache.ts:30-58), which is built on the bounded cache of org data.
 */
module Meter {
  import opened Plan
  import opened Ledger
  import opened OrgCaches
  import BillingStore
  import opened Refusals

  const MAX_CACHED := 4096
  const ENTRY := "billing"

  datatype Timed<V> = Timed(value: V, until: int)

  /** A bounded cache with one entry per org, each good until a time. */
  class Expiring<V> {
    const entries: OrgCache<Timed<V>>

    ghost predicate Valid()
      reads this, entries
    {
      entries.Valid() && entries.max == Some(4096)
    }

    constructor ()
      ensures Valid() && fresh(entries) && entries.fifo == Fifo([], map[])
    {
      entries := new OrgCache(Some(MAX_CACHED));
    }

    ghost function KeptOf(org: string): Option<Timed<V>>
      reads this, entries
    {
      Find(entries.fifo, (org, ENTRY))
    }

    /** What is remembered of an org at `now`. */
    ghost function At(org: string, now: int): Option<V>
      reads this, entries
    {
      var entry := Find(entries.fifo, (org, ENTRY));
      if entry.Some? && now < entry.value.until then Some(entry.value.value) else None
    }

    /** None is answered at or after its time, and then it is forgotten. */
    method Get(org: string, now: int) returns (value: Option<V>)
      requires Valid() && IsOrg(org)
      modifies entries
      ensures Valid() && value == old(At(org, now))
      ensures KeptOf(org) == if value.Some? then old(KeptOf(org)) else None
      ensures entries.fifo == if value.Some? || Find(old(entries.fifo), (org, ENTRY)).None? then old(entries.fifo)
                              else Remove(old(entries.fifo), (org, ENTRY))
    {
      var entry := entries.Get(org, ENTRY);
      if entry.None? {
        return None;
      }
      if now >= entry.value.until {
        entries.Delete(org, ENTRY);
        return None;
      }
      return Some(entry.value.value);
    }

    method Set(org: string, value: V, until: int)
      requires Valid() && IsOrg(org)
      modifies entries
      ensures Valid() && entries.fifo == Put(old(entries.fifo), Some(MAX_CACHED), (org, ENTRY), Timed(value, until))
      ensures KeptOf(org) == Some(Timed(value, until))
      ensures forall now :: At(org, now) == if now < until then Some(value) else None
    {
      entries.Set(org, ENTRY, Timed(value, until));
    }

    method Delete(org: string)
      requires Valid() && IsOrg(org)
      modifies entries
      ensures Valid() && entries.fifo == Remove(old(entries.fifo), (org, ENTRY))
    {
      entries.Delete(org, ENTRY);
    }
  }

  /** What serving a request is told: counted against a month, not counted (the part was not reached), or refused. */
  datatype Counting = Against(monthStart: int) | NotCounted | Stopped(limit: PlanLimit)

  /** What is kept of an org, lapsed or not. */
  type Kept = Option<Timed<CachedRefusal>>

  /**
   A request is refused from memory without asking the store while what is kept has not lapsed; else it is counted or
   refused by the store, if that is reached, and a refusal is kept until its time to live or its month's end.
   */
  ghost predicate Counts(
    calendar: Calendar, s: State, kept: Kept, now: int, reached: bool, counting: Counting, s': State, kept': Kept)
  {
    if kept.Some? && now < kept.value.until then
      counting == Stopped(Served(kept.value.value, now)) && s' == s && kept' == kept
    else if !reached then counting == NotCounted && s' == s && kept' == None
    else
      && s' == Admit(calendar, s, now)
      && match LimitOf(calendar, s, Requests, now)
         case None => counting == Against(calendar(now).start) && kept' == None
         case Some(limit) =>
           && counting == Stopped(limit)
           && kept' == Some(Timed(ToCache(limit), UntilOf(ToCache(limit), now)))
  }

  /**
   What counting a request leaves in the cache: the entries of other orgs stay, but the oldest when a new one needs
   room.
   */
  function Left<V>(before: Fifo<Timed<V>>, org: string, now: int, kept: Option<Timed<V>>): Fifo<Timed<V>> {
    var was := Find(before, (org, ENTRY));
    if was.Some? && now < was.value.until then before
    else
      var cleared := if was.None? then before else Remove(before, (org, ENTRY));
      if kept.None? then cleared else Put(cleared, Some(MAX_CACHED), (org, ENTRY), kept.value)
  }

  /** A request of an org starts being served at `now`; `reached`: the part answers. */
  method CountRequest(
    refusals: Expiring<CachedRefusal>, store: BillingStore.Store, org: string, now: int, reached: bool)
    returns (counting: Counting)
    requires refusals.Valid() && IsOrg(org) && (refusals.entries as object) != (store as object)
    modifies refusals.entries, store`usage
    ensures refusals.Valid()
    ensures Counts(store.calendar, old(store.Value()), old(refusals.KeptOf(org)), now, reached,
              counting, store.Value(), refusals.KeptOf(org))
    ensures refusals.entries.fifo == Left(old(refusals.entries.fifo), org, now, refusals.KeptOf(org))
  {
    var known := refusals.Get(org, now);
    if known.Some? {
      return Stopped(Served(known.value, now));
    }
    if !reached {
      return NotCounted;
    }
    ghost var s := store.Value();
    var admission := store.Admit(now);
    if admission.Counted? {
      return Against(admission.monthStart);
    }
    ServingIsRefusing(store.calendar, s, Requests, now);
    counting := Keep(refusals, org, admission.limit, now);
  }

  /** Keeps a refusal of the store for the org's next requests, and answers it. */
  method Keep(refusals: Expiring<CachedRefusal>, org: string, limit: PlanLimit, now: int) returns (counting: Counting)
    requires refusals.Valid() && IsOrg(org)
    modifies refusals.entries
    ensures refusals.Valid() && counting == Stopped(Served(ToCache(limit), now))
    ensures refusals.entries.fifo ==
            Put(old(refusals.entries.fifo), Some(MAX_CACHED), (org, ENTRY),
              Timed(ToCache(limit), UntilOf(ToCache(limit), now)))
  {
    var refusal := CachedRefusal(limit.limit, limit.allowed, limit.resetsAt, limit.pastDue);
    var ttl := if limit.limit.BillingCapLimit? then BILLING_CAP_REFUSAL_TTL_MS else BILLING_TTL_MS;
    refusals.Set(org, refusal, if limit.resetsAt < now + ttl then limit.resetsAt else now + ttl);
    return Stopped(Served(refusal, now));
  }

  /** Takes back a request that was counted, from the month it was counted against; nothing where nothing was. */
  method UncountRequest(store: BillingStore.Store, counted: Counting, reached: bool)
    modifies store`usage
    ensures store.Value() ==
            if counted.Against? && reached then Refund(old(store.Value()), counted.monthStart) else old(store.Value())
  {
    if counted.Against? && reached {
      store.Refund(counted.monthStart);
    }
  }

  // ---- counting a request is a run ----

  /** What an isolate keeps of the org is what a state of the runs says it remembers. */
  predicate Mirrors(kept: Kept, w: World, isolate: nat) {
    kept == if isolate in w.known then Some(Timed(w.known[isolate].cached, Until(w.known[isolate]))) else None
  }

  lemma OneStep(calendar: Calendar, w: World, step: Step)
    requires Enabled(w, step)
    ensures Possible(calendar, w, [step]) && After(calendar, w, [step]) == Next(calendar, w, step)
  {
    assert [step][1..] == [];
  }

  lemma {:induction false} OneStepMore(calendar: Calendar, w: World, steps: seq<Step>, step: Step)
    requires Possible(calendar, w, steps) && Enabled(After(calendar, w, steps), step)
    ensures Possible(calendar, w, steps + [step])
    ensures After(calendar, w, steps + [step]) == Next(calendar, After(calendar, w, steps), step)
    decreases |steps|
  {
    if steps == [] {
      assert [step][1..] == [] && steps + [step] == [step];
    } else {
      OneStepMore(calendar, Next(calendar, w, steps[0]), steps[1..], step);
      assert (steps + [step])[1..] == steps[1..] + [step];
    }
  }

  /**
   Counting a request, undisturbed, is a run of Refusals.dfy that leaves the store and what the isolate keeps as
   `CountRequest` does: so what holds of every remembered refusal there holds of those it serves.
   */
  lemma {:induction false} CountingIsARun(
    calendar: Calendar, w: World, isolate: nat, request: nat, kept: Kept, now: int, reached: bool, counting: Counting,
    s': State, kept': Kept)
    returns (steps: seq<Step>, w': World)
    requires request !in w.asking && Reads(w, now) && Mirrors(kept, w, isolate)
    requires Counts(calendar, w.store, kept, now, reached, counting, s', kept')
    ensures Possible(calendar, w, steps) && w' == After(calendar, w, steps)
    ensures w'.store == s' && Mirrors(kept', w', isolate)
    ensures w'.known - {isolate} == w.known - {isolate} && w'.asking == w.asking && w'.clock == w.clock
    ensures ServedFromMemory(w, isolate, now) ==> w' == w && counting == Stopped(Served(w.known[isolate].cached, now))
  {
    var lookUp := LookUp(request, isolate, now);
    OneStep(calendar, w, lookUp);
    steps, w' := [lookUp], Next(calendar, w, lookUp);
    if ServedFromMemory(w, isolate, now) {
      return;
    }
    var last := if reached then AskStore(request) else Fail(request);
    OneStepMore(calendar, w, steps, last);
    steps, w' := steps + [last], Next(calendar, w', last);
    if request in w'.asking {
      OneStepMore(calendar, w, steps, Remember(request));
      steps, w' := steps + [Remember(request)], Next(calendar, w', Remember(request));
    }
    assert w'.asking == w.asking;
  }
}
