/**
 What the gate of ApiKeys.dfy does is a run of KeyRuns.dfy: so what holds of every acceptance there holds of the gate's.
 */
module GateRuns {
  import opened Plan
  import opened OrgCaches
  import opened ApiKeys
  import opened KeyRuns

  /** What an isolate's caches hold is what a state of the runs says they hold. */
  ghost predicate Mirrors(verified: Fifo<CachedKey>, known: Fifo<int>, w: World, isolate: nat) {
    && (forall org, hash :: Find(verified, (org, hash)) == CachedIn(w, isolate, org, hash))
    && (forall org :: Find(known, (org, KNOWN)) == TrustedIn(w, isolate, org))
  }

  function CachedIn(w: World, isolate: nat, org: string, hash: string): Option<CachedKey> {
    if (isolate, org, hash) !in w.verified then None
    else
      var verdict := w.verified[(isolate, org, hash)];
      Some(CachedKey(verdict.key, UntilOf(verdict.began, verdict.expiresAt)))
  }

  function TrustedIn(w: World, isolate: nat, org: string): Option<int> {
    if (isolate, org) in w.known then Some(w.known[(isolate, org)]) else None
  }

  /** A run that only let one lookup through: the registry, the stores and the other lookups are as they were. */
  predicate OnlyLookup(w: World, w': World, request: nat) {
    w'.records == w.records && w'.lookups - {request} == w.lookups - {request}
  }

  lemma TrustingMirrors(verified: Fifo<CachedKey>, known: Fifo<int>, w: World, isolate: nat, org: string, until: int)
    requires Mirrors(verified, known, w, isolate)
    ensures Mirrors(
              verified, Put(known, None, (org, KNOWN), until), w.(known := w.known[(isolate, org) := until]), isolate)
  {
    var w' := w.(known := w.known[(isolate, org) := until]);
    forall o ensures Find(Put(known, None, (org, KNOWN), until), (o, KNOWN)) == TrustedIn(w', isolate, o) {
      assert Find(known, (o, KNOWN)) == TrustedIn(w, isolate, o);
    }
    assert forall o, h :: CachedIn(w', isolate, o, h) == CachedIn(w, isolate, o, h);
  }

  lemma ForgettingMirrors(verified: Fifo<CachedKey>, known: Fifo<int>, w: World, isolate: nat, org: string)
    requires Mirrors(verified, known, w, isolate)
    ensures Mirrors(verified, Remove(known, (org, KNOWN)), w.(known := w.known - {(isolate, org)}), isolate)
  {
    var w' := w.(known := w.known - {(isolate, org)});
    forall o ensures Find(Remove(known, (org, KNOWN)), (o, KNOWN)) == TrustedIn(w', isolate, o) {
      assert Find(known, (o, KNOWN)) == TrustedIn(w, isolate, o);
    }
    assert forall o, h :: CachedIn(w', isolate, o, h) == CachedIn(w, isolate, o, h);
  }

  lemma ClearingOneMirrors(
    verified: Fifo<CachedKey>, known: Fifo<int>, w: World, isolate: nat, pair: Pair, order: seq<Pair>)
    requires Mirrors(verified, known, w, isolate)
    ensures Mirrors(
              Fifo(order, verified.values - {pair}), known,
              w.(verified := w.verified - {(isolate, pair.0, pair.1)}), isolate)
  {
    var w' := w.(verified := w.verified - {(isolate, pair.0, pair.1)});
    forall o, h ensures Find(Fifo(order, verified.values - {pair}), (o, h)) == CachedIn(w', isolate, o, h) {
      assert Find(verified, (o, h)) == CachedIn(w, isolate, o, h);
    }
    assert forall o :: TrustedIn(w', isolate, o) == TrustedIn(w, isolate, o);
  }

  lemma StoringOneMirrors(
    verified: Fifo<CachedKey>, known: Fifo<int>, w: World, isolate: nat, pair: Pair, verdict: Verdict, order: seq<Pair>)
    requires Mirrors(verified, known, w, isolate)
    ensures Mirrors(
              Fifo(order, verified.values[pair := CachedKey(verdict.key, UntilOf(verdict.began, verdict.expiresAt))]),
              known, w.(verified := w.verified[(isolate, pair.0, pair.1) := verdict]), isolate)
  {
    var value := CachedKey(verdict.key, UntilOf(verdict.began, verdict.expiresAt));
    var w' := w.(verified := w.verified[(isolate, pair.0, pair.1) := verdict]);
    forall o, h ensures Find(Fifo(order, verified.values[pair := value]), (o, h)) == CachedIn(w', isolate, o, h) {
      assert Find(verified, (o, h)) == CachedIn(w, isolate, o, h);
    }
    assert forall o :: TrustedIn(w', isolate, o) == TrustedIn(w, isolate, o);
  }

  /** Storing in the bounded cache is storing, and evicting what the bound drops. */
  lemma StoringMirrors(
    verified: Fifo<CachedKey>, known: Fifo<int>, w: World, isolate: nat, pair: Pair, verdict: Verdict)
    requires Sound(verified) && Mirrors(verified, known, w, isolate)
    ensures var stored := w.verified[(isolate, pair.0, pair.1) := verdict];
            var left := if Evicts(verified, Some(MAX_CACHED_KEYS), pair)
                        then stored - {(isolate, verified.order[0].0, verified.order[0].1)} else stored;
            Mirrors(
              Put(verified, Some(MAX_CACHED_KEYS), pair,
                CachedKey(verdict.key, UntilOf(verdict.began, verdict.expiresAt))),
              known, w.(verified := left), isolate)
  {
    var value := CachedKey(verdict.key, UntilOf(verdict.began, verdict.expiresAt));
    var g := Put(verified, Some(MAX_CACHED_KEYS), pair, value);
    if Evicts(verified, Some(MAX_CACHED_KEYS), pair) {
      var oldest := verified.order[0];
      assert oldest in verified.order && oldest != pair;
      var left := Fifo(verified.order[1..], verified.values - {oldest});
      var w1 := w.(verified := w.verified - {(isolate, oldest.0, oldest.1)});
      ClearingOneMirrors(verified, known, w, isolate, oldest, verified.order[1..]);
      StoringOneMirrors(left, known, w1, isolate, pair, verdict, g.order);
      assert w1.verified[(isolate, pair.0, pair.1) := verdict] ==
          w.verified[(isolate, pair.0, pair.1) := verdict] - {(isolate, oldest.0, oldest.1)};
    } else {
      StoringOneMirrors(verified, known, w, isolate, pair, verdict, g.order);
    }
  }

  lemma {:induction false} AskingIsARun(
    w: World, request: nat, verified: Fifo<CachedKey>, known: Fifo<int>) returns (steps: seq<Step>, w': World)
    requires request in w.lookups && w.lookups[request].stage.AskingRegistry?
    requires Sound(known) && Mirrors(verified, known, w, w.lookups[request].isolate)
    ensures Possible(w, steps) && w' == After(w, steps)
    ensures var lookup := w.lookups[request];
            var at := (lookup.presented.org, KNOWN);
            && OnlyLookup(w, w', request) && w'.accepted == w.accepted
            && if lookup.presented.org in w.records.orgs then
                 && Mirrors(verified, Put(known, None, at, lookup.began + VERIFIED_KEY_TTL_MS), w', lookup.isolate)
                 && request in w'.lookups && w'.lookups[request] == lookup.(stage := OrgFound)
               else
                 Mirrors(verified, Remove(known, at), w', lookup.isolate) && request !in w'.lookups
  {
    var lookup := w.lookups[request];
    var told := lookup.(stage := RegistryTold(lookup.presented.org in w.records.orgs));
    var w1 := Next(w, AskRegistry(request));
    assert w1 == w.(lookups := w.lookups[request := told]);
    w' := Next(w1, StoreOrg(request));
    assert w'.known == KnownOnce(w.known, told);
    OneStep(w, AskRegistry(request));
    OneStepMore(w, [AskRegistry(request)], StoreOrg(request));
    steps := [AskRegistry(request)] + [StoreOrg(request)];
    if told.stage.found {
      TrustingMirrors(
        verified, known, w, lookup.isolate, lookup.presented.org, lookup.began + VERIFIED_KEY_TTL_MS);
    } else {
      ForgettingMirrors(verified, known, w, lookup.isolate, lookup.presented.org);
    }
  }

  /** After a miss, a lookup's org is found exactly when the gate trusts it or the registry lists it. */
  lemma {:induction false} OrgExistsIsARun(
    w: World, request: nat, verified: Fifo<CachedKey>, known: Fifo<int>) returns (steps: seq<Step>, w': World)
    requires request in w.lookups && w.lookups[request].stage.Missed?
    requires Sound(known) && Mirrors(verified, known, w, w.lookups[request].isolate)
    ensures Possible(w, steps) && w' == After(w, steps)
    ensures var lookup := w.lookups[request];
            var org, listed := lookup.presented.org, lookup.presented.org in w.records.orgs;
            && OnlyLookup(w, w', request) && w'.accepted == w.accepted
            && Mirrors(verified, KnownAfter(known, org, lookup.began, listed), w', lookup.isolate)
            && (request in w'.lookups <==> Trusted(known, org, lookup.began) || listed)
            && (request in w'.lookups ==> w'.lookups[request] == lookup.(stage := OrgFound))
  {
    var lookup := w.lookups[request];
    var org := lookup.presented.org;
    assert Find(known, (org, KNOWN)) == TrustedIn(w, lookup.isolate, org);
    OneStep(w, LookUpOrg(request));
    steps, w' := [LookUpOrg(request)], Next(w, LookUpOrg(request));
    if !Trusted(known, org, lookup.began) {
      assert w' == w.(lookups := w.lookups[request := lookup.(stage := AskingRegistry)]);
      var rest, w2 := AskingIsARun(w', request, verified, known);
      MoreSteps(w, steps, rest);
      steps, w' := steps + rest, w2;
    }
  }

  lemma {:induction false} StoringIsARun(
    w: World, request: nat, verified: Fifo<CachedKey>, known: Fifo<int>) returns (steps: seq<Step>, w': World)
    requires request in w.lookups && w.lookups[request].stage.Answered?
    requires Sound(verified) && Bounded(verified, Some(MAX_CACHED_KEYS))
    requires Mirrors(verified, known, w, w.lookups[request].isolate)
    ensures Possible(w, steps) && w' == After(w, steps)
    ensures var lookup := w.lookups[request];
            var verdict := lookup.stage.verdict;
            && OnlyLookup(w, w', request)
            && w'.accepted ==
               w.accepted + {Acceptance(lookup.began, w.records.clock, false, lookup.presented, verdict)}
            && Mirrors(
                 Put(verified, Some(MAX_CACHED_KEYS), (lookup.presented.org, lookup.presented.hash),
                   CachedKey(verdict.key, UntilOf(verdict.began, verdict.expiresAt))),
                 known, w', lookup.isolate)
  {
    var lookup := w.lookups[request];
    var at := (lookup.presented.org, lookup.presented.hash);
    StoringMirrors(verified, known, w, lookup.isolate, at, lookup.stage.verdict);
    OneStep(w, Finish(request));
    steps, w' := [Finish(request)], Next(w, Finish(request));
    if Evicts(verified, Some(MAX_CACHED_KEYS), at) {
      var evict := Evict(lookup.isolate, verified.order[0].0, verified.order[0].1);
      OneStepMore(w, steps, evict);
      steps, w' := steps + [evict], Next(w', evict);
    }
  }

  /**
   What a gate answers, and what it leaves in its caches, is what one undisturbed lookup of the runs does: so what
   holds of every acceptance there holds of the gate's.
   */
  lemma {:induction false} GateIsARun(
    w: World, isolate: nat, request: nat, presented: Presented, verified: Fifo<CachedKey>, known: Fifo<int>,
    key: Option<KeyId>, verified': Fifo<CachedKey>, known': Fifo<int>)
    returns (steps: seq<Step>, w': World)
    requires request !in w.lookups && Mirrors(verified, known, w, isolate)
    requires Sound(verified) && Bounded(verified, Some(MAX_CACHED_KEYS)) && Sound(known)
    requires Verifies(verified, known, presented, w.records.clock, presented.org in w.records.orgs, w.records.keys,
               key, verified', known')
    ensures Possible(w, steps) && w' == After(w, steps)
    ensures Mirrors(verified', known', w', isolate) && OnlyLookup(w, w', request)
    ensures if key.None? then w'.accepted == w.accepted
            else exists a :: w'.accepted == w.accepted + {a} && IsOf(a, presented, w.records.clock, key.value)
  {
    var clock, at := w.records.clock, (presented.org, presented.hash);
    var begin := Begin(request, isolate, presented);
    OneStep(w, begin);
    assert Find(verified, at) == CachedIn(w, isolate, presented.org, presented.hash);
    steps, w' := [begin], Next(w, begin);
    if CachedFor(w, isolate, presented).Some? {
      var a := Acceptance(clock, clock, true, presented, CachedFor(w, isolate, presented).value);
      assert w'.accepted == w.accepted + {a} && IsOf(a, presented, clock, key.value);
    } else {
      var cleared := Remove(verified, at);
      RemoveIsBoundedFifo(verified, Some(MAX_CACHED_KEYS), at);
      ClearingOneMirrors(verified, known, w, isolate, at, cleared.order);
      assert w' == Missing(w, request, isolate, presented);
      var rest, w2 := MissIsARun(w', request, cleared, known);
      MoreSteps(w, steps, rest);
      steps, w' := steps + rest, w2;
    }
  }

  /** After a miss, a key is accepted exactly when its org is trusted or listed and it is live in its store. */
  lemma {:induction false} MissIsARun(
    w: World, request: nat, verified: Fifo<CachedKey>, known: Fifo<int>) returns (steps: seq<Step>, w': World)
    requires request in w.lookups && w.lookups[request].stage.Missed?
    requires w.lookups[request].began == w.records.clock
    requires Sound(verified) && Bounded(verified, Some(MAX_CACHED_KEYS)) && Sound(known)
    requires Mirrors(verified, known, w, w.lookups[request].isolate)
    ensures Possible(w, steps) && w' == After(w, steps) && OnlyLookup(w, w', request)
    ensures var lookup := w.lookups[request];
            var org, clock := lookup.presented.org, w.records.clock;
            var key := KeyId(org, lookup.presented.keyId);
            var known' := KnownAfter(known, org, clock, org in w.records.orgs);
            if (Trusted(known, org, clock) || org in w.records.orgs) &&
               Live(w.records.keys, lookup.presented, clock) then
              && (exists a :: w'.accepted == w.accepted + {a} && IsOf(a, lookup.presented, clock, key))
              && Mirrors(
                   Put(verified, Some(MAX_CACHED_KEYS), (org, lookup.presented.hash),
                     CachedKey(key, UntilOf(clock, w.records.keys[key].expiresAt))),
                   known', w', lookup.isolate)
            else w'.accepted == w.accepted && Mirrors(verified, known', w', lookup.isolate)
  {
    var lookup := w.lookups[request];
    var known' := KnownAfter(known, lookup.presented.org, w.records.clock, lookup.presented.org in w.records.orgs);
    steps, w' := OrgExistsIsARun(w, request, verified, known);
    if request in w'.lookups {
      var asked, w2 := StoreAnswersIsARun(w', request, verified, known');
      MoreSteps(w, steps, asked);
      steps, w' := steps + asked, w2;
    }
  }

  /** An acceptance of what was presented, at once, as the key. */
  predicate IsOf(a: Acceptance, presented: Presented, now: int, key: KeyId) {
    a.presented == presented && a.at == a.done == now && a.verdict.key == key
  }

  lemma {:induction false} StoreAnswersIsARun(
    w: World, request: nat, verified: Fifo<CachedKey>, known: Fifo<int>) returns (steps: seq<Step>, w': World)
    requires request in w.lookups && w.lookups[request].stage.OrgFound?
    requires w.lookups[request].began == w.records.clock
    requires Sound(verified) && Bounded(verified, Some(MAX_CACHED_KEYS))
    requires Mirrors(verified, known, w, w.lookups[request].isolate)
    ensures Possible(w, steps) && w' == After(w, steps) && OnlyLookup(w, w', request)
    ensures var lookup := w.lookups[request];
            var key := KeyId(lookup.presented.org, lookup.presented.keyId);
            if !Live(w.records.keys, lookup.presented, w.records.clock) then
              w'.accepted == w.accepted && Mirrors(verified, known, w', lookup.isolate)
            else
              && (exists a :: w'.accepted == w.accepted + {a} && IsOf(a, lookup.presented, w.records.clock, key))
              && Mirrors(
                   Put(verified, Some(MAX_CACHED_KEYS), (lookup.presented.org, lookup.presented.hash),
                     CachedKey(key, UntilOf(w.records.clock, w.records.keys[key].expiresAt))),
                   known, w', lookup.isolate)
  {
    var lookup := w.lookups[request];
    OneStep(w, AskStore(request));
    steps, w' := [AskStore(request)], Next(w, AskStore(request));
    if Live(w.records.keys, lookup.presented, w.records.clock) {
      var key := KeyId(lookup.presented.org, lookup.presented.keyId);
      var a := Acceptance(
        lookup.began, w.records.clock, false, lookup.presented, VerdictFor(w.records, lookup));
      var stored, w2 := StoringIsARun(w', request, verified, known);
      MoreSteps(w, steps, stored);
      steps, w' := steps + stored, w2;
      assert w'.accepted == w.accepted + {a} && IsOf(a, lookup.presented, w.records.clock, key);
    }
  }
}
