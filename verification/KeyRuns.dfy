/**
 How stale an accepted API key can be, and which orgs' stores are asked, over every run of any number of isolates with
 lookups in flight (packages/auth/src/api-key.ts:93-150).
 */
module KeyRuns {
  import opened Plan
  import opened ApiKeys

  /**
   An ok verdict: the key, the hash that was presented, its expiry, when the request that asked began, when the store
   gave it, and when the registry had listed the org last.
   */
  datatype Verdict = Verdict(
    key: KeyId, hash: string, expiresAt: Option<int>, began: int, given: int, listed: Option<int>)

  /** How far a lookup is: every change of stage is an interval in which anything else may happen. */
  datatype Stage =
    | Missed
    | AskingRegistry
    | RegistryTold(found: bool)
    | OrgFound
    | Answered(verdict: Verdict)

  /** A lookup in flight, begun when its request's clock read `began`. */
  datatype Lookup = Lookup(isolate: nat, presented: Presented, began: int, stage: Stage)

  /**
   An acceptance: the clock its request read at its start (`at`), the clock when it was accepted (`done`), whether the
   cache had it, what it presented, and the verdict it rests on.
   */
  datatype Acceptance = Acceptance(at: int, done: int, cached: bool, presented: Presented, verdict: Verdict)

  /**
   The registry and the orgs' stores. `issued`: every key there ever was; `revoked`: when one was deleted from its
   store; `orgs`: what the registry lists, and `lastListed`: the latest clock at which it listed an org.
   */
  datatype Records = Records(
    clock: int,
    keys: map<KeyId, Stored>,
    issued: map<KeyId, Stored>,
    revoked: map<KeyId, int>,
    orgs: set<string>,
    lastListed: map<string, int>)

  datatype Change =
    | Tick(to: int)
    | Issue(key: KeyId, stored: Stored)
    | Revoke(key: KeyId)
    | List(org: string)
    | Unlist(org: string)

  predicate MayChange(r: Records, change: Change) {
    match change
    case Tick(to) => r.clock <= to
    case Issue(key, _) => key !in r.issued
    case Revoke(key) => key in r.keys
    case _ => true
  }

  function Changed(r: Records, change: Change): Records {
    match change
    case Tick(to) =>
      r.(clock := to,
         lastListed := map org | org in r.lastListed :: if org in r.orgs then to else r.lastListed[org])
    case Issue(key, stored) => r.(keys := r.keys[key := stored], issued := r.issued[key := stored])
    case Revoke(key) => r.(keys := r.keys - {key}, revoked := r.revoked[key := r.clock])
    case List(org) => r.(orgs := r.orgs + {org}, lastListed := r.lastListed[org := r.clock])
    case Unlist(org) => r.(orgs := r.orgs - {org})
  }

  /** `known`: until when an isolate trusts that an org is listed; `accepted`: every acceptance so far. */
  datatype World = World(
    records: Records,
    verified: map<(nat, string, string), Verdict>,
    known: map<(nat, string), int>,
    lookups: map<nat, Lookup>,
    accepted: set<Acceptance>)

  datatype Step =
    | Meanwhile(change: Change)
    | Begin(request: nat, isolate: nat, presented: Presented)
    | LookUpOrg(request: nat)
    | AskRegistry(request: nat)
    | StoreOrg(request: nat)
    | AskStore(request: nat)
    | Finish(request: nat)
    | Fail(request: nat)
    | Evict(isolate: nat, org: string, hash: string)

  predicate Enabled(w: World, step: Step) {
    match step
    case Meanwhile(change) => MayChange(w.records, change)
    case Begin(request, _, _) => request !in w.lookups
    case LookUpOrg(request) => request in w.lookups && w.lookups[request].stage.Missed?
    case AskRegistry(request) => request in w.lookups && w.lookups[request].stage.AskingRegistry?
    case StoreOrg(request) => request in w.lookups && w.lookups[request].stage.RegistryTold?
    case AskStore(request) => request in w.lookups && w.lookups[request].stage.OrgFound?
    case Finish(request) => request in w.lookups && w.lookups[request].stage.Answered?
    case Fail(request) => request in w.lookups
    case Evict(_, _, _) => true
  }

  function CachedFor(w: World, isolate: nat, presented: Presented): Option<Verdict> {
    var at := (isolate, presented.org, presented.hash);
    if at in w.verified && w.records.clock < UntilOf(w.verified[at].began, w.verified[at].expiresAt)
    then Some(w.verified[at]) else None
  }

  /** The ok verdict an org's store gives a lookup. */
  function VerdictFor(r: Records, lookup: Lookup): Verdict
    requires Live(r.keys, lookup.presented, lookup.began)
  {
    var key := KeyId(lookup.presented.org, lookup.presented.keyId);
    Verdict(key, lookup.presented.hash, r.keys[key].expiresAt, lookup.began, r.clock,
      if key.org in r.lastListed then Some(r.lastListed[key.org]) else None)
  }

  /** The stage a lookup moves to when it goes on; None when it ends in a refusal. */
  function StageAfter(w: World, lookup: Lookup): Option<Stage> {
    match lookup.stage
    case Missed =>
      var at := (lookup.isolate, lookup.presented.org);
      Some(if at in w.known && lookup.began < w.known[at] then OrgFound else AskingRegistry)
    case AskingRegistry => Some(RegistryTold(lookup.presented.org in w.records.orgs))
    case RegistryTold(found) => if found then Some(OrgFound) else None
    case OrgFound =>
      if !Live(w.records.keys, lookup.presented, lookup.began) then None
      else Some(Answered(VerdictFor(w.records, lookup)))
    case Answered(_) => None
  }

  function GoOn(w: World, request: nat): World
    requires request in w.lookups
  {
    var lookup := w.lookups[request];
    var stage := StageAfter(w, lookup);
    w.(lookups :=
      if stage.None? then w.lookups - {request} else w.lookups[request := lookup.(stage := stage.value)])
  }

  /** A lookup that missed the cache. */
  function Missing(w: World, request: nat, isolate: nat, presented: Presented): World {
    w.(verified := w.verified - {(isolate, presented.org, presented.hash)},
       lookups := w.lookups[request := Lookup(isolate, presented, w.records.clock, Missed)])
  }

  function Begun(w: World, request: nat, isolate: nat, presented: Presented): World {
    var cached := CachedFor(w, isolate, presented);
    var clock := w.records.clock;
    if cached.Some? then
      w.(accepted := w.accepted + {Acceptance(clock, clock, true, presented, cached.value)})
    else Missing(w, request, isolate, presented)
  }

  /** What an isolate trusts once the registry told a lookup whether it lists the org. */
  function KnownOnce(known: map<(nat, string), int>, lookup: Lookup): map<(nat, string), int> {
    var at := (lookup.isolate, lookup.presented.org);
    if lookup.stage == RegistryTold(true) then known[at := lookup.began + VERIFIED_KEY_TTL_MS] else known - {at}
  }

  function Finished(w: World, request: nat): World
    requires request in w.lookups && w.lookups[request].stage.Answered?
  {
    var lookup := w.lookups[request];
    var verdict := lookup.stage.verdict;
    w.(verified := w.verified[(lookup.isolate, lookup.presented.org, lookup.presented.hash) := verdict],
       accepted := w.accepted + {Acceptance(lookup.began, w.records.clock, false, lookup.presented, verdict)},
       lookups := w.lookups - {request})
  }

  function Next(w: World, step: Step): World
    requires Enabled(w, step)
  {
    match step
    case Meanwhile(change) => w.(records := Changed(w.records, change))
    case Begin(request, isolate, presented) => Begun(w, request, isolate, presented)
    case LookUpOrg(request) => GoOn(w, request)
    case AskRegistry(request) => GoOn(w, request)
    case StoreOrg(request) => GoOn(w, request).(known := KnownOnce(w.known, w.lookups[request]))
    case AskStore(request) => GoOn(w, request)
    case Finish(request) => Finished(w, request)
    case Fail(request) => w.(lookups := w.lookups - {request})
    case Evict(isolate, org, hash) => w.(verified := w.verified - {(isolate, org, hash)})
  }

  predicate Possible(w: World, steps: seq<Step>)
    decreases |steps|
  {
    steps == [] || (Enabled(w, steps[0]) && Possible(Next(w, steps[0]), steps[1..]))
  }

  function After(w: World, steps: seq<Step>): World
    requires Possible(w, steps)
    decreases |steps|
  {
    if steps == [] then w else After(Next(w, steps[0]), steps[1..])
  }

  const INITIAL := World(Records(0, map[], map[], map[], {}, map[]), map[], map[], map[], {})

  // ---- the invariant ----

  ghost predicate RecordsInv(r: Records) {
    && (forall key :: key in r.keys ==> key !in r.revoked && key in r.issued && r.issued[key] == r.keys[key])
    && (forall key :: key in r.issued && key !in r.revoked ==> key in r.keys)
    && (forall key :: key in r.revoked ==> key in r.issued && r.revoked[key] <= r.clock)
    && (forall org :: org in r.orgs ==> org in r.lastListed && r.lastListed[org] == r.clock)
    && (forall org :: org in r.lastListed ==> r.lastListed[org] <= r.clock)
  }

  /** The registry listed an org at some clock from `since` on. */
  predicate ListedSince(r: Records, org: string, since: int) {
    org in r.lastListed && since <= r.lastListed[org]
  }

  /** A verdict was given while the key was live, after the request that asked for it began, of an org listed lately. */
  predicate GoodVerdict(r: Records, v: Verdict) {
    && v.began <= v.given <= r.clock
    && v.key in r.issued && r.issued[v.key] == Stored(v.hash, v.expiresAt)
    && (v.key in r.revoked ==> v.given <= r.revoked[v.key])
    && (v.expiresAt.Some? ==> v.began < v.expiresAt.value)
    && v.listed.Some? && v.began - VERIFIED_KEY_TTL_MS < v.listed.value
    && ListedSince(r, v.key.org, v.listed.value)
  }

  /** A verdict is about what was presented: a key of that org with that hash. */
  predicate IsAbout(v: Verdict, org: string, hash: string) {
    v.key.org == org && v.hash == hash
  }

  /**
   An acceptance rests on a verdict less than the trusted time older than its request, and falls before the key's
   expiry; one from the cache is accepted at once, another not before its verdict.
   */
  predicate GoodAcceptance(r: Records, a: Acceptance) {
    && GoodVerdict(r, a.verdict) && IsAbout(a.verdict, a.presented.org, a.presented.hash)
    && a.at - VERIFIED_KEY_TTL_MS < a.verdict.began
    && a.at <= a.done <= r.clock && a.verdict.given <= a.done
    && (a.cached ==> a.done == a.at)
    && (a.verdict.expiresAt.Some? ==> a.at < a.verdict.expiresAt.value)
  }

  predicate GoodLookup(r: Records, lookup: Lookup) {
    && lookup.began <= r.clock
    && match lookup.stage
       case RegistryTold(found) => found ==> ListedSince(r, lookup.presented.org, lookup.began)
       case OrgFound => ListedSince(r, lookup.presented.org, lookup.began - VERIFIED_KEY_TTL_MS + 1)
       case Answered(verdict) =>
         && GoodVerdict(r, verdict) && verdict.began == lookup.began
         && IsAbout(verdict, lookup.presented.org, lookup.presented.hash)
       case _ => true
  }

  ghost predicate Inv(w: World) {
    && RecordsInv(w.records)
    && (forall at :: at in w.verified ==> GoodVerdict(w.records, w.verified[at]) && IsAbout(w.verified[at], at.1, at.2))
    && (forall at :: at in w.known ==> ListedSince(w.records, at.1, w.known[at] - VERIFIED_KEY_TTL_MS))
    && (forall request :: request in w.lookups ==> GoodLookup(w.records, w.lookups[request]))
    && (forall a :: a in w.accepted ==> GoodAcceptance(w.records, a))
  }

  /** Records that are the same ones at a later time: nothing that happened is undone. */
  predicate Later(r: Records, r': Records) {
    && r.clock <= r'.clock
    && (forall key :: key in r.issued ==> key in r'.issued && r'.issued[key] == r.issued[key])
    && (forall key :: key in r'.revoked && key in r.issued ==>
          r'.revoked[key] >= r.clock || (key in r.revoked && r'.revoked[key] == r.revoked[key]))
    && (forall org :: org in r.lastListed ==> org in r'.lastListed && r.lastListed[org] <= r'.lastListed[org])
  }

  lemma RecordsGoForward(r: Records, change: Change)
    requires RecordsInv(r) && MayChange(r, change)
    ensures RecordsInv(Changed(r, change)) && Later(r, Changed(r, change))
  {
  }

  lemma GoodStaysGood(w: World, r: Records)
    requires Inv(w) && RecordsInv(r) && Later(w.records, r)
    ensures Inv(w.(records := r))
  {
    assert forall v :: GoodVerdict(w.records, v) ==> GoodVerdict(r, v);
    assert forall lookup :: GoodLookup(w.records, lookup) ==> GoodLookup(r, lookup);
    assert forall a :: GoodAcceptance(w.records, a) ==> GoodAcceptance(r, a);
  }

  lemma BeginKeepsInv(w: World, request: nat, isolate: nat, presented: Presented)
    requires Inv(w)
    ensures Inv(Begun(w, request, isolate, presented))
  {
    var cached := CachedFor(w, isolate, presented);
    if cached.Some? {
      assert GoodVerdict(w.records, cached.value);
      assert GoodAcceptance(
          w.records, Acceptance(w.records.clock, w.records.clock, true, presented, cached.value));
    }
  }

  lemma GoingOnKeepsInv(w: World, request: nat)
    requires Inv(w) && request in w.lookups
    ensures Inv(GoOn(w, request))
  {
    var lookup := w.lookups[request];
    assert GoodLookup(w.records, lookup);
    var stage := StageAfter(w, lookup);
    if stage.Some? {
      assert GoodLookup(w.records, lookup.(stage := stage.value)) by {
        if stage.value.Answered? {
          assert GoodVerdict(w.records, stage.value.verdict);
        }
      }
    }
  }

  lemma FinishKeepsInv(w: World, request: nat)
    requires Inv(w) && Enabled(w, Finish(request))
    ensures Inv(Finished(w, request))
  {
    var lookup := w.lookups[request];
    assert GoodLookup(w.records, lookup);
    assert GoodAcceptance(
        w.records, Acceptance(lookup.began, w.records.clock, false, lookup.presented, lookup.stage.verdict));
  }

  lemma StepKeepsInv(w: World, step: Step)
    requires Inv(w) && Enabled(w, step)
    ensures Inv(Next(w, step))
  {
    match step
    case Meanwhile(change) =>
      RecordsGoForward(w.records, change);
      GoodStaysGood(w, Changed(w.records, change));
    case Begin(request, isolate, presented) => BeginKeepsInv(w, request, isolate, presented);
    case LookUpOrg(request) => GoingOnKeepsInv(w, request);
    case AskRegistry(request) => GoingOnKeepsInv(w, request);
    case StoreOrg(request) =>
      GoingOnKeepsInv(w, request);
      assert GoodLookup(w.records, w.lookups[request]);
    case AskStore(request) => GoingOnKeepsInv(w, request);
    case Finish(request) => FinishKeepsInv(w, request);
    case Fail(_) =>
    case Evict(_, _, _) =>
  }

  lemma {:induction false} RunKeepsInv(w: World, steps: seq<Step>)
    requires Inv(w) && Possible(w, steps)
    ensures Inv(After(w, steps))
    decreases |steps|
  {
    if steps != [] {
      StepKeepsInv(w, steps[0]);
      RunKeepsInv(Next(w, steps[0]), steps[1..]);
    }
  }

  // ---- what every run keeps ----

  /**
   In every run, an acceptance of a request whose clock read `at` rests on an ok verdict the key's store gave after
   `at` - 30 s, of an org the registry listed after `at` - 60 s, and `at` is before the key's expiry; so of a key
   revoked at `r` no request that starts from `r` + 30 s on is accepted, in any isolate. And it is of a key issued in
   the org presented, with the hash presented.
   */
  lemma AcceptancesAreFresh(steps: seq<Step>, a: Acceptance)
    requires Possible(INITIAL, steps) && a in After(INITIAL, steps).accepted
    ensures var r := After(INITIAL, steps).records;
            && a.at - 30000 < a.verdict.given <= a.done
            && a.verdict.listed.Some? && a.at - 60000 < a.verdict.listed.value
            && a.verdict.key in r.issued && a.verdict.key.org == a.presented.org
            && r.issued[a.verdict.key] == Stored(a.presented.hash, a.verdict.expiresAt)
            && (a.verdict.expiresAt.Some? ==> a.at < a.verdict.expiresAt.value)
            && (a.verdict.key in r.revoked ==>
                  && a.verdict.given <= r.revoked[a.verdict.key]
                  && a.at < r.revoked[a.verdict.key] + 30000)
  {
    RunKeepsInv(INITIAL, steps);
    assert GoodAcceptance(After(INITIAL, steps).records, a);
  }

  /**
   When a revoked key may still be accepted, by the clock at which it is: 30 s or more after the revocation never from a
   cache, and only by a lookup whose answer was under way for 30 s or more since the store gave it.
   */
  lemma LateAcceptancesWereUnderWay(steps: seq<Step>, a: Acceptance)
    requires Possible(INITIAL, steps) && a in After(INITIAL, steps).accepted
    requires var r := After(INITIAL, steps).records;
             a.verdict.key in r.revoked && a.done >= r.revoked[a.verdict.key] + 30000
    ensures !a.cached
    ensures a.done - a.verdict.given >= 30000
    ensures a.verdict.given <= After(INITIAL, steps).records.revoked[a.verdict.key]
  {
    RunKeepsInv(INITIAL, steps);
    assert GoodAcceptance(After(INITIAL, steps).records, a);
  }

  /** Every lookup finishes less than `limit` ms after its verdict was given. */
  ghost predicate AnswersArriveWithin(limit: int, w: World, steps: seq<Step>)
    requires Possible(w, steps)
    decreases |steps|
  {
    steps == [] ||
    ((steps[0].Finish? ==> w.records.clock < w.lookups[steps[0].request].stage.verdict.given + limit) &&
     AnswersArriveWithin(limit, Next(w, steps[0]), steps[1..]))
  }

  lemma OneStepAccepts(w: World, step: Step, a: Acceptance)
    requires Enabled(w, step) && a in Next(w, step).accepted && a !in w.accepted && !a.cached
    ensures step.Finish? && a.verdict == w.lookups[step.request].stage.verdict && a.done == w.records.clock
  {
  }

  lemma {:induction false} LookupsWereInTime(limit: int, w: World, steps: seq<Step>, a: Acceptance)
    requires Possible(w, steps) && AnswersArriveWithin(limit, w, steps)
    requires a in After(w, steps).accepted && a !in w.accepted && !a.cached
    ensures a.done < a.verdict.given + limit
    decreases |steps|
  {
    if steps != [] {
      var w' := Next(w, steps[0]);
      if a in w'.accepted {
        OneStepAccepts(w, steps[0], a);
      } else {
        LookupsWereInTime(limit, w', steps[1..], a);
      }
    }
  }

  /**
   So when answers arrive within `limit` ms, a key revoked at `r` is accepted by no isolate from `r` plus the larger of
   30 s and `limit` on, lookups in flight at `r` included.
   */
  lemma RevokedKeysAreRefused(limit: int, steps: seq<Step>, a: Acceptance)
    requires Possible(INITIAL, steps) && AnswersArriveWithin(limit, INITIAL, steps)
    requires a in After(INITIAL, steps).accepted && a.verdict.key in After(INITIAL, steps).records.revoked
    ensures a.done < After(INITIAL, steps).records.revoked[a.verdict.key]
                     + if limit < 30000 then 30000 else limit
  {
    AcceptancesAreFresh(steps, a);
    if a.done >= After(INITIAL, steps).records.revoked[a.verdict.key] + 30000 {
      LateAcceptancesWereUnderWay(steps, a);
      LookupsWereInTime(limit, INITIAL, steps, a);
    }
  }

  lemma {:induction false} OneStepMore(w: World, steps: seq<Step>, step: Step)
    requires Possible(w, steps) && Enabled(After(w, steps), step)
    ensures Possible(w, steps + [step]) && After(w, steps + [step]) == Next(After(w, steps), step)
    decreases |steps|
  {
    if steps == [] {
      assert [step][1..] == [];
    } else {
      OneStepMore(Next(w, steps[0]), steps[1..], step);
      assert (steps + [step])[1..] == steps[1..] + [step];
    }
  }

  lemma OneStep(w: World, step: Step)
    requires Enabled(w, step)
    ensures Possible(w, [step]) && After(w, [step]) == Next(w, step)
  {
    assert [step][1..] == [];
  }

  lemma {:induction false} MoreSteps(w: World, steps: seq<Step>, more: seq<Step>)
    requires Possible(w, steps) && Possible(After(w, steps), more)
    ensures Possible(w, steps + more) && After(w, steps + more) == After(After(w, steps), more)
    decreases |steps|
  {
    if steps == [] {
      assert steps + more == more;
    } else {
      assert (steps + more)[1..] == steps[1..] + more;
      MoreSteps(Next(w, steps[0]), steps[1..], more);
    }
  }

  /** A lookup of a fresh key of a listed org, undisturbed until its store's answer is under way. */
  function AnsweredSteps(isolate: nat, presented: Presented): seq<Step> {
    [] + [Meanwhile(Issue(KeyId(presented.org, presented.keyId), Stored(presented.hash, None)))]
    + [Meanwhile(List(presented.org))] + [Begin(0, isolate, presented)] + [LookUpOrg(0)] + [AskRegistry(0)]
    + [StoreOrg(0)] + [AskStore(0)]
  }

  /**
   Without such a limit there is no bound: when the key is revoked while the answer is under way, the answer is still
   accepted when it arrives, whatever the `delay` is.
   */
  lemma AnswersUnderWayAreAccepted(delay: nat, isolate: nat, presented: Presented)
    ensures var key := KeyId(presented.org, presented.keyId);
            var steps := AnsweredSteps(isolate, presented)
                         + [Meanwhile(Revoke(key))] + [Meanwhile(Tick(delay))] + [Finish(0)];
            && Possible(INITIAL, steps)
            && key in After(INITIAL, steps).records.revoked && After(INITIAL, steps).records.revoked[key] == 0
            && Acceptance(0, delay, false, presented, Verdict(key, presented.hash, None, 0, 0, Some(0)))
               in After(INITIAL, steps).accepted
  {
    var key, stored := KeyId(presented.org, presented.keyId), Stored(presented.hash, None);
    var answered := AnsweredSteps(isolate, presented);
    AnswerIsUnderWay(isolate, presented);
    OneStepMore(INITIAL, answered, Meanwhile(Revoke(key)));
    OneStepMore(INITIAL, answered + [Meanwhile(Revoke(key))], Meanwhile(Tick(delay)));
    OneStepMore(INITIAL, answered + [Meanwhile(Revoke(key))] + [Meanwhile(Tick(delay))], Finish(0));
  }

  lemma AnswerIsUnderWay(isolate: nat, presented: Presented)
    ensures var key := KeyId(presented.org, presented.keyId);
            var steps := AnsweredSteps(isolate, presented);
            && Possible(INITIAL, steps)
            && After(INITIAL, steps).records.clock == 0 && key in After(INITIAL, steps).records.keys
            && 0 in After(INITIAL, steps).lookups
            && After(INITIAL, steps).lookups[0] == Lookup(isolate, presented, 0,
                 Answered(Verdict(key, presented.hash, None, 0, 0, Some(0))))
  {
    var key, stored := KeyId(presented.org, presented.keyId), Stored(presented.hash, None);
    var steps: seq<Step> := [];
    OneStepMore(INITIAL, steps, Meanwhile(Issue(key, stored)));
    steps := steps + [Meanwhile(Issue(key, stored))];
    OneStepMore(INITIAL, steps, Meanwhile(List(presented.org)));
    steps := steps + [Meanwhile(List(presented.org))];
    OneStepMore(INITIAL, steps, Begin(0, isolate, presented));
    steps := steps + [Begin(0, isolate, presented)];
    OneStepMore(INITIAL, steps, LookUpOrg(0));
    steps := steps + [LookUpOrg(0)];
    OneStepMore(INITIAL, steps, AskRegistry(0));
    steps := steps + [AskRegistry(0)];
    OneStepMore(INITIAL, steps, StoreOrg(0));
    steps := steps + [StoreOrg(0)];
    OneStepMore(INITIAL, steps, AskStore(0));
  }

  /**
   A store is asked for a key of an org only when the registry listed that org at a clock later than 30 s before the
   request began.
   */
  lemma OnlyListedOrgsAreAsked(steps: seq<Step>, request: nat)
    requires Possible(INITIAL, steps) && Enabled(After(INITIAL, steps), AskStore(request))
    ensures var w := After(INITIAL, steps);
            var lookup := w.lookups[request];
            && lookup.presented.org in w.records.lastListed
            && lookup.began - 30000 < w.records.lastListed[lookup.presented.org] <= w.records.clock
  {
    RunKeepsInv(INITIAL, steps);
    assert GoodLookup(After(INITIAL, steps).records, After(INITIAL, steps).lookups[request]);
  }

  /** An org the registry never listed is never asked: a made-up org id reaches no store. */
  lemma MadeUpOrgsAreNeverAsked(steps: seq<Step>, request: nat, org: string)
    requires Possible(INITIAL, steps) && Enabled(After(INITIAL, steps), AskStore(request))
    requires Meanwhile(List(org)) !in steps
    ensures After(INITIAL, steps).lookups[request].presented.org != org
  {
    OnlyListedOrgsAreAsked(steps, request);
    NeverListed(INITIAL, steps, org);
  }

  lemma {:induction false} NeverListed(w: World, steps: seq<Step>, org: string)
    requires Possible(w, steps) && Meanwhile(List(org)) !in steps && org !in w.records.lastListed
    ensures org !in After(w, steps).records.lastListed
    decreases |steps|
  {
    if steps != [] {
      assert steps[0] in steps && forall step :: step in steps[1..] ==> step in steps;
      NeverListed(Next(w, steps[0]), steps[1..], org);
    }
  }

  // ---- good keys are accepted ----

  /** A hash is of one key's text: no other key ever issued by an org has it. */
  predicate HasItsOwnHash(r: Records, key: KeyId) {
    key in r.issued &&
    forall other :: other in r.issued && other.org == key.org && r.issued[other].hash == r.issued[key].hash ==>
      other == key
  }

  /** What is presented is an issued key that was not revoked and has not expired, of a listed org. */
  predicate IsGood(r: Records, presented: Presented) {
    var key := KeyId(presented.org, presented.keyId);
    && key in r.issued && key !in r.revoked && r.issued[key].hash == presented.hash
    && (r.issued[key].expiresAt.None? || r.clock < r.issued[key].expiresAt.value)
    && presented.org in r.orgs
  }

  /** A step that only lets one request go on. */
  predicate IsOf(step: Step, request: nat) {
    match step
    case Begin(of, _, _) => of == request
    case LookUpOrg(of) => of == request
    case AskRegistry(of) => of == request
    case StoreOrg(of) => of == request
    case AskStore(of) => of == request
    case Finish(of) => of == request
    case _ => false
  }

  /**
   A good key is accepted, as the key it is: in every reachable state a request that presents one, in any isolate and
   whatever its caches hold, is accepted at once when nothing disturbs it.
   */
  lemma {:induction false} GoodKeysAreAccepted(steps: seq<Step>, request: nat, isolate: nat, presented: Presented)
    returns (more: seq<Step>, a: Acceptance)
    requires Possible(INITIAL, steps) && request !in After(INITIAL, steps).lookups
    requires IsGood(After(INITIAL, steps).records, presented)
    requires HasItsOwnHash(After(INITIAL, steps).records, KeyId(presented.org, presented.keyId))
    ensures Possible(After(INITIAL, steps), more) && forall step :: step in more ==> IsOf(step, request)
    ensures a in After(After(INITIAL, steps), more).accepted
    ensures a.presented == presented && a.verdict.key == KeyId(presented.org, presented.keyId)
    ensures a.at == a.done == After(INITIAL, steps).records.clock
  {
    RunKeepsInv(INITIAL, steps);
    more, a := GoodKeyIn(After(INITIAL, steps), request, isolate, presented);
  }

  lemma {:induction false} GoodKeyIn(w: World, request: nat, isolate: nat, presented: Presented)
    returns (more: seq<Step>, a: Acceptance)
    requires Inv(w) && request !in w.lookups && IsGood(w.records, presented)
    requires HasItsOwnHash(w.records, KeyId(presented.org, presented.keyId))
    ensures Possible(w, more) && forall step :: step in more ==> IsOf(step, request)
    ensures a in After(w, more).accepted && a.at == a.done == w.records.clock
    ensures a.presented == presented && a.verdict.key == KeyId(presented.org, presented.keyId)
  {
    var begin := Begin(request, isolate, presented);
    OneStep(w, begin);
    var cached := CachedFor(w, isolate, presented);
    if cached.Some? {
      more := [begin];
      a := Acceptance(w.records.clock, w.records.clock, true, presented, cached.value);
      assert GoodVerdict(w.records, cached.value);
    } else {
      var missed := Missing(w, request, isolate, presented);
      assert Next(w, begin) == missed;
      var found, w2 := ListedOrgsAreFound(missed, request);
      var rest;
      rest, a := LiveKeysAreAccepted(w2, request);
      MoreSteps(missed, found, rest);
      MoreSteps(w, [begin], found + rest);
      more := [begin] + (found + rest);
    }
  }

  lemma {:induction false} ListedOrgsAreFound(w: World, request: nat) returns (more: seq<Step>, w': World)
    requires request in w.lookups && w.lookups[request].stage.Missed?
    requires w.lookups[request].presented.org in w.records.orgs
    ensures Possible(w, more) && w' == After(w, more) && forall step :: step in more ==> IsOf(step, request)
    ensures w'.records == w.records
    ensures request in w'.lookups && w'.lookups[request] == w.lookups[request].(stage := OrgFound)
  {
    OneStep(w, LookUpOrg(request));
    more, w' := [LookUpOrg(request)], Next(w, LookUpOrg(request));
    if w'.lookups[request].stage.AskingRegistry? {
      OneStepMore(w, more, AskRegistry(request));
      more, w' := more + [AskRegistry(request)], Next(w', AskRegistry(request));
      OneStepMore(w, more, StoreOrg(request));
      more, w' := more + [StoreOrg(request)], Next(w', StoreOrg(request));
    }
  }

  lemma {:induction false} LiveKeysAreAccepted(w: World, request: nat) returns (more: seq<Step>, a: Acceptance)
    requires RecordsInv(w.records) && request in w.lookups && w.lookups[request].stage.OrgFound?
    requires w.lookups[request].began == w.records.clock && IsGood(w.records, w.lookups[request].presented)
    ensures Possible(w, more) && forall step :: step in more ==> IsOf(step, request)
    ensures var presented := w.lookups[request].presented;
            && a in After(w, more).accepted && a.at == a.done == w.records.clock
            && a.presented == presented && a.verdict.key == KeyId(presented.org, presented.keyId)
  {
    var lookup := w.lookups[request];
    OneStep(w, AskStore(request));
    OneStepMore(w, [AskStore(request)], Finish(request));
    more := [AskStore(request)] + [Finish(request)];
    a := Acceptance(w.records.clock, w.records.clock, false, lookup.presented, VerdictFor(w.records, lookup));
  }

  /** A verdict is trusted for 30 s from its request on and before the key expires, no longer and no shorter. */
  lemma CachedExactlyWhile(w: World, isolate: nat, presented: Presented)
    ensures var at := (isolate, presented.org, presented.hash);
            CachedFor(w, isolate, presented).Some? <==>
            && at in w.verified && w.records.clock < w.verified[at].began + 30000
            && (w.verified[at].expiresAt.None? || w.records.clock < w.verified[at].expiresAt.value)
    ensures var at := (isolate, presented.org, presented.hash);
            CachedFor(w, isolate, presented).Some? ==> CachedFor(w, isolate, presented).value == w.verified[at]
  {
  }
}
