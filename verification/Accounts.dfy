/**
 The org's account under webhooks delivered late, twice and out of order (`applySubscription`, `endSubscription`,
 packages/billing/src/store.ts:523-598).
 */
module Accounts {
  import opened Plan
  import opened Ledger

  // ---- the account invariant ----

  ghost predicate Sound(s: State) {
    && (s.plan.Payg? <==> s.account.subscriptionId.Some?)
    && (s.account.payment.PastDue? ==> s.plan.Payg?)
    && (s.account.subscriptionId.Some? ==> s.account.subscriptionId != s.account.endedSubscriptionId)
    && (s.plan.Payg? ==> s.account.customerId.Some?)
  }

  /** What the two ways of closing the usage leave alone. */
  lemma OnlyTheLedgerMoves(s: State, until: int, id: string)
    ensures var n := NewBatch(s, until, id);
            n.(sent := s.sent, pending := s.pending) == s
    ensures CloseUsage(s, id).(sent := s.sent, pending := s.pending) == s
    ensures WriteOff(s).(sent := s.sent) == s
  {
  }

  lemma StepKeepsSound(calendar: Calendar, s: State, op: Op)
    requires Sound(s) && Allowed(op)
    ensures Sound(Do(calendar, s, op))
    ensures s.account.changedAt <= Do(calendar, s, op).account.changedAt
  {
  }

  /**
   In every state reached from an org's first: the plan is Pay as you go exactly while a subscription is current, past
   due only then, the current subscription never the recorded ended one, a known customer on Pay as you go;
   and the time of the last change never goes back.
   */
  lemma {:induction false} ReachableIsSound(calendar: Calendar, s: State, ops: seq<Op>)
    requires Sound(s) && AllAllowed(ops)
    ensures Sound(EMPTY)
    ensures Sound(Run(calendar, s, ops))
    ensures s.account.changedAt <= Run(calendar, s, ops).account.changedAt
    decreases |ops|
  {
    if ops != [] {
      StepKeepsSound(calendar, s, ops[0]);
      ReachableIsSound(calendar, Do(calendar, s, ops[0]), ops[1..]);
    }
  }

  // ---- which reports count ----

  /**
   A report changes nothing exactly when it is older than the last one taken up, or is no activation and is about the
   subscription that ended last, about another than the current one, or the end of none. Any other leaves the org on
   what it reports, with its time, its customer when none was known, and, of an end, the subscription that ended.
   */
  lemma ReportsAreTakenUpExactlyWhen(s: State, change: Change, id: string)
    ensures var s', was := Apply(s, change, id), s.account;
            if || change.changedAt < was.changedAt
               || (!change.status.Active? &&
                   (was.endedSubscriptionId == Some(change.subscriptionId) ||
                    (was.subscriptionId.Some? && was.subscriptionId != Some(change.subscriptionId)) ||
                    (change.status.Ended? && was.subscriptionId.None?)))
            then s' == s
            else
              && Shows(StandingOf(s'), change) && s'.account.changedAt == change.changedAt
              && s'.account.customerId == (if was.customerId.Some? then was.customerId else Some(change.customerId))
              && (change.status.Ended? ==> s'.account.endedSubscriptionId == Some(change.subscriptionId))
              && (!change.status.Ended? ==>
                    s'.account.endedSubscriptionId ==
                    if was.endedSubscriptionId == Some(change.subscriptionId) then None else was.endedSubscriptionId)
  {
    OnlyTheLedgerMoves(s.(account := AccountAfter(s.account, change), plan := PlanAfter(change)), EVERY_MONTH, id);
  }

  /**
   What a report answers: true exactly when the plan, the customer, the subscription or the payment is another now.
   */
  lemma ChangedExactlyWhen(s: State, change: Change, id: string)
    ensures var s' := Apply(s, change, id);
            Changed(s, change) <==>
            || s'.plan != s.plan || s'.account.customerId != s.account.customerId
            || s'.account.subscriptionId != s.account.subscriptionId || s'.account.payment != s.account.payment
  {
    OnlyTheLedgerMoves(s.(account := AccountAfter(s.account, change), plan := PlanAfter(change)), EVERY_MONTH, id);
  }

  /** Ending leaves the org on Free with payments that go through, and remembers what ended and when. */
  lemma EndingLeaves(s: State, now: int, id: string)
    ensures var s' := EndSubscription(s, now, id);
            && s'.plan.Free? && s'.account.subscriptionId.None? && s'.account.payment.Okay?
            && s'.account.customerId == s.account.customerId
            && s'.account.endedSubscriptionId == EndedBy(s.account)
            && s'.account.changedAt in {now, s.account.changedAt}
            && now <= s'.account.changedAt && s.account.changedAt <= s'.account.changedAt
  {
    OnlyTheLedgerMoves(s.(account := EndSubscription(s, now, id).account, plan := Free), EVERY_MONTH, id);
  }

  // ---- repeated and late reports ----

  /** Applying any change a second time leaves the whole store as once, and answers false. */
  lemma RepeatIsInert(s: State, change: Change, id: string, again: string)
    ensures var once := Apply(s, change, id);
            Apply(once, change, again) == once && !Changed(once, change)
  {
    var once := Apply(s, change, id);
    OnlyTheLedgerMoves(s.(account := AccountAfter(s.account, change), plan := PlanAfter(change)), EVERY_MONTH, id);
    if !Ignored(s.account, change) && !change.status.Ended? {
      assert once.account == AccountAfter(s.account, change) && once.plan == Payg;
      assert Apply(once, change, again) ==
          once.(account := AccountAfter(once.account, change), plan := PlanAfter(change));
    }
  }

  /**
   What may arrive of a subscription after it ended at `now`: anything from before, any end, and anything about it but
   its becoming active again.
   */
  predicate Late(change: Change, now: int, ended: Option<string>) {
    || change.changedAt < now
    || change.status.Ended?
    || (!change.status.Active? && Some(change.subscriptionId) == ended)
  }

  function ApplyAll(s: State, changes: seq<Change>, ids: seq<string>): State
    requires |ids| == |changes|
    decreases |changes|
  {
    if changes == [] then s else ApplyAll(Apply(s, changes[0], ids[0]), changes[1..], ids[1..])
  }

  lemma {:induction false} LateReportsAreIgnored(
    s: State, since: int, ended: Option<string>, changes: seq<Change>, ids: seq<string>)
    requires s.account.subscriptionId.None? && s.account.endedSubscriptionId == ended && since <= s.account.changedAt
    requires |ids| == |changes|
    requires forall i :: 0 <= i < |changes| ==> Late(changes[i], since, ended)
    ensures ApplyAll(s, changes, ids) == s
    decreases |changes|
  {
    if changes != [] {
      assert Late(changes[0], since, ended);
      assert Ignored(s.account, changes[0]);
      LateReportsAreIgnored(s, since, ended, changes[1..], ids[1..]);
    }
  }

  /** The subscription an owner's ending records: the current one, or on Free the one that ended last. */
  function EndedBy(account: Account): Option<string> {
    if account.subscriptionId.Some? then account.subscriptionId else account.endedSubscriptionId
  }

  /** After an owner ended the subscription, no sequence of late reports about it changes anything in the store. */
  lemma LateReportsAreInert(s: State, now: int, id: string, changes: seq<Change>, ids: seq<string>)
    requires |ids| == |changes|
    requires forall i :: 0 <= i < |changes| ==> Late(changes[i], now, EndedBy(s.account))
    ensures ApplyAll(EndSubscription(s, now, id), changes, ids) == EndSubscription(s, now, id)
  {
    LateReportsAreIgnored(EndSubscription(s, now, id), now, EndedBy(s.account), changes, ids);
  }

  /**
   Nor after the provider reported its end: the last invoice of a subscription that ended is not taken for a new one.
   */
  lemma ReportsAfterAnEndAreInert(s: State, end: Change, id: string, changes: seq<Change>, ids: seq<string>)
    requires end.status.Ended? && !Ignored(s.account, end) && |ids| == |changes|
    requires forall i :: 0 <= i < |changes| ==> Late(changes[i], end.changedAt, Some(end.subscriptionId))
    ensures ApplyAll(Apply(s, end, id), changes, ids) == Apply(s, end, id)
  {
    OnlyTheLedgerMoves(s.(account := AccountAfter(s.account, end), plan := Free), EVERY_MONTH, id);
    LateReportsAreIgnored(Apply(s, end, id), end.changedAt, Some(end.subscriptionId), changes, ids);
  }

  // ---- the latest change wins ----

  /** What of the store a delivery decides: the plan and the account. */
  datatype Standing = Standing(plan: Plan, account: Account)

  function StandingOf(s: State): Standing {
    Standing(s.plan, s.account)
  }

  function Decide(st: Standing, change: Change): Standing {
    if Ignored(st.account, change) then st else Standing(PlanAfter(change), AccountAfter(st.account, change))
  }

  function DecideAll(st: Standing, changes: seq<Change>): Standing
    decreases |changes|
  {
    if changes == [] then st else DecideAll(Decide(st, changes[0]), changes[1..])
  }

  /** The standing a sequence of deliveries leaves does not depend on the ledger, nor on the ids of its batches. */
  lemma {:induction false} DeliveriesDecideTheStanding(s: State, changes: seq<Change>, ids: seq<string>)
    requires |ids| == |changes|
    ensures StandingOf(ApplyAll(s, changes, ids)) == DecideAll(StandingOf(s), changes)
    decreases |changes|
  {
    if changes != [] {
      DeliveriesDecideTheStanding(Apply(s, changes[0], ids[0]), changes[1..], ids[1..]);
    }
  }

  /** `latest` was delivered (perhaps more than once), and everything else is from before it. */
  predicate IsLatest(changes: seq<Change>, latest: Change) {
    latest in changes && OthersAreOlder(changes, latest)
  }

  predicate OthersAreOlder(changes: seq<Change>, latest: Change) {
    forall i :: 0 <= i < |changes| ==> changes[i] == latest || changes[i].changedAt < latest.changedAt
  }

  /** Whether an org has the plan, the payment state and the current subscription a change reports. */
  predicate Shows(st: Standing, change: Change) {
    && st.plan == PlanAfter(change)
    && st.account.payment == (if change.status.PastDueStatus? then PastDue else Okay)
    && st.account.subscriptionId == (if change.status.Ended? then None else Some(change.subscriptionId))
  }

  /** Once the latest change was applied, nothing but it is applied again. */
  lemma {:induction false} LatestStays(st: Standing, changes: seq<Change>, latest: Change)
    requires OthersAreOlder(changes, latest)
    requires Shows(st, latest) && st.account.changedAt == latest.changedAt
    ensures Shows(DecideAll(st, changes), latest)
    decreases |changes|
  {
    if changes != [] {
      assert changes[0] == latest || changes[0].changedAt < latest.changedAt;
      LatestStays(Decide(st, changes[0]), changes[1..], latest);
    }
  }

  /**
   Delivered in any order, with any repeats: when the latest change is `active` and not older than the account, the org
   ends on Pay as you go with that subscription and payments that go through, whatever the other changes are.
   */
  lemma {:induction false} LatestActiveWins(st: Standing, changes: seq<Change>, latest: Change)
    requires IsLatest(changes, latest) && latest.status.Active?
    requires st.account.changedAt <= latest.changedAt
    ensures Shows(DecideAll(st, changes), latest)
    decreases |changes|
  {
    var first := changes[0];
    assert first == latest || first.changedAt < latest.changedAt;
    if first == latest {
      LatestStays(Decide(st, first), changes[1..], latest);
    } else {
      LatestActiveWins(Decide(st, first), changes[1..], latest);
    }
  }

  /** The org's current subscription, or one it may take up while it has none. */
  predicate Concerns(account: Account, subscription: string) {
    && (account.subscriptionId.Some? ==> account.subscriptionId == Some(subscription))
    && account.endedSubscriptionId != Some(subscription)
  }

  /**
   Delivered in any order, with any repeats, changes that all concern one subscription, none of them its end but perhaps
   the latest: when the latest is `past_due` the org ends past due on it, and when it is the end of the org's current
   subscription the org ends on Free.
   */
  lemma {:induction false} LatestOfOneSubscriptionWins(st: Standing, changes: seq<Change>, latest: Change)
    requires IsLatest(changes, latest)
    requires st.account.changedAt <= latest.changedAt
    requires Concerns(st.account, latest.subscriptionId)
    requires latest.status.Ended? ==> st.account.subscriptionId.Some?
    requires forall i :: 0 <= i < |changes| ==>
               changes[i].subscriptionId == latest.subscriptionId &&
               (changes[i] != latest ==> !changes[i].status.Ended?)
    ensures Shows(DecideAll(st, changes), latest)
    decreases |changes|
  {
    var first := changes[0];
    assert first == latest || first.changedAt < latest.changedAt;
    if first == latest {
      LatestStays(Decide(st, first), changes[1..], latest);
    } else {
      LatestOfOneSubscriptionWins(Decide(st, first), changes[1..], latest);
    }
  }

  /** What a store has after deliveries is as its plan and account say, whatever its ledger was. */
  lemma TheStoreEndsOnTheLatestActive(s: State, changes: seq<Change>, ids: seq<string>, latest: Change)
    requires |ids| == |changes| && IsLatest(changes, latest) && latest.status.Active?
    requires s.account.changedAt <= latest.changedAt
    ensures Shows(StandingOf(ApplyAll(s, changes, ids)), latest)
  {
    DeliveriesDecideTheStanding(s, changes, ids);
    LatestActiveWins(StandingOf(s), changes, latest);
  }

  lemma TheStoreEndsOnTheLatestOfOne(s: State, changes: seq<Change>, ids: seq<string>, latest: Change)
    requires |ids| == |changes| && IsLatest(changes, latest)
    requires s.account.changedAt <= latest.changedAt && Concerns(s.account, latest.subscriptionId)
    requires latest.status.Ended? ==> s.account.subscriptionId.Some?
    requires forall i :: 0 <= i < |changes| ==>
               changes[i].subscriptionId == latest.subscriptionId &&
               (changes[i] != latest ==> !changes[i].status.Ended?)
    ensures Shows(StandingOf(ApplyAll(s, changes, ids)), latest)
  {
    DeliveriesDecideTheStanding(s, changes, ids);
    LatestOfOneSubscriptionWins(StandingOf(s), changes, latest);
  }

  // ---- where order does matter ----

  /** Delivering an end before the activation it ended leaves the org on Pay as you go: not every order agrees. */
  lemma OrderCanMatter()
    ensures var st := Standing(Free, NO_ACCOUNT);
            var activated := Change(Active, "sub", "customer", 1);
            var ended := Change(Ended, "sub", "customer", 2);
            && DecideAll(st, [activated, ended]).plan == Free
            && DecideAll(st, [ended, activated]).plan == Payg
  {
    var st := Standing(Free, NO_ACCOUNT);
    var activated := Change(Active, "sub", "customer", 1);
    var ended := Change(Ended, "sub", "customer", 2);
    assert DecideAll(Decide(Decide(st, activated), ended), []).plan == Free;
    assert DecideAll(Decide(Decide(st, ended), activated), []).plan == Payg;
    assert [activated, ended][1..] == [ended] && [ended, activated][1..] == [activated];
    assert [activated][1..] == [] && [ended][1..] == [];
  }

  predicate SameStanding(a: Standing, b: Standing) {
    a.plan == b.plan && a.account.payment == b.account.payment && a.account.subscriptionId == b.account.subscriptionId
  }

  /**
   Exactly when the two orders of an older and a newer change leave what an org shows the same: the newer is `active`;
   or the older would be ignored anyway; or the older is an end and so is the newer; or the older is no end, and the
   newer would be taken up now exactly when it concerns the subscription of the older.
   */
  lemma OrdersAgreeExactlyWhen(st: Standing, older: Change, newer: Change)
    requires older.changedAt < newer.changedAt
    requires st.plan.Payg? <==> st.account.subscriptionId.Some?
    requires st.account.payment.PastDue? ==> st.plan.Payg?
    ensures SameStanding(Decide(Decide(st, older), newer), Decide(Decide(st, newer), older)) <==>
            || newer.status.Active?
            || Ignored(st.account, older)
            || (if older.status.Ended? then newer.status.Ended?
                else (newer.subscriptionId == older.subscriptionId) == !Ignored(st.account, newer))
  {
  }

  /**
   And exactly when they leave the same plan and the same account, to the recorded ended subscription, the customer and
   the time of the last change.
   */
  lemma OrdersAgreeInFullExactlyWhen(st: Standing, older: Change, newer: Change)
    requires older.changedAt < newer.changedAt
    requires st.plan.Payg? <==> st.account.subscriptionId.Some?
    requires st.account.payment.PastDue? ==> st.plan.Payg?
    ensures Decide(Decide(st, older), newer) == Decide(Decide(st, newer), older) <==>
            || Ignored(st.account, older)
            || (Ignored(st.account, newer) && !newer.status.Active? &&
                if older.status.Ended? then newer.status.Ended? else newer.subscriptionId != older.subscriptionId)
            || (!Ignored(st.account, newer) && SameCustomer(st.account, older, newer) &&
                if older.status.Ended? then
                  newer.status.Active? && newer.subscriptionId == older.subscriptionId &&
                  st.account.endedSubscriptionId.None?
                else
                  && (newer.status.Active? || newer.subscriptionId == older.subscriptionId)
                  && (newer.status.Ended? || newer.subscriptionId == older.subscriptionId ||
                      st.account.endedSubscriptionId != Some(older.subscriptionId)))
  {
  }

  /** Two changes record the same customer, whichever comes first. */
  predicate SameCustomer(account: Account, older: Change, newer: Change) {
    account.customerId.Some? || older.customerId == newer.customerId
  }
}
