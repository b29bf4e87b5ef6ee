/**
 Nothing an org owes is lost beyond rounding: what a batch holds, how long it stays the same, what sending it leaves,
 and what leaving Pay as you go forfeits (packages/billing/src/store.ts:579-726).
 */
module Owed {
  import opened Plan
  import opened Bill
  import opened Ledger
  import opened SendUsageRuns
  import Accounts

  /** No key of the months before `until` has more than rounding left to send. */
  ghost predicate OnlyRoundingLeft(s: State, until: int) {
    forall key: Key :: key.month < until ==> Unsent(s, key) <= 0.000000001
  }

  ghost predicate SentIsPositive(s: State) {
    forall key :: 0.0 <= At(s.sent, key)
  }

  lemma NothingToSendExactlyWhen(s: State, until: int)
    requires SentIsPositive(s)
    ensures NewAmounts(s, until) == map[] <==> OnlyRoundingLeft(s, until)
  {
    if NewAmounts(s, until) == map[] {
      forall key: Key | key.month < until ensures Unsent(s, key) <= SEND_EPSILON {
        assert key !in NewAmounts(s, until);
        assert 0.0 <= At(s.sent, key);
      }
    } else {
      var key :| key in NewAmounts(s, until);
      assert Unsent(s, key) > SEND_EPSILON;
    }
  }

  /**
   A batch newly taken of a billed org holds exactly the keys, of months up to now, with more than rounding to send, and
   all of what each has; there is none exactly when no key has any.
   */
  lemma TakeAnswersWhatIsOwed(calendar: Calendar, s: State, now: int, id: string)
    requires Billed(s) && Accounts.Sound(s) && s.pending.None? && SentIsPositive(s)
    ensures var batch := Taken(calendar, s, now, id);
            && (batch.None? <==> OnlyRoundingLeft(s, calendar(now).end))
            && (batch.Some? ==>
                  && batch.value.id == id && Some(batch.value.customerId) == s.account.customerId
                  && forall key: Key :: if key.month < calendar(now).end && Unsent(s, key) > 0.000000001
                                   then key in batch.value.amounts && batch.value.amounts[key] == Unsent(s, key)
                                   else key !in batch.value.amounts)
  {
    var until := calendar(now).end;
    assert forall key :: Unsent(s, key) > SEND_EPSILON ==> 0.0 <= At(s.sent, key) && key in s.usage;
    NothingToSendExactlyWhen(s, until);
  }

  /**
   Asking for a batch of an unbilled org, on whatever plan, answers none and settles its use up to now: what it used is
   not billed later either, even when requests are taken back in between.
   */
  lemma AskingSettlesUnbilledUse(calendar: Calendar, s: State, now: int, id: string, key: Key)
    requires s.unbilled && s.pending.None? && SentIsPositive(s)
    ensures Taken(calendar, s, now, id).None?
    ensures At(Take(calendar, s, now, id).sent, key) == Max(At(s.sent, key), Above(s, key))
  {
    assert 0.0 <= At(s.sent, key);
    WriteOffAt(s, key);
  }

  /** Until it is acknowledged, whatever else is called, asking for a batch answers the one on its way. */
  lemma {:induction false} TheSameBatchUntilAcknowledged(
    calendar: Calendar, s: State, ops: seq<Op>, now: int, id: string)
    requires s.pending.Some?
    requires forall i :: 0 <= i < |ops| ==> ops[i] != OpAcknowledge(s.pending.value.id)
    ensures Run(calendar, s, ops).pending == s.pending
    ensures Taken(calendar, Run(calendar, s, ops), now, id) == s.pending
    decreases |ops|
  {
    if ops != [] {
      if ops[0].OpAcknowledge? {
        assert ops[0].id != s.pending.value.id;
      } else {
        PendingMoves(calendar, s, ops[0]);
      }
      TheSameBatchUntilAcknowledged(calendar, Do(calendar, s, ops[0]), ops[1..], now, id);
    }
  }

  /** Taking and acknowledging leaves at most rounding to send of any month up to now. */
  lemma SendingLeavesOnlyRounding(calendar: Calendar, s: State, now: int, id: string)
    requires Billed(s) && Accounts.Sound(s) && s.pending.None? && SentIsPositive(s)
    ensures OnlyRoundingLeft(Acknowledge(Take(calendar, s, now, id), id), calendar(now).end)
    ensures Acknowledge(Take(calendar, s, now, id), id).pending.None?
  {
    TakeAnswersWhatIsOwed(calendar, s, now, id);
    var taken := Take(calendar, s, now, id);
    var settled := Acknowledge(taken, id);
    forall key: Key | key.month < calendar(now).end ensures Unsent(settled, key) <= SEND_EPSILON {
      assert Above(settled, key) == Above(s, key);
      assert Unsent(s, key) > SEND_EPSILON ==> At(settled.sent, key) == At(s.sent, key) + Unsent(s, key);
    }
  }

  /** A time a clock can read: JavaScript's dates end 100,000,000 days after 1970. */
  predicate IsTime(t: int) {
    t <= 8640000000000000
  }

  /**
   A batch holds exactly what is owed, of months a clock can read: each key with more than rounding unsent, in full.
   */
  ghost predicate HoldsWhatIsOwed(s: State, pending: Option<Batch>, id: Option<string>) {
    && (pending.Some? ==> Some(pending.value.id) == id && Some(pending.value.customerId) == s.account.customerId)
    && forall key: Key :: IsTime(key.month) ==>
         if Unsent(s, key) > 0.000000001
         then pending.Some? && key in pending.value.amounts && pending.value.amounts[key] == Unsent(s, key)
         else pending.None? || key !in pending.value.amounts
  }

  /**
   A billed org that leaves with no batch on its way, by an end, a report or the unbilled mark, gets a last batch of
   exactly what it owes, of every month there is.
   */
  lemma LeavingSendsWhatIsOwed(calendar: Calendar, s: State, op: Op)
    requires Billed(s) && Accounts.Sound(s) && s.pending.None? && SentIsPositive(s)
    requires Allowed(op) && !Billed(Do(calendar, s, op))
    ensures HoldsWhatIsOwed(s, Do(calendar, s, op).pending, IdOf(op))
  {
    match op
    case OpApply(change, id) =>
      ClosingSendsWhatIsOwed(s, s.(account := AccountAfter(s.account, change), plan := Free), id);
    case OpEnd(now, id) =>
      ClosingSendsWhatIsOwed(s, s.(account := EndSubscription(s, now, id).account, plan := Free), id);
    case OpSetUnbilled(_, id) =>
      ClosingSendsWhatIsOwed(s, s, id);
    case _ =>
  }

  lemma ClosingSendsWhatIsOwed(s: State, next: State, id: string)
    requires !s.unbilled && s.account.customerId.Some? && s.pending.None? && SentIsPositive(s)
    requires next == s.(account := next.account, plan := next.plan)
    requires next.account.customerId == s.account.customerId
    ensures HoldsWhatIsOwed(s, CloseUsage(next, id).pending, Some(id))
  {
    var amounts := NewAmounts(next, EVERY_MONTH);
    forall key: Key | IsTime(key.month)
      ensures if Unsent(s, key) > 0.000000001 then key in amounts && amounts[key] == Unsent(s, key) else key !in amounts
    {
      assert 0.0 <= At(s.sent, key);
      assert Unsent(next, key) == Unsent(s, key);
    }
  }

  /**
   Leaving a billed stretch with no batch on its way forfeits at most a billionth of a unit of any key, which is less
   than a thousandth of a micro-dollar, and leaves nothing of it uncovered.
   */
  lemma LeavingForfeitsOnlyRounding(calendar: Calendar, s: State, op: Op, key: Key)
    requires Billed(s) && Accounts.Sound(s) && s.pending.None? && SentIsPositive(s)
    requires Allowed(op) && !Billed(Do(calendar, s, op))
    requires IsTime(key.month)
    ensures At(Do(calendar, s, op).sent, key) - At(s.sent, key) <= 0.000000001
    ensures (At(Do(calendar, s, op).sent, key) - At(s.sent, key)) * RateMicros(key.unit) < 0.001
    ensures Above(s, key) <= Covered(Do(calendar, s, op), key)
  {
    assert Ledgered(op) && !op.OpTake?;
    CallSettles(calendar, s, op, key);
    LeavingSendsWhatIsOwed(calendar, s, op);
    var s' := Do(calendar, s, op);
    assert 0.0 <= At(s.sent, key);
    if Unsent(s, key) > 0.000000001 {
      assert OnItsWay(s', key) == Unsent(s, key);
    }
  }

  /** So in any run: a step that finds no batch on its way forfeits at most rounding of any key. */
  lemma StepsForfeitOnlyRounding(calendar: Calendar, steps: seq<Step>, step: Step, key: Key)
    requires Possible(calendar, INITIAL, steps)
    requires Enabled(After(calendar, INITIAL, steps), step)
    requires After(calendar, INITIAL, steps).store.pending.None?
    requires IsTime(key.month)
    ensures var w := After(calendar, INITIAL, steps);
            0.0 <= Next(calendar, w, step).history(key).forfeited - w.history(key).forfeited <= 0.000000001
  {
    InitialInv();
    RunKeepsInv(calendar, INITIAL, steps);
    StepForfeitsOnlyRounding(calendar, After(calendar, INITIAL, steps), step, key);
  }

  lemma StepForfeitsOnlyRounding(calendar: Calendar, w: World, step: Step, key: Key)
    requires Inv(w) && Enabled(w, step) && w.store.pending.None? && IsTime(key.month)
    ensures 0.0 <= Next(calendar, w, step).history(key).forfeited - w.history(key).forfeited <= 0.000000001
  {
    CoveredIn(calendar, w, step, key);
    SentIsPositiveIn(w);
    assert KeyInv(w, key);
    if CallOf(step).Some? && Billed(w.store) {
      var op := CallOf(step).value;
      if Billed(Do(calendar, w.store, op)) {
        StayingBilledKeepsSent(calendar, w.store, op, key);
      } else {
        LeavingForfeitsOnlyRounding(calendar, w.store, op, key);
      }
    }
  }

  ghost predicate StaysBilled(calendar: Calendar, w: World, steps: seq<Step>)
    requires Possible(calendar, w, steps)
    decreases |steps|
  {
    Billed(w.store) && (steps == [] || StaysBilled(calendar, Next(calendar, w, steps[0]), steps[1..]))
  }

  /** An org that stays billed forfeits nothing, whatever its senders and callers do. */
  lemma {:induction false} StayingBilledForfeitsNothing(calendar: Calendar, w: World, steps: seq<Step>, key: Key)
    requires Inv(w) && Possible(calendar, w, steps) && StaysBilled(calendar, w, steps)
    ensures After(calendar, w, steps).history(key).forfeited == w.history(key).forfeited
    ensures After(calendar, w, steps).history(key).writtenOff == w.history(key).writtenOff
    ensures After(calendar, w, steps).history(key).base == w.history(key).base
    decreases |steps|
  {
    if steps != [] {
      var w' := Next(calendar, w, steps[0]);
      StepKeepsInv(calendar, w, steps[0]);
      if CallOf(steps[0]).Some? {
        assert KeyInv(w, key);
        StayingBilledKeepsSent(calendar, w.store, CallOf(steps[0]).value, key);
      }
      assert w'.history(key).forfeited == w.history(key).forfeited;
      StayingBilledForfeitsNothing(calendar, w', steps[1..], key);
    }
  }

  lemma StayingBilledKeepsSent(calendar: Calendar, s: State, op: Op, key: Key)
    requires Accounts.Sound(s) && Allowed(op) && !op.OpAcknowledge?
    requires 0.0 <= At(s.sent, key) && 0.0 <= OnItsWay(s, key)
    requires Billed(s) && Billed(Do(calendar, s, op))
    ensures At(Do(calendar, s, op).sent, key) == At(s.sent, key)
  {
    if Ledgered(op) {
      CallSettles(calendar, s, op, key);
    } else {
      OtherCallsLeaveTheLedger(calendar, s, op);
    }
  }

  /**
   All but rounding of what the org used while billed, was not refunded and did not forfeit, is in the provider's total;
   and nothing else is but what stale ends added.
   */
  predicate PaidUp(w: World, key: Key) {
    var h := w.history(key);
    h.billedUse - h.refunded - h.forfeited - 0.000000001 <= w.total(key) - h.raced <= h.billedUse
  }

  /**
   One undisturbed `sendUsage` of a billed org with no batch on its way, after any run: the provider then has all that
   was owed of every month up to now.
   */
  lemma SendingPaysUp(calendar: Calendar, steps: seq<Step>, sender: nat, now: int, id: string, key: Key)
    requires Possible(calendar, INITIAL, steps)
    requires var w := After(calendar, INITIAL, steps);
             Billed(w.store) && w.store.pending.None? && Enabled(w, Start(sender, now, id))
    requires key.month < calendar(now).end
    ensures var w := After(calendar, INITIAL, steps);
            var started := Next(calendar, w, Start(sender, now, id));
            if sender !in started.senders then PaidUp(started, key)
            else
              var delivered := Next(calendar, started, Deliver(sender, started.senders[sender].batch.amounts.Keys));
              Enabled(delivered, Acknowledged(sender)) && PaidUp(Next(calendar, delivered, Acknowledged(sender)), key)
  {
    InitialInv();
    RunKeepsInv(calendar, INITIAL, steps);
    var w := After(calendar, INITIAL, steps);
    StepKeepsInv(calendar, w, Start(sender, now, id));
    var started := Next(calendar, w, Start(sender, now, id));
    SentIsPositiveIn(w);
    TakeAnswersWhatIsOwed(calendar, w.store, now, id);
    SendingLeavesOnlyRounding(calendar, w.store, now, id);
    if sender !in started.senders {
      SettledIsPaidUp(started, calendar(now).end, key);
    } else {
      var deliver := Deliver(sender, started.senders[sender].batch.amounts.Keys);
      StepKeepsInv(calendar, started, deliver);
      var delivered := Next(calendar, started, deliver);
      StepKeepsInv(calendar, delivered, Acknowledged(sender));
      SettledIsPaidUp(Next(calendar, delivered, Acknowledged(sender)), calendar(now).end, key);
    }
  }

  lemma SentIsPositiveIn(w: World)
    requires Inv(w)
    ensures SentIsPositive(w.store)
  {
    forall key ensures 0.0 <= At(w.store.sent, key) {
      assert KeyInv(w, key);
    }
  }

  lemma SettledIsPaidUp(w: World, until: int, key: Key)
    requires Inv(w) && Billed(w.store) && w.store.pending.None?
    requires OnlyRoundingLeft(w.store, until) && key.month < until
    ensures PaidUp(w, key)
  {
    assert KeyInv(w, key);
    assert Unsent(w.store, key) <= SEND_EPSILON;
  }

  // ---- where the callers' reading of the plan matters ----

  /**
   `endSubscription` does not look at the plan. Called on an org that is on Free it bills use of Free, exactly when no
   batch is on its way, the org is not unbilled, has a customer and has more than rounding above free not sent.
   */
  lemma EndingOnFreeBillsExactlyWhen(s: State, now: int, id: string)
    requires s.plan.Free? && SentIsPositive(s)
    ensures EndSubscription(s, now, id).pending != s.pending <==>
            && s.pending.None? && !s.unbilled && s.account.customerId.Some?
            && !OnlyRoundingLeft(s, 9007199254740991)
  {
    var next := s.(account := EndSubscription(s, now, id).account, plan := Free);
    assert EndSubscription(s, now, id) == CloseUsage(next, id) by {
      Accounts.OnlyTheLedgerMoves(next, EVERY_MONTH, id);
    }
    assert NewAmounts(next, EVERY_MONTH) == NewAmounts(s, EVERY_MONTH);
    NothingToSendExactlyWhen(s, EVERY_MONTH);
  }

  /**
   The race: after an owner's request read Pay as you go, the provider reports the subscription's end and two browser
   hours are used on Free; ending it then sends the provider the hour above free.
   */
  lemma StaleEndsCanBillFreeUse(calendar: Calendar, a: string, b: string, c: string)
    ensures var read := [OpApply(Change(Active, "subscription", "customer", 1), a)];
            var since :=
              [OpApply(Change(Ended, "subscription", "customer", 2), b), OpAddTime(BrowserHours, 7200000.0, 0)];
            var s := Run(calendar, EMPTY, read + since);
            && Run(calendar, EMPTY, read).plan.Payg?
            && IsStaleEnd(s, OpEnd(3, c)) && s.pending.None?
            && Do(calendar, s, OpEnd(3, c)).pending ==
               Some(Batch(c, "customer", map[Key(calendar(0).start, BrowserHours) := 1.0]))
  {
    var activated := OpApply(Change(Active, "subscription", "customer", 1), a);
    var ended := OpApply(Change(Ended, "subscription", "customer", 2), b);
    var used := OpAddTime(BrowserHours, 7200000.0, 0);
    var key := Key(calendar(0).start, BrowserHours);
    var one := Do(calendar, EMPTY, activated);
    var two := Do(calendar, one, ended);
    var s := Do(calendar, two, used);
    ThreeCalls(calendar, EMPTY, activated, ended, used);
    assert one == EMPTY.(plan := Payg, account := Account(Some("customer"), Some("subscription"), None, Okay, 1));
    assert two.usage == map[] && two.sent == map[] && two.pending.None?;
    assert s.usage == map[key := 2.0];
    var next := s.(account := EndSubscription(s, 3, c).account, plan := Free);
    assert Unsent(next, key) == 1.0;
    assert NewAmounts(next, EVERY_MONTH) == map[key := 1.0];
  }

  lemma ThreeCalls(calendar: Calendar, s: State, a: Op, b: Op, c: Op)
    ensures Run(calendar, s, [a]) == Do(calendar, s, a)
    ensures Run(calendar, s, [a] + [b, c]) == Do(calendar, Do(calendar, Do(calendar, s, a), b), c)
  {
    assert [a][1..] == [] && ([a] + [b, c])[1..] == [b, c] && [b, c][1..] == [c] && [c][1..] == [];
    assert Run(calendar, Do(calendar, s, a), [b, c]) == Run(calendar, Do(calendar, Do(calendar, s, a), b), [c]);
  }
}
