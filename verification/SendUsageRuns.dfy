/**
 The take/send/acknowledge protocol of packages/billing/src/send-usage.ts over every run: any number of senders,
 overlapping, crashing and sending again at any point, interleaved with every call of the store. The provider takes each
 event at most once by its id, may take only some of a request's events, and may fail after taking them.
 */
module SendUsageRuns {
  import opened Plan
  import opened Ledger
  import Accounts

  /** A run of `sendUsage` holding the batch it was answered; `answered` once the provider took all of it. */
  datatype Sender = Sender(batch: Batch, answered: bool)

  /**
   What has happened to one key so far, to compare with what the store holds: nothing reads it.
     highWater   the most usage above free there ever was
     writtenOff  what was counted as sent without being sent
     base        usage above free when the org last became billed, or stopped being it
     billedUse   what usage above free grew by while the org was billed
     freeUse     what usage above free grew by while the org was on Free
     refunded    what usage above free was lowered by
     forfeited   what was written off by a call that began while the org was billed
     raced       what was put into batches by a call that began while the org was not billed
   */
  datatype History = History(
    highWater: real, writtenOff: real, base: real, billedUse: real, freeUse: real, refunded: real, forfeited: real,
    raced: real)

  /** `total` is what the provider has summed per key, `seen` the ids of the events it took. */
  datatype World = World(
    store: State,
    senders: map<nat, Sender>,
    seen: set<(string, Key)>,
    total: Key -> real,
    ids: set<string>,
    history: Key -> History)

  datatype Step =
    | Call(op: Op)
    | Start(sender: nat, now: int, id: string)
    | Deliver(sender: nat, keys: set<Key>)
    | Acknowledged(sender: nat)
    | Crash(sender: nat)

  const NO_HISTORY := (key: Key) => History(0.0, 0.0, 0.0, 0.0, 0.0, 0.0, 0.0, 0.0)

  const INITIAL := World(EMPTY, map[], {}, _ => 0.0, {}, NO_HISTORY)

  predicate Billed(s: State) {
    s.plan.Payg? && !s.unbilled
  }

  predicate OnFree(s: State) {
    s.plan.Free? && !s.unbilled
  }

  /** The id a call may give a new batch. */
  function IdOf(op: Op): Option<string> {
    match op
    case OpTake(_, id) => Some(id)
    case OpApply(_, id) => Some(id)
    case OpEnd(_, id) => Some(id)
    case OpSetUnbilled(_, id) => Some(id)
    case _ => None
  }

  predicate Enabled(w: World, step: Step) {
    match step
    case Call(op) =>
      Allowed(op) && !op.OpAcknowledge? && (IdOf(op).Some? ==> IdOf(op).value !in w.ids)
    case Start(sender, now, id) => sender !in w.senders && id !in w.ids
    case Deliver(sender, _) => sender in w.senders
    case Acknowledged(sender) => sender in w.senders && w.senders[sender].answered
    case Crash(sender) => sender in w.senders
  }

  function Post(h: History, s: State, s': State, key: Key): History {
    var grown := Above(s', key) - Above(s, key);
    var off := At(s'.sent, key) - At(s.sent, key);
    History(
      Max(h.highWater, Above(s', key)),
      h.writtenOff + off,
      if Billed(s') != Billed(s) then Above(s', key) else h.base,
      h.billedUse + (if Billed(s) then Max(0.0, grown) else 0.0),
      h.freeUse + (if OnFree(s) then Max(0.0, grown) else 0.0),
      h.refunded + Max(0.0, -grown),
      h.forfeited + (if Billed(s) then off else 0.0),
      h.raced + (if Billed(s) then 0.0 else OnItsWay(s', key) - OnItsWay(s, key)))
  }

  /** The store moves by a call other than an acknowledgement. */
  function Moved(w: World, store: State, ids: set<string>): World {
    w.(store := store, ids := ids, history := key => Post(w.history(key), w.store, store, key))
  }

  function Next(calendar: Calendar, w: World, step: Step): World
    requires Enabled(w, step)
  {
    match step
    case Call(op) =>
      Moved(w, Do(calendar, w.store, op), if IdOf(op).Some? then w.ids + {IdOf(op).value} else w.ids)
    case Start(sender, now, id) =>
      var moved := Moved(w, Take(calendar, w.store, now, id), w.ids + {id});
      var batch := Taken(calendar, w.store, now, id);
      if batch.None? then moved else moved.(senders := w.senders[sender := Sender(batch.value, false)])
    case Deliver(sender, keys) =>
      var batch := w.senders[sender].batch;
      w.(seen := w.seen + set key | key in keys && key in batch.amounts :: (batch.id, key),
         total := key => w.total(key)
           + (if key in keys && (batch.id, key) !in w.seen then At(batch.amounts, key) else 0.0),
         senders := w.senders[sender :=
           Sender(batch, w.senders[sender].answered || batch.amounts.Keys <= keys)])
    case Acknowledged(sender) => w.(store := Acknowledge(w.store, w.senders[sender].batch.id))
    case Crash(sender) => w.(senders := w.senders - {sender})
  }

  predicate Possible(calendar: Calendar, w: World, steps: seq<Step>)
    decreases |steps|
  {
    steps == [] || (Enabled(w, steps[0]) && Possible(calendar, Next(calendar, w, steps[0]), steps[1..]))
  }

  function After(calendar: Calendar, w: World, steps: seq<Step>): World
    requires Possible(calendar, w, steps)
    decreases |steps|
  {
    if steps == [] then w else After(calendar, Next(calendar, w, steps[0]), steps[1..])
  }

  // ---- the invariant ----

  /** The part of the batch on its way the provider has taken already. */
  function TakenOnItsWay(w: World, key: Key): real {
    if w.store.pending.Some? && (w.store.pending.value.id, key) in w.seen then OnItsWay(w.store, key) else 0.0
  }

  /** What was ever put into a batch by a call that began while the org was billed. */
  function Issued(w: World, key: Key): real {
    Covered(w.store, key) - w.history(key).writtenOff - w.history(key).raced
  }

  /** How far usage above free is ahead of what is sent and on its way: negative after a refund of what was sent. */
  function Lead(w: World, key: Key): real {
    Above(w.store, key) - Covered(w.store, key)
  }

  function Min(a: real, b: real): real {
    if a < b then a else b
  }

  ghost predicate KeyInv(w: World, key: Key) {
    var h := w.history(key);
    && 0.0 <= At(w.store.sent, key)
    && 0.0 <= OnItsWay(w.store, key)
    && 0.0 <= h.writtenOff && 0.0 <= h.forfeited && 0.0 <= h.refunded && 0.0 <= h.raced
    && w.total(key) == At(w.store.sent, key) - h.writtenOff + TakenOnItsWay(w, key)
    && Above(w.store, key) <= h.highWater
    && Covered(w.store, key) <= h.highWater
    && h.base <= Covered(w.store, key)
    && h.raced + (if OnFree(w.store) then Max(0.0, Lead(w, key)) else 0.0) <= h.freeUse
    && Issued(w, key) + (if Billed(w.store) then Max(0.0, Lead(w, key)) else 0.0) <= h.billedUse
    && h.billedUse <= Issued(w, key) + h.forfeited + h.refunded
                      + (if Billed(w.store) then Lead(w, key) else Min(0.0, Lead(w, key)))
  }

  predicate AllSeen(w: World, batch: Batch) {
    forall key :: key in batch.amounts ==> (batch.id, key) in w.seen
  }

  /** A sender holds the batch on its way, or one the provider took whole and the store had acknowledged. */
  predicate SenderInv(w: World, sender: Sender) {
    && sender.batch.id in w.ids
    && (sender.answered ==> AllSeen(w, sender.batch))
    && (w.store.pending == Some(sender.batch) ||
        (AllSeen(w, sender.batch) &&
         (w.store.pending.Some? ==> w.store.pending.value.id != sender.batch.id)))
  }

  ghost predicate Inv(w: World) {
    && Accounts.Sound(w.store)
    && (forall key :: KeyInv(w, key))
    && (forall id, key :: (id, key) in w.seen ==> id in w.ids)
    && (w.store.pending.Some? ==> w.store.pending.value.id in w.ids)
    && (forall sender :: sender in w.senders ==> SenderInv(w, w.senders[sender]))
  }

  // ---- one step, one key ----

  lemma WriteOffAt(s: State, key: Key)
    requires 0.0 <= At(s.sent, key) && 0.0 <= OnItsWay(s, key)
    ensures At(WriteOff(s).sent, key) == WrittenOff(s, key)
  {
  }

  /** What a call that may move the ledger leaves of one key: `s` before, `s'` after, usage untouched. */
  predicate Settles(s: State, s': State, key: Key) {
    && Above(s', key) == Above(s, key)
    && At(s.sent, key) <= At(s'.sent, key)
    && OnItsWay(s, key) <= OnItsWay(s', key)
    && (OnItsWay(s, key) < OnItsWay(s', key) ==>
          !s.unbilled && s.pending.None? && At(s'.sent, key) == At(s.sent, key) && OnItsWay(s', key) == Unsent(s, key))
    && (At(s.sent, key) < At(s'.sent, key) ==> Covered(s', key) == Above(s, key))
    && (At(s.sent, key) < At(s'.sent, key) && Billed(s) ==> !Billed(s'))
    && (Billed(s') != Billed(s) || OnFree(s') != OnFree(s) ==> Above(s', key) <= Covered(s', key))
  }

  /** Closing the usage of an org brings sent and on its way up to usage above free. */
  lemma CloseAtKey(s: State, id: string, key: Key)
    requires 0.0 <= At(s.sent, key) && 0.0 <= OnItsWay(s, key)
    ensures var s' := CloseUsage(s, id);
            && At(s.sent, key) <= At(s'.sent, key)
            && OnItsWay(s, key) <= OnItsWay(s', key)
            && (OnItsWay(s, key) < OnItsWay(s', key) ==>
                  s.pending.None? && !s.unbilled && At(s'.sent, key) == At(s.sent, key) &&
                  OnItsWay(s', key) == Unsent(s, key))
            && (At(s.sent, key) < At(s'.sent, key) ==> Covered(s', key) == Above(s, key))
            && Above(s, key) <= Covered(s', key)
  {
    var n := if s.pending.None? then NewBatch(s, EVERY_MONTH, id) else s;
    if s.pending.None? && s.unbilled {
      WriteOffAt(s, key);
    }
    WriteOffAt(n, key);
  }

  lemma ApplySettles(s: State, change: Change, id: string, key: Key)
    requires Accounts.Sound(s)
    requires 0.0 <= At(s.sent, key) && 0.0 <= OnItsWay(s, key)
    ensures Settles(s, Apply(s, change, id), key)
  {
    var next := s.(account := AccountAfter(s.account, change), plan := PlanAfter(change));
    if Ignored(s.account, change) {
    } else if change.status.Ended? {
      CloseAtKey(next, id, key);
      Accounts.OnlyTheLedgerMoves(next, EVERY_MONTH, id);
    } else if s.plan.Free? {
      WriteOffAt(next, key);
    }
  }

  lemma EndSettles(s: State, now: int, id: string, key: Key)
    requires 0.0 <= At(s.sent, key) && 0.0 <= OnItsWay(s, key)
    ensures Settles(s, EndSubscription(s, now, id), key)
  {
    var next := s.(account := EndSubscription(s, now, id).account, plan := Free);
    CloseAtKey(next, id, key);
    Accounts.OnlyTheLedgerMoves(next, EVERY_MONTH, id);
  }

  lemma SetUnbilledSettles(s: State, unbilled: bool, id: string, key: Key)
    requires 0.0 <= At(s.sent, key) && 0.0 <= OnItsWay(s, key)
    ensures Settles(s, SetUnbilled(s, unbilled, id), key)
  {
    CloseAtKey(s, id, key);
    WriteOffAt(s, key);
    Accounts.OnlyTheLedgerMoves(s, EVERY_MONTH, id);
  }

  lemma TakeSettles(calendar: Calendar, s: State, now: int, id: string, key: Key)
    requires 0.0 <= At(s.sent, key) && 0.0 <= OnItsWay(s, key)
    ensures Settles(s, Take(calendar, s, now, id), key)
  {
    WriteOffAt(s, key);
  }

  predicate Ledgered(op: Op) {
    op.OpTake? || op.OpApply? || op.OpEnd? || op.OpSetUnbilled?
  }

  /**
   The calls that may move the ledger settle every key; only a stale end puts anything on its way of an org not billed.
   */
  lemma CallSettles(calendar: Calendar, s: State, op: Op, key: Key)
    requires Accounts.Sound(s) && Allowed(op) && Ledgered(op)
    requires 0.0 <= At(s.sent, key) && 0.0 <= OnItsWay(s, key)
    ensures Settles(s, Do(calendar, s, op), key)
    ensures OnItsWay(s, key) < OnItsWay(Do(calendar, s, op), key) ==> Billed(s) || IsStaleEnd(s, op)
  {
    match op
    case OpTake(now, id) => TakeSettles(calendar, s, now, id, key);
    case OpApply(change, id) => ApplySettles(s, change, id, key);
    case OpEnd(now, id) => EndSettles(s, now, id, key);
    case OpSetUnbilled(unbilled, id) => SetUnbilledSettles(s, unbilled, id, key);
    case _ =>
  }

  /** Calls that only count use, or set what the ledger does not read. */
  predicate LedgerUnmoved(s: State, s': State) {
    s'.sent == s.sent && s'.pending == s.pending && Billed(s') == Billed(s) && OnFree(s') == OnFree(s)
  }

  lemma OtherCallsLeaveTheLedger(calendar: Calendar, s: State, op: Op)
    requires !Ledgered(op) && !op.OpAcknowledge?
    ensures LedgerUnmoved(s, Do(calendar, s, op))
  {
  }

  /** Only an acknowledgement takes a batch off its way; a new one carries the id it was given. */
  lemma PendingMoves(calendar: Calendar, s: State, op: Op)
    requires !op.OpAcknowledge?
    ensures var s' := Do(calendar, s, op);
            && (s.pending.Some? ==> s'.pending == s.pending)
            && (s.pending.None? && s'.pending.Some? ==>
                  && IdOf(op) == Some(s'.pending.value.id)
                  && s'.pending.value.amounts != map[]
                  && forall key :: key in s'.pending.value.amounts ==> s'.pending.value.amounts[key] > SEND_EPSILON)
  {
  }

  lemma MoveKeepsKey(w: World, s': State, ids: set<string>, key: Key)
    requires KeyInv(w, key)
    requires Settles(w.store, s', key) || LedgerUnmoved(w.store, s')
    requires w.store.pending.Some? ==> s'.pending == w.store.pending
    requires w.store.pending.None? && s'.pending.Some? ==> (s'.pending.value.id, key) !in w.seen
    ensures KeyInv(Moved(w, s', ids), key)
  {
  }

  lemma AcknowledgeKeepsKey(w: World, id: string, key: Key)
    requires KeyInv(w, key)
    requires w.store.pending.Some? && w.store.pending.value.id == id ==> AllSeen(w, w.store.pending.value)
    ensures KeyInv(w.(store := Acknowledge(w.store, id)), key)
  {
    assert Billed(Acknowledge(w.store, id)) == Billed(w.store);
    assert Above(Acknowledge(w.store, id), key) == Above(w.store, key);
  }

  lemma DeliverKeepsKey(calendar: Calendar, w: World, sender: nat, keys: set<Key>, key: Key)
    requires Inv(w) && sender in w.senders
    ensures KeyInv(Next(calendar, w, Deliver(sender, keys)), key)
  {
    assert KeyInv(w, key) && SenderInv(w, w.senders[sender]);
  }

  // ---- one step ----

  lemma CallKeepsInv(calendar: Calendar, w: World, op: Op)
    requires Inv(w) && Enabled(w, Call(op))
    ensures Inv(Next(calendar, w, Call(op)))
  {
    var s' := Do(calendar, w.store, op);
    var w' := Next(calendar, w, Call(op));
    Accounts.StepKeepsSound(calendar, w.store, op);
    PendingMoves(calendar, w.store, op);
    forall key ensures KeyInv(w', key) {
      assert KeyInv(w, key);
      if Ledgered(op) {
        CallSettles(calendar, w.store, op, key);
      } else {
        OtherCallsLeaveTheLedger(calendar, w.store, op);
      }
      MoveKeepsKey(w, s', w'.ids, key);
    }
    forall sender | sender in w'.senders ensures SenderInv(w', w'.senders[sender]) {
      assert SenderInv(w, w.senders[sender]);
    }
  }

  lemma StartKeepsInv(calendar: Calendar, w: World, sender: nat, now: int, id: string)
    requires Inv(w) && Enabled(w, Start(sender, now, id))
    ensures Inv(Next(calendar, w, Start(sender, now, id)))
  {
    var w' := Next(calendar, w, Start(sender, now, id));
    var called := Next(calendar, w, Call(OpTake(now, id)));
    CallKeepsInv(calendar, w, OpTake(now, id));
    forall key ensures KeyInv(w', key) {
      assert KeyInv(called, key);
    }
    forall other | other in w'.senders ensures SenderInv(w', w'.senders[other]) {
      if other in w.senders {
        assert SenderInv(called, called.senders[other]);
      }
    }
  }

  lemma DeliverKeepsInv(calendar: Calendar, w: World, sender: nat, keys: set<Key>)
    requires Inv(w) && Enabled(w, Deliver(sender, keys))
    ensures Inv(Next(calendar, w, Deliver(sender, keys)))
  {
    var w' := Next(calendar, w, Deliver(sender, keys));
    forall key ensures KeyInv(w', key) {
      DeliverKeepsKey(calendar, w, sender, keys, key);
    }
    forall other | other in w'.senders ensures SenderInv(w', w'.senders[other]) {
      assert SenderInv(w, w.senders[other]);
    }
    assert SenderInv(w, w.senders[sender]);
  }

  lemma AcknowledgedKeepsInv(calendar: Calendar, w: World, sender: nat)
    requires Inv(w) && Enabled(w, Acknowledged(sender))
    ensures Inv(Next(calendar, w, Acknowledged(sender)))
  {
    var w' := Next(calendar, w, Acknowledged(sender));
    assert SenderInv(w, w.senders[sender]);
    forall key ensures KeyInv(w', key) {
      assert KeyInv(w, key);
      AcknowledgeKeepsKey(w, w.senders[sender].batch.id, key);
    }
    forall other | other in w'.senders ensures SenderInv(w', w'.senders[other]) {
      assert SenderInv(w, w.senders[other]);
    }
  }

  lemma CrashKeepsInv(calendar: Calendar, w: World, sender: nat)
    requires Inv(w) && Enabled(w, Crash(sender))
    ensures Inv(Next(calendar, w, Crash(sender)))
  {
    var w' := Next(calendar, w, Crash(sender));
    forall key ensures KeyInv(w', key) {
      assert KeyInv(w, key);
    }
    forall other | other in w'.senders ensures SenderInv(w', w'.senders[other]) {
      assert SenderInv(w, w.senders[other]);
    }
  }

  lemma StepKeepsInv(calendar: Calendar, w: World, step: Step)
    requires Inv(w) && Enabled(w, step)
    ensures Inv(Next(calendar, w, step))
  {
    match step
    case Call(op) => CallKeepsInv(calendar, w, op);
    case Start(sender, now, id) => StartKeepsInv(calendar, w, sender, now, id);
    case Deliver(sender, keys) => DeliverKeepsInv(calendar, w, sender, keys);
    case Acknowledged(sender) => AcknowledgedKeepsInv(calendar, w, sender);
    case Crash(sender) => CrashKeepsInv(calendar, w, sender);
  }

  lemma InitialInv()
    ensures Inv(INITIAL)
  {
    forall key ensures KeyInv(INITIAL, key) {
    }
  }

  lemma {:induction false} RunKeepsInv(calendar: Calendar, w: World, steps: seq<Step>)
    requires Inv(w) && Possible(calendar, w, steps)
    ensures Inv(After(calendar, w, steps))
    decreases |steps|
  {
    if steps != [] {
      StepKeepsInv(calendar, w, steps[0]);
      RunKeepsInv(calendar, Next(calendar, w, steps[0]), steps[1..]);
    }
  }

  // ---- what every run keeps ----

  /**
   Nothing is billed twice: whatever crashed, was sent again or overlapped, what the provider summed for a key is at
   most what the store counts as sent and on its way, which is at most the most usage above free there ever was; and
   with no batch on its way it is what was sent less what was written off.
   */
  lemma ExactlyOnce(calendar: Calendar, steps: seq<Step>, key: Key)
    requires Possible(calendar, INITIAL, steps)
    ensures var w := After(calendar, INITIAL, steps);
            && w.total(key) <= Covered(w.store, key) <= w.history(key).highWater
            && (w.store.pending.None? ==> w.total(key) == At(w.store.sent, key) - w.history(key).writtenOff)
  {
    InitialInv();
    RunKeepsInv(calendar, INITIAL, steps);
    assert KeyInv(After(calendar, INITIAL, steps), key);
  }

  /** What is on its way and not taken yet. */
  function Untaken(w: World, key: Key): real {
    OnItsWay(w.store, key) - TakenOnItsWay(w, key)
  }

  /**
   What is billed is use made while billed, and none of it is lost: what the provider summed and what it will still be
   sent, less what stale ends added, is at most what usage above free grew by during billed stretches, however often the
   org changed plan or was marked unbilled; and the difference is what was refunded and what was forfeited on leaving.
   Stale ends add at most what usage above free grew by on Free; use under the unbilled mark is in none of it.
   */
  lemma BilledUseIsAccountedFor(calendar: Calendar, steps: seq<Step>, key: Key)
    requires Possible(calendar, INITIAL, steps)
    ensures var w := After(calendar, INITIAL, steps);
            var h := w.history(key);
            var issued := w.total(key) + Untaken(w, key) - h.raced;
            && 0.0 <= Untaken(w, key)
            && issued <= h.billedUse
            && h.billedUse <=
               issued + h.forfeited + h.refunded + (if Billed(w.store) then Lead(w, key) else 0.0)
            && (Billed(w.store) ==> issued + Max(0.0, Lead(w, key)) <= h.billedUse)
            && 0.0 <= h.raced <= h.freeUse
  {
    InitialInv();
    RunKeepsInv(calendar, INITIAL, steps);
    assert KeyInv(After(calendar, INITIAL, steps), key);
  }

  /** No end is stale: each finds the plan its caller read. */
  ghost predicate EndsAreFresh(calendar: Calendar, w: World, steps: seq<Step>)
    requires Possible(calendar, w, steps)
    decreases |steps|
  {
    steps == [] ||
    (!(steps[0].Call? && IsStaleEnd(w.store, steps[0].op)) &&
     EndsAreFresh(calendar, Next(calendar, w, steps[0]), steps[1..]))
  }

  /** Then use on Free or while unbilled is never billed: all that is billed is use made while billed. */
  lemma OnlyBilledUseIsBilled(calendar: Calendar, steps: seq<Step>, key: Key)
    requires Possible(calendar, INITIAL, steps) && EndsAreFresh(calendar, INITIAL, steps)
    ensures var w := After(calendar, INITIAL, steps);
            w.total(key) + Untaken(w, key) <= w.history(key).billedUse
  {
    InitialInv();
    NothingRaces(calendar, INITIAL, steps, key);
    BilledUseIsAccountedFor(calendar, steps, key);
  }

  lemma {:induction false} NothingRaces(calendar: Calendar, w: World, steps: seq<Step>, key: Key)
    requires Inv(w) && Possible(calendar, w, steps) && EndsAreFresh(calendar, w, steps)
    ensures After(calendar, w, steps).history(key).raced == w.history(key).raced
    decreases |steps|
  {
    if steps != [] {
      StepKeepsInv(calendar, w, steps[0]);
      OnlyStaleEndsRace(calendar, w, steps[0], key);
      NothingRaces(calendar, Next(calendar, w, steps[0]), steps[1..], key);
    }
  }

  lemma OnlyStaleEndsRace(calendar: Calendar, w: World, step: Step, key: Key)
    requires Inv(w) && Enabled(w, step)
    ensures Next(calendar, w, step).history(key).raced != w.history(key).raced ==>
              step.Call? && IsStaleEnd(w.store, step.op)
  {
    assert KeyInv(w, key);
    if CallOf(step).Some? {
      var op := CallOf(step).value;
      if Ledgered(op) {
        CallSettles(calendar, w.store, op, key);
      } else {
        OtherCallsLeaveTheLedger(calendar, w.store, op);
      }
    }
  }

  /** The call of the store a step makes, if it is one that may make a batch. */
  function CallOf(step: Step): Option<Op> {
    match step
    case Call(op) => Some(op)
    case Start(_, now, id) => Some(OpTake(now, id))
    case _ => None
  }

  /**
   A batch is only ever made of an org that is billed, or by a stale end, and carries per key what usage above free is
   ahead of what was sent, which is at most what it grew by since the org became billed (or stopped being it).
   */
  lemma NewBatchesCarryTheBilledStretch(calendar: Calendar, steps: seq<Step>, step: Step, key: Key)
    requires Possible(calendar, INITIAL, steps)
    requires Enabled(After(calendar, INITIAL, steps), step)
    requires After(calendar, INITIAL, steps).store.pending.None?
    requires var next := Next(calendar, After(calendar, INITIAL, steps), step).store;
             next.pending.Some? && key in next.pending.value.amounts
    ensures var w := After(calendar, INITIAL, steps);
            var amount := Next(calendar, w, step).store.pending.value.amounts[key];
            && (Billed(w.store) || (step.Call? && IsStaleEnd(w.store, step.op)))
            && 0.000000001 < amount == Unsent(w.store, key) <= Above(w.store, key) - w.history(key).base
  {
    InitialInv();
    RunKeepsInv(calendar, INITIAL, steps);
    NewBatchIn(calendar, After(calendar, INITIAL, steps), step, key);
  }

  lemma NewBatchIn(calendar: Calendar, w: World, step: Step, key: Key)
    requires Inv(w) && Enabled(w, step) && w.store.pending.None?
    requires var next := Next(calendar, w, step).store; next.pending.Some? && key in next.pending.value.amounts
    ensures Billed(w.store) || (step.Call? && IsStaleEnd(w.store, step.op))
    ensures SEND_EPSILON < Next(calendar, w, step).store.pending.value.amounts[key] == Unsent(w.store, key)
    ensures Unsent(w.store, key) <= Above(w.store, key) - w.history(key).base
  {
    assert KeyInv(w, key);
    assert Next(calendar, w, step).store == Do(calendar, w.store, CallOf(step).value);
    NewBatchAt(calendar, w.store, CallOf(step).value, key);
  }

  lemma NewBatchAt(calendar: Calendar, s: State, op: Op, key: Key)
    requires Accounts.Sound(s) && Allowed(op) && !op.OpAcknowledge? && s.pending.None?
    requires 0.0 <= At(s.sent, key) && 0.0 <= OnItsWay(s, key)
    requires var s' := Do(calendar, s, op); s'.pending.Some? && key in s'.pending.value.amounts
    ensures Billed(s) || IsStaleEnd(s, op)
    ensures SEND_EPSILON < Do(calendar, s, op).pending.value.amounts[key] == Unsent(s, key)
  {
    PendingMoves(calendar, s, op);
    if Ledgered(op) {
      CallSettles(calendar, s, op, key);
    } else {
      OtherCallsLeaveTheLedger(calendar, s, op);
    }
  }

  /**
   What counts as sent and on its way never decreases, in any step; and whatever is written off brings it up to usage
   above free exactly.
   */
  lemma CoveredNeverDecreases(calendar: Calendar, steps: seq<Step>, step: Step, key: Key)
    requires Possible(calendar, INITIAL, steps)
    requires Enabled(After(calendar, INITIAL, steps), step)
    ensures var w := After(calendar, INITIAL, steps);
            var w' := Next(calendar, w, step);
            && Covered(w.store, key) <= Covered(w'.store, key)
            && w.history(key).writtenOff <= w'.history(key).writtenOff
            && (w.history(key).writtenOff < w'.history(key).writtenOff ==>
                  Covered(w'.store, key) == Above(w'.store, key))
  {
    InitialInv();
    RunKeepsInv(calendar, INITIAL, steps);
    CoveredIn(calendar, After(calendar, INITIAL, steps), step, key);
  }

  lemma CoveredIn(calendar: Calendar, w: World, step: Step, key: Key)
    requires Inv(w) && Enabled(w, step)
    ensures var w' := Next(calendar, w, step);
            && Covered(w.store, key) <= Covered(w'.store, key)
            && w.history(key).writtenOff <= w'.history(key).writtenOff
            && (w.history(key).writtenOff < w'.history(key).writtenOff ==>
                  Covered(w'.store, key) == Above(w'.store, key))
  {
    assert KeyInv(w, key);
    if CallOf(step).Some? {
      if Ledgered(CallOf(step).value) {
        CallSettles(calendar, w.store, CallOf(step).value, key);
      } else {
        OtherCallsLeaveTheLedger(calendar, w.store, CallOf(step).value);
      }
    } else if step.Acknowledged? {
      var id := w.senders[step.sender].batch.id;
      assert Covered(Acknowledge(w.store, id), key) == Covered(w.store, key);
    }
  }
}
