/**
 The budgeted deletion of an org's objects (`sweepObjects`, packages/agents/src/org-deletion.ts:53-87).
 */
module Sweep {
  import opened Plan

  const PAGE := 20

  /** What a call limit is: a number, or no limit (`Number.POSITIVE_INFINITY`). */
  datatype Limit = AtMost(n: int) | Unlimited

  datatype Swept = Swept(calls: nat, purged: nat, complete: bool, failure: Option<string>)

  /**
   The objects the ControlPlane lists for deletion, and the objects themselves. What the deployment does meanwhile is
   any function of the call's number: `arrivals` are listed before it, `fails` are the objects whose purge then fails,
   and `forgets` is whether forgetting takes the ids off the list.
   */
  class Objects {
    var listed: seq<string>
    var calls: nat
    /** How many pages were asked for; the ids whose purge was tried, those purged and those forgotten, in order. */
    ghost var asked: nat
    ghost var tried: seq<string>
    ghost var gone: seq<string>
    ghost var forgotten: seq<string>
    const arrivals: nat -> seq<string>
    const fails: (nat, string) -> bool
    const forgets: nat -> bool

    constructor (listed: seq<string>, arrivals: nat -> seq<string>, fails: (nat, string) -> bool, forgets: nat -> bool)
      ensures this.listed == listed && calls == 0
      ensures asked == 0 && tried == [] && gone == [] && forgotten == []
      ensures this.arrivals == arrivals && this.fails == fails && this.forgets == forgets
    {
      this.listed, calls, asked, tried, gone, forgotten := listed, 0, 0, [], [], [];
      this.arrivals, this.fails, this.forgets := arrivals, fails, forgets;
    }

    /** The next page of ids. */
    method Page(limit: nat) returns (ids: seq<string>)
      modifies this`listed, this`calls, this`asked
      ensures calls == old(calls) + 1 && asked == old(asked) + 1
      ensures listed == old(listed) + arrivals(old(calls))
      ensures ids == listed[..if |listed| < limit then |listed| else limit]
    {
      listed, calls, asked := listed + arrivals(calls), calls + 1, asked + 1;
      ids := listed[..if |listed| < limit then |listed| else limit];
    }

    method Purge(id: string) returns (ok: bool)
      modifies this`calls, this`tried, this`gone
      ensures calls == old(calls) + 1 && tried == old(tried) + [id]
      ensures ok <==> !fails(old(calls), id)
      ensures gone == old(gone) + if ok then [id] else []
    {
      ok := !fails(calls, id);
      calls, tried := calls + 1, tried + [id];
      gone := gone + if ok then [id] else [];
    }

    method Forget(ids: seq<string>)
      modifies this`listed, this`calls, this`forgotten
      ensures calls == old(calls) + 1
      ensures forgotten == old(forgotten) + ids
      ensures listed == if forgets(old(calls)) then Except(old(listed), ids) else old(listed)
    {
      listed := if forgets(calls) then Except(listed, ids) else listed;
      calls := calls + 1;
      forgotten := forgotten + ids;
    }
  }

  function Except(ids: seq<string>, gone: seq<string>): seq<string> {
    if ids == [] then []
    else (if ids[0] in gone then [] else [ids[0]]) + Except(ids[1..], gone)
  }

  predicate Distinct(ids: seq<string>) {
    forall i, j :: 0 <= i < j < |ids| ==> ids[i] != ids[j]
  }

  /** Taking the first ids of a list off it leaves the rest. */
  lemma {:induction false} ExceptAPrefix(ids: seq<string>, n: nat, gone: seq<string>)
    requires Distinct(ids) && n <= |ids|
    requires forall i :: 0 <= i < |ids| ==> (ids[i] in gone <==> i < n)
    ensures Except(ids, gone) == ids[n..]
  {
    if ids != [] {
      if n > 0 {
        ExceptAPrefix(ids[1..], n - 1, gone);
      } else {
        ExceptAPrefix(ids[1..], 0, gone);
      }
    }
  }

  /** Nothing is listed meanwhile, every purge works and forgetting takes ids off the list. */
  ghost predicate Undisturbed(objects: Objects) {
    && (forall k :: objects.arrivals(k) == [])
    && (forall k, id :: !objects.fails(k, id))
    && (forall k :: objects.forgets(k))
  }

  /** And no object is listed twice. */
  ghost predicate IsCalm(objects: Objects)
    reads objects
  {
    Undisturbed(objects) && Distinct(objects.listed)
  }

  lemma ExceptItsStart(listed: seq<string>, ids: seq<string>)
    requires ids <= listed
    ensures Distinct(listed) ==> Except(listed, ids) == listed[|ids|..]
  {
    if Distinct(listed) {
      assert forall i :: 0 <= i < |ids| ==> listed[i] == ids[i] && ids[i] in ids;
      ExceptAPrefix(listed, |ids|, ids);
    }
  }

  /** How many pages of 20 some objects fill. */
  function Pages(n: nat): (full: nat)
    ensures 20 * full - 20 < n <= 20 * full
  {
    (n + 19) / 20
  }

  /** How an undisturbed sweep of `n` objects ends. */
  predicate EndsAsItShould(n: nat, budget: Limit, pages: Limit, swept: Swept) {
    var full := Pages(n);
    && (swept.complete <==> Within(budget, n + 2 * full + 22) && Within(pages, full + 1))
    && (swept.complete ==> swept.purged == n && swept.calls == n + 2 * full + 1)
    && swept.failure.None? && swept.purged <= n
  }

  /** How far such a sweep is after some pages, of which all but the last were full. */
  predicate OnTrack(n: nat, left: nat, purged: nat, calls: nat, page: nat) {
    && left == n - purged && calls == purged + 2 * page
    && 20 * page - 20 < purged <= 20 * page && (left > 0 ==> purged == 20 * page)
  }

  lemma CalmEnds(n: nat, left: nat, purged: nat, calls: nat, page: nat, budget: Limit, pages: Limit)
    requires OnTrack(n, left, purged, calls, page)
    ensures !Within(pages, page + 1) || (budget.AtMost? && budget.n - calls < 22) ==>
              EndsAsItShould(n, budget, pages, Swept(calls, purged, false, None))
    ensures Within(pages, page + 1) && (budget.AtMost? ==> budget.n - calls >= 22) && left == 0 ==>
              EndsAsItShould(n, budget, pages, Swept(calls + 1, purged, true, None))
  {
  }

  lemma StaysOnTrack(n: nat, left: nat, purged: nat, calls: nat, page: nat, found: nat)
    requires OnTrack(n, left, purged, calls, page) && 0 < found == if left < 20 then left else 20
    ensures OnTrack(n, left - found, purged + found, calls + found + 2, page + 1)
  {
  }

  predicate Within(limit: Limit, n: int) {
    limit.Unlimited? || n <= limit.n
  }

  /** The purge of an id fails, one call for each id, numbered from `call` on. */
  predicate Fails(objects: Objects, call: nat, ids: seq<string>, i: nat)
    requires i < |ids|
  {
    objects.fails(call + i, ids[i])
  }

  /** The ids whose purge works. */
  ghost function Working(objects: Objects, call: nat, ids: seq<string>): (worked: seq<string>)
    ensures |worked| <= |ids|
  {
    if ids == [] then []
    else
      var last := |ids| - 1;
      Working(objects, call, ids[..last]) + if Fails(objects, call, ids, last) then [] else [ids[last]]
  }

  /** The first id whose purge fails. */
  ghost function FirstFailure(objects: Objects, call: nat, ids: seq<string>): Option<string> {
    if ids == [] then None
    else
      var last := |ids| - 1;
      var before := FirstFailure(objects, call, ids[..last]);
      if before.None? && Fails(objects, call, ids, last) then Some(ids[last]) else before
  }

  /** The failure told is the first there is. */
  lemma {:induction false} FirstFailureIsFirst(objects: Objects, call: nat, ids: seq<string>) returns (i: nat)
    requires FirstFailure(objects, call, ids).Some?
    ensures i < |ids| && Fails(objects, call, ids, i) && FirstFailure(objects, call, ids) == Some(ids[i])
    ensures forall j :: 0 <= j < i ==> !Fails(objects, call, ids, j)
  {
    var last := |ids| - 1;
    var some := ids[..last];
    if FirstFailure(objects, call, some).Some? {
      i := FirstFailureIsFirst(objects, call, some);
      assert forall j :: 0 <= j <= i ==> Fails(objects, call, some, j) == Fails(objects, call, ids, j);
    } else {
      i := last;
      NoneFailed(objects, call, some);
      assert forall j :: 0 <= j < last ==> Fails(objects, call, some, j) == Fails(objects, call, ids, j);
    }
  }

  lemma {:induction false} NoneFailed(objects: Objects, call: nat, ids: seq<string>)
    ensures FirstFailure(objects, call, ids).None? <==> forall i :: 0 <= i < |ids| ==> !Fails(objects, call, ids, i)
  {
    if ids != [] {
      var last := |ids| - 1;
      NoneFailed(objects, call, ids[..last]);
      assert forall i :: 0 <= i < last ==> Fails(objects, call, ids[..last], i) == Fails(objects, call, ids, i);
    }
  }

  /** Without a failure all go. */
  lemma {:induction false} AllWork(objects: Objects, call: nat, ids: seq<string>)
    requires FirstFailure(objects, call, ids).None?
    ensures Working(objects, call, ids) == ids
  {
    if ids != [] {
      AllWork(objects, call, ids[..|ids| - 1]);
      assert ids == ids[..|ids| - 1] + [ids[|ids| - 1]];
    }
  }

  /** One failing purge keeps no other id from going. */
  lemma {:induction false} OthersStillGo(objects: Objects, call: nat, ids: seq<string>, i: nat)
    requires i < |ids| && !Fails(objects, call, ids, i)
    ensures ids[i] in Working(objects, call, ids)
  {
    var some := ids[..|ids| - 1];
    if i < |some| {
      assert Fails(objects, call, some, i) == Fails(objects, call, ids, i);
      OthersStillGo(objects, call, some, i);
    }
  }

  lemma NothingFails(objects: Objects, call: nat, ids: seq<string>)
    requires Undisturbed(objects)
    ensures FirstFailure(objects, call, ids).None?
  {
    NoneFailed(objects, call, ids);
  }

  lemma Append<T>(before: seq<T>, whole: seq<T>, more: seq<T>)
    ensures before + whole + more == before + (whole + more)
  {
  }

  /**
   Works through the list page by page, starting none it could not pay for. It ends with a budget or a bound on pages,
   makes no more calls than its budget and forgets exactly what it purged; it answers complete only when nothing is
   listed. It gives up before that only out of budget, out of pages, or after a page in which a purge failed: `whole`
   are the ids of the pages before, which all went, and `last` those of that page, each tried in calls from `since` on.
   Undisturbed, a sweep of n objects is complete exactly with a budget of at least n, two calls for each page of 20
   they fill, and 22, and with a page more to find nothing left; then it purged all n.
   */
  method SweepObjects(objects: Objects, budget: Limit, pages: Limit)
    returns (swept: Swept, ghost whole: seq<string>, ghost last: seq<string>, ghost since: nat)
    requires budget.AtMost? || pages.AtMost?
    modifies objects
    ensures swept.calls == objects.calls - old(objects.calls)
    ensures swept.calls > 0 ==> Within(budget, swept.calls)
    ensures objects.tried == old(objects.tried) + whole + last
    ensures objects.gone == old(objects.gone) + whole + Working(objects, since, last)
    ensures objects.forgotten == old(objects.forgotten) + whole + Working(objects, since, last)
    ensures swept.purged == |whole| + |Working(objects, since, last)|
    ensures swept.failure == FirstFailure(objects, since, last)
    ensures swept.failure.None? ==> last == []
    ensures swept.failure.Some? ==> old(objects.calls) < since && since + |last| <= objects.calls && |last| <= 20
    ensures swept.complete ==> objects.listed == [] && swept.failure.None?
    ensures !swept.complete && swept.failure.None? ==>
              || (budget.AtMost? && budget.n - swept.calls < 22)
              || (pages.AtMost? && objects.asked - old(objects.asked) >= pages.n)
    ensures old(IsCalm(objects)) ==> EndsAsItShould(|old(objects.listed)|, budget, pages, swept)
  {
    var calls: nat, purged: nat, page: nat := 0, 0, 0;
    whole, last, since := [], [], 0;
    ghost var start := objects.calls;
    ghost var n := |objects.listed|;
    ghost var calm := IsCalm(objects);
    while Within(pages, page + 1)
      invariant calls == objects.calls - start && page == objects.asked - old(objects.asked)
      invariant calls > 0 ==> Within(budget, calls)
      invariant objects.tried == old(objects.tried) + whole
      invariant objects.gone == old(objects.gone) + whole && objects.forgotten == old(objects.forgotten) + whole
      invariant purged == |whole|
      invariant calm ==> IsCalm(objects) && OnTrack(n, |objects.listed|, purged, calls, page)
      decreases if pages.AtMost? then pages.n - page else if budget.AtMost? then budget.n - calls else 0
    {
      if budget.AtMost? && budget.n - calls < PAGE + 2 {
        if calm {
          CalmEnds(n, |objects.listed|, purged, calls, page, budget, pages);
        }
        swept := Swept(calls, purged, false, None);
        return;
      }
      ghost var call := objects.calls + 1;
      ghost var left := |objects.listed|;
      var ids, removed, failure, made := SweepPage(objects);
      if calm {
        if ids == [] {
          CalmEnds(n, left, purged, calls, page, budget, pages);
        } else {
          StaysOnTrack(n, left, purged, calls, page, |ids|);
        }
      }
      calls, purged := calls + made, purged + |removed|;
      if ids == [] {
        swept := Swept(calls, purged, true, None);
        return;
      }
      if failure.Some? {
        last, since := ids, call;
        swept := Swept(calls, purged, false, failure);
        return;
      }
      Append(old(objects.tried), whole, ids);
      Append(old(objects.gone), whole, ids);
      Append(old(objects.forgotten), whole, ids);
      page, whole := page + 1, whole + ids;
    }
    if calm {
      CalmEnds(n, |objects.listed|, purged, calls, page, budget, pages);
    }
    swept := Swept(calls, purged, false, None);
  }

  /** Asks for a page, purges its ids and forgets those that went: its ids, and the calls it made. */
  method SweepPage(objects: Objects)
    returns (ids: seq<string>, removed: seq<string>, failure: Option<string>, calls: nat)
    modifies objects
    ensures calls == objects.calls - old(objects.calls) && |ids| < calls <= |ids| + 2 && |ids| <= 20
    ensures objects.asked == old(objects.asked) + 1
    ensures ids == [] ==> calls == 1 && objects.listed == []
    ensures ids != [] ==> calls >= 2
    ensures objects.tried == old(objects.tried) + ids
    ensures removed == Working(objects, old(objects.calls) + 1, ids) && (failure.None? ==> removed == ids)
    ensures objects.gone == old(objects.gone) + removed && objects.forgotten == old(objects.forgotten) + removed
    ensures failure == FirstFailure(objects, old(objects.calls) + 1, ids)
    ensures old(IsCalm(objects)) ==>
              && IsCalm(objects) && |objects.listed| == |old(objects.listed)| - |ids|
              && |ids| == |removed| == (if |old(objects.listed)| < PAGE then |old(objects.listed)| else PAGE)
              && failure.None? && (ids != [] ==> calls == |ids| + 2)
  {
    ghost var calm, before, call := IsCalm(objects), objects.listed, objects.calls + 1;
    ids := objects.Page(PAGE);
    calls := 1;
    removed, failure := [], None;
    if calm {
      assert objects.listed == before;
      CalmPage(objects, before, call, ids);
    }
    if ids == [] {
      return;
    }
    removed, failure := PurgeAll(objects, ids);
    calls := calls + |ids|;
    if failure.None? {
      AllWork(objects, call, ids);
    }
    if |removed| > 0 {
      objects.Forget(removed);
      calls := calls + 1;
      assert calm ==> objects.listed == before[|ids|..];
    }
  }

  /** A page of an undisturbed sweep: all of it goes, and the rest stays. */
  lemma CalmPage(objects: Objects, before: seq<string>, call: nat, ids: seq<string>)
    requires Undisturbed(objects) && Distinct(before) && ids <= before
    ensures FirstFailure(objects, call, ids).None?
    ensures Except(before, ids) == before[|ids|..] && Distinct(before[|ids|..])
  {
    NothingFails(objects, call, ids);
    ExceptItsStart(before, ids);
  }

  /** Purges each id on its own, whatever failed before it: which went, and the first that did not. */
  method PurgeAll(objects: Objects, ids: seq<string>) returns (removed: seq<string>, failure: Option<string>)
    modifies objects`calls, objects`tried, objects`gone
    ensures objects.calls == old(objects.calls) + |ids| && objects.tried == old(objects.tried) + ids
    ensures objects.gone == old(objects.gone) + removed
    ensures removed == Working(objects, old(objects.calls), ids)
    ensures failure == FirstFailure(objects, old(objects.calls), ids)
  {
    removed, failure := [], None;
    ghost var call := objects.calls;
    for i := 0 to |ids|
      invariant objects.calls == call + i && objects.tried == old(objects.tried) + ids[..i]
      invariant objects.gone == old(objects.gone) + removed
      invariant removed == Working(objects, call, ids[..i])
      invariant failure == FirstFailure(objects, call, ids[..i])
    {
      var ok := objects.Purge(ids[i]);
      assert ids[..i + 1][..i] == ids[..i];
      assert Fails(objects, call, ids[..i + 1], i) == objects.fails(objects.calls - 1, ids[i]);
      if ok {
        removed := removed + [ids[i]];
      } else if failure.None? {
        failure := Some(ids[i]);
      }
    }
    assert ids[..|ids|] == ids;
  }
}
