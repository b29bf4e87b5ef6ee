/**
 The fixed one-minute windows a raised request rate is counted in (`admitRate`, packages/billing/src/store.ts:334-344).
 */
module RateWindows {
  import opened Plan

  /** The window requests are counted in, and how many were. */
  datatype Window = Window(start: int, count: int)

  const FRESH := Window(0, 0)

  function StartOf(now: int): int {
    now / RATE_WINDOW_MS * RATE_WINDOW_MS
  }

  function Count(w: Window, ceiling: int, now: int): (Window, bool) {
    var current := if StartOf(now) > w.start then Window(StartOf(now), 0) else w;
    if current.count >= ceiling then (current, false) else (current.(count := current.count + 1), true)
  }

  /** At or before the current window's minute, whatever the clock reads, the window stays and its count never falls. */
  lemma LaggingRequestsNeverReset(w: Window, ceiling: int, now: int)
    requires StartOf(now) <= w.start
    ensures Count(w, ceiling, now).0.start == w.start && w.count <= Count(w, ceiling, now).0.count
  {
  }

  /** Windows are the minutes of the clock: 60,000 ms long, from a whole number of them. */
  lemma WindowsAreMinutes(now: int)
    ensures StartOf(now) % 60000 == 0 && StartOf(now) <= now < StartOf(now) + 60000
  {
  }

  /** How many of the requests at the given times are admitted and counted in the window that starts at `start`. */
  function AdmittedIn(w: Window, ceiling: int, nows: seq<int>, start: int): nat
    decreases |nows|
  {
    if nows == [] then 0
    else
      var (next, admitted) := Count(w, ceiling, nows[0]);
      (if admitted && next.start == start then 1 else 0) + AdmittedIn(next, ceiling, nows[1..], start)
  }

  lemma {:induction false} WindowsAreFilledOnce(w: Window, ceiling: nat, nows: seq<int>, start: int)
    requires 0 <= w.count <= ceiling
    ensures AdmittedIn(w, ceiling, nows, start) <=
            if start < w.start then 0 else if start == w.start then ceiling - w.count else ceiling
    decreases |nows|
  {
    if nows != [] {
      WindowsAreFilledOnce(Count(w, ceiling, nows[0]).0, ceiling, nows[1..], start);
    }
  }

  /** Whatever order the clocks of requests come in, each window admits at most the ceiling. */
  lemma EachWindowAdmitsAtMostTheCeiling(ceiling: nat, nows: seq<int>, start: int)
    ensures AdmittedIn(FRESH, ceiling, nows, start) <= ceiling
  {
    WindowsAreFilledOnce(FRESH, ceiling, nows, start);
  }

  /** And no fewer: of the requests of one minute the first `ceiling` are admitted, each, and then none. */
  lemma {:induction false} EachWindowAdmitsTheCeiling(ceiling: nat, nows: seq<int>, start: int)
    requires start > 0 && start % 60000 == 0
    requires forall i :: 0 <= i < |nows| ==> start <= nows[i] < start + 60000
    ensures AdmittedIn(FRESH, ceiling, nows, start) == if |nows| < ceiling then |nows| else ceiling
    ensures forall i :: 0 <= i < |nows| ==>
              (Count(WindowAfter(FRESH, ceiling, nows[..i]), ceiling, nows[i]).1 <==> i < ceiling)
  {
    OneMinuteFills(FRESH, ceiling, nows, start);
    forall i | 0 <= i < |nows|
      ensures Count(WindowAfter(FRESH, ceiling, nows[..i]), ceiling, nows[i]).1 <==> i < ceiling
    {
      OneMinuteFills(FRESH, ceiling, nows[..i], start);
    }
  }

  /** The window some requests leave. */
  function WindowAfter(w: Window, ceiling: int, nows: seq<int>): Window
    decreases |nows|
  {
    if nows == [] then w else WindowAfter(Count(w, ceiling, nows[0]).0, ceiling, nows[1..])
  }

  function Least(a: int, b: int): int {
    if a < b then a else b
  }

  lemma {:induction false} OneMinuteFills(w: Window, ceiling: nat, nows: seq<int>, start: int)
    requires start % 60000 == 0 && 0 <= w.count <= ceiling && w.start <= start
    requires forall i :: 0 <= i < |nows| ==> start <= nows[i] < start + 60000
    ensures var before := if w.start == start then w.count else 0;
            && AdmittedIn(w, ceiling, nows, start) == Least(|nows|, ceiling - before)
            && WindowAfter(w, ceiling, nows) ==
               if nows == [] then w else Window(start, Least(before + |nows|, ceiling))
    decreases |nows|
  {
    if nows != [] {
      assert StartOf(nows[0]) == start;
      OneMinuteFills(Count(w, ceiling, nows[0]).0, ceiling, nows[1..], start);
    }
  }

  /** How many of the requests at times from `since` to before `until` are admitted. */
  function AdmittedBetween(w: Window, ceiling: int, nows: seq<int>, since: int, until: int): nat
    decreases |nows|
  {
    if nows == [] then 0
    else
      var (next, admitted) := Count(w, ceiling, nows[0]);
      (if admitted && since <= nows[0] < until then 1 else 0)
      + AdmittedBetween(next, ceiling, nows[1..], since, until)
  }

  predicate NonDecreasing(nows: seq<int>) {
    forall i, j :: 0 <= i < j < |nows| ==> nows[i] <= nows[j]
  }

  lemma WindowsAreOrdered(a: int, b: int)
    ensures a <= b ==> StartOf(a) <= StartOf(b)
    ensures a <= b < a + RATE_WINDOW_MS ==> StartOf(b) == StartOf(a) || StartOf(b) == StartOf(a) + RATE_WINDOW_MS
  {
  }

  lemma {:induction false} ASpanMeetsTwoWindows(w: Window, ceiling: int, nows: seq<int>, since: int)
    requires NonDecreasing(nows) && (nows != [] ==> w.start <= StartOf(nows[0]))
    ensures AdmittedBetween(w, ceiling, nows, since, since + RATE_WINDOW_MS) <=
            AdmittedIn(w, ceiling, nows, StartOf(since))
            + AdmittedIn(w, ceiling, nows, StartOf(since) + RATE_WINDOW_MS)
    decreases |nows|
  {
    if nows != [] {
      var next := Count(w, ceiling, nows[0]).0;
      assert next.start == StartOf(nows[0]);
      WindowsAreOrdered(since, nows[0]);
      if |nows| > 1 {
        WindowsAreOrdered(nows[0], nows[1]);
      }
      ASpanMeetsTwoWindows(next, ceiling, nows[1..], since);
    }
  }

  /** When clocks never go back, any 60 seconds admit at most twice the ceiling. */
  lemma AnyMinuteAdmitsAtMostTwice(ceiling: nat, nows: seq<int>, since: int)
    requires NonDecreasing(nows) && (nows != [] ==> nows[0] >= 0)
    ensures AdmittedBetween(FRESH, ceiling, nows, since, since + 60000) <= 2 * ceiling
  {
    ASpanMeetsTwoWindows(FRESH, ceiling, nows, since);
    EachWindowAdmitsAtMostTheCeiling(ceiling, nows, StartOf(since));
    EachWindowAdmitsAtMostTheCeiling(ceiling, nows, StartOf(since) + RATE_WINDOW_MS);
  }

  /**
   And twice is reached: the last moment of one minute and the first of the next admit one each under a ceiling of one.
   */
  lemma TwiceIsReached()
    ensures AdmittedBetween(FRESH, 1, [59999, 60000], 59999, 59999 + RATE_WINDOW_MS) == 2
  {
    assert [59999, 60000][1..] == [60000] && [60000][1..] == [];
    assert AdmittedBetween(Count(FRESH, 1, 59999).0, 1, [60000], 59999, 119999) == 1;
  }
}
