/**
  Admission over a rolling window, as both the organization store and the
  per-process scheduler practise it: remember what was admitted, forget what
  has left the window, and refuse what would not fit.

  `Spent` is the reference the two limiters are measured against. It looks at
  the WHOLE history of admissions and knows nothing about forgetting.
 */
module RollingWindow {
  import opened Common

  datatype Entry = Entry(at: real, weight: int)

  /** Weight admitted in the window `(t - width, t]`, over the whole history. */
  function Spent(history: seq<Entry>, width: real, t: real): int {
    if history == [] then 0
    else
      var last := history[|history| - 1];
      Spent(history[..|history| - 1], width, t)
      + (if t - width < last.at <= t then last.weight else 0)
  }

  /** No window of this width, wherever it ends, ever held more than `limit`. */
  ghost predicate Capped(history: seq<Entry>, width: real, limit: int) {
    forall t: real :: Spent(history, width, t) <= limit
  }

  ghost predicate Sorted(history: seq<Entry>) {
    forall i, j :: 0 <= i < j < |history| ==> history[i].at <= history[j].at
  }

  ghost predicate NonNegative(history: seq<Entry>) {
    forall i :: 0 <= i < |history| ==> history[i].weight >= 0
  }

  ghost predicate NoneAfter(history: seq<Entry>, now: real) {
    forall i :: 0 <= i < |history| ==> history[i].at <= now
  }

  /** A history of entries of weight one: a count of requests. */
  ghost predicate Unit(history: seq<Entry>) {
    forall i :: 0 <= i < |history| ==> history[i].weight == 1
  }

  function Weight(entries: seq<Entry>): int {
    if entries == [] then 0
    else Weight(entries[..|entries| - 1]) + entries[|entries| - 1].weight
  }

  /** The entries strictly later than `lo`: what a limiter still remembers. */
  function Since(history: seq<Entry>, lo: real): (kept: seq<Entry>)
    ensures |kept| <= |history|
    ensures forall e :: e in kept ==> e in history && e.at > lo
  {
    if history == [] then []
    else
      var last := history[|history| - 1];
      var rest := Since(history[..|history| - 1], lo);
      if last.at > lo then rest + [last] else rest
  }

  lemma SpentAppend(history: seq<Entry>, e: Entry, width: real, t: real)
    ensures Spent(history + [e], width, t)
         == Spent(history, width, t) + (if t - width < e.at <= t then e.weight else 0)
  {
    assert (history + [e])[..|history|] == history;
  }

  lemma SinceAppend(history: seq<Entry>, e: Entry, lo: real)
    ensures Since(history + [e], lo) == Since(history, lo) + (if e.at > lo then [e] else [])
  {
    assert (history + [e])[..|history|] == history;
  }

  /** Forgetting twice is forgetting once, from the later point. */
  lemma {:induction false} SinceSince(history: seq<Entry>, lo: real, later: real)
    requires lo <= later
    ensures Since(Since(history, lo), later) == Since(history, later)
  {
    if history != [] {
      var front := history[..|history| - 1];
      var last := history[|history| - 1];
      SinceSince(front, lo, later);
      SinceAppend(Since(front, lo), last, later);
    }
  }

  lemma {:induction false} SinceKeepsOrder(history: seq<Entry>, lo: real)
    requires Sorted(history)
    ensures Sorted(Since(history, lo))
  {
    if history != [] {
      SinceKeepsOrder(history[..|history| - 1], lo);
    }
  }

  /** What a limiter remembers is exactly the current window of the history. */
  lemma {:induction false} RememberedIsSpent(history: seq<Entry>, width: real, now: real)
    requires NoneAfter(history, now)
    ensures Weight(Since(history, now - width)) == Spent(history, width, now)
  {
    if history != [] {
      var front := history[..|history| - 1];
      var last := history[|history| - 1];
      RememberedIsSpent(front, width, now);
      if last.at > now - width {
        assert (Since(front, now - width) + [last])[..|Since(front, now - width)|] == Since(front, now - width);
      }
    }
  }

  lemma {:induction false} UnitWeight(entries: seq<Entry>)
    requires Unit(entries)
    ensures Weight(entries) == |entries|
  {
    if entries != [] {
      UnitWeight(entries[..|entries| - 1]);
    }
  }

  lemma {:induction false} SpentNonNegative(history: seq<Entry>, width: real, t: real)
    requires NonNegative(history)
    ensures Spent(history, width, t) >= 0
  {
    if history != [] {
      SpentNonNegative(history[..|history| - 1], width, t);
    }
  }

  /** A window that ends after everything admitted holds no more than the
      window that ends at `now`: sliding forward only lets entries go. */
  lemma {:induction false} SpentShrinks(history: seq<Entry>, width: real, now: real, t: real)
    requires NonNegative(history) && NoneAfter(history, now) && now <= t
    ensures Spent(history, width, t) <= Spent(history, width, now)
  {
    if history != [] {
      SpentShrinks(history[..|history| - 1], width, now, t);
    }
  }

  /** Checking the window that ends NOW is enough to cap every window there
      will ever be, as long as the clock does not run backwards. */
  lemma AdmitKeepsCap(history: seq<Entry>, width: real, limit: int, e: Entry)
    requires NonNegative(history) && NoneAfter(history, e.at) && e.weight >= 0
    requires Capped(history, width, limit)
    requires Spent(history, width, e.at) + e.weight <= limit
    ensures Capped(history + [e], width, limit)
  {
    forall t: real
      ensures Spent(history + [e], width, t) <= limit
    {
      SpentAppend(history, e, width, t);
      if t - width < e.at <= t {
        SpentShrinks(history, width, e.at, t);
      }
    }
  }

  /** A window that includes BOTH its ends is not capped: two admissions one
      full width apart share it, and each was admitted alone. */
  lemma ClosedWindowIsNotCapped()
    ensures var h := [Entry(0.0, 1), Entry(60.0, 1)];
            Capped(h, 60.0, 1) && h[1].at - h[0].at <= 60.0 && h[0].weight + h[1].weight > 1
  {
    var first := [Entry(0.0, 1)];
    forall t: real ensures Spent([], 60.0, t) <= 1 {}
    assert [] + [Entry(0.0, 1)] == first;
    AdmitKeepsCap([], 60.0, 1, Entry(0.0, 1));
    SpentAppend([], Entry(0.0, 1), 60.0, 60.0);
    AdmitKeepsCap(first, 60.0, 1, Entry(60.0, 1));
    assert first + [Entry(60.0, 1)] == [Entry(0.0, 1), Entry(60.0, 1)];
  }

  // -- what a limiter has to keep ---------------------------------------------

  /** What a window keeps is its whole history from `lo` on, and that history
      never put more than the cap, when there is one, into any window. */
  ghost predicate Tracks(kept: seq<Entry>, history: seq<Entry>, lo: real, clock: real, width: real, cap: Option<int>) {
    && kept == Since(history, lo)
    && lo <= clock - width
    && NonNegative(history)
    && NoneAfter(history, clock)
    && (cap.Some? ==> Capped(history, width, cap.value))
  }

  lemma TracksLater(kept: seq<Entry>, history: seq<Entry>, lo: real, clock: real, width: real, cap: Option<int>,
      now: real)
    requires Tracks(kept, history, lo, clock, width, cap) && clock <= now
    ensures Tracks(Since(kept, now - width), history, now - width, now, width, cap)
    ensures Weight(Since(kept, now - width)) == Spent(history, width, now)
    ensures Since(kept, now - width) == Since(history, now - width)
  {
    hide Spent, Since, Weight, Capped;
    assert NoneAfter(history, now);
    assert Since(kept, now - width) == Since(history, now - width) by {
      SinceSince(history, lo, now - width);
    }
    assert Weight(Since(history, now - width)) == Spent(history, width, now) by {
      RememberedIsSpent(history, width, now);
    }
  }

  lemma TracksAdmitted(kept: seq<Entry>, history: seq<Entry>, now: real, width: real, cap: Option<int>, e: Entry)
    requires width > 0.0 && Tracks(kept, history, now - width, now, width, cap)
    requires e.at == now && e.weight >= 0
    requires cap.Some? ==> Spent(history, width, now) + e.weight <= cap.value
    ensures Tracks(kept + [e], history + [e], now - width, now, width, cap)
    ensures Spent(history + [e], width, now) == Spent(history, width, now) + e.weight
  {
    hide Spent, Since, Capped;
    if cap.Some? {
      AdmitKeepsCap(history, width, cap.value, e);
    }
    SinceAppend(history, e, now - width);
    SpentAppend(history, e, width, now);
  }

  // -- pruning a queue from its front -----------------------------------------

  lemma SinceOne(e: Entry, lo: real)
    ensures Since([e], lo) == (if e.at > lo then [e] else []) + Since([e][1..], lo)
  {
    assert [e][..0] == [];
  }

  lemma {:induction false} SinceHead(history: seq<Entry>, lo: real)
    requires history != []
    ensures Since(history, lo) == (if history[0].at > lo then [history[0]] else []) + Since(history[1..], lo)
  {
    hide Since;
    if |history| == 1 {
      assert history == [history[0]];
      SinceOne(history[0], lo);
    } else {
      var front, last := history[..|history| - 1], history[|history| - 1];
      SinceHead(front, lo);
      SinceAppend(front, last, lo);
      SinceAppend(front[1..], last, lo);
      assert history == front + [last] && history[1..] == front[1..] + [last];
    }
  }

  ghost predicate AllAfter(history: seq<Entry>, lo: real) {
    forall i :: 0 <= i < |history| ==> history[i].at > lo
  }

  /** Nothing is forgotten of a queue whose entries are all recent; in a sorted
      queue it is enough that the head is. */
  lemma {:induction false} SinceAll(history: seq<Entry>, lo: real)
    requires AllAfter(history, lo)
    ensures Since(history, lo) == history
  {
    if history != [] {
      var front := history[..|history| - 1];
      var last := history[|history| - 1];
      assert AllAfter(front, lo);
      SinceAll(front, lo);
      assert last.at > lo;
      assert history == front + [last];
    }
  }
}
