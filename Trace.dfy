/** Observable effects of the metric-extraction engine, recorded as events instead of
    being performed: sleeps (with their bounds), selector probes, browser teardown,
    messages for the dashboard and progress updates. */
module Trace {

  datatype Option<+T> = None | Some(value: T)

  /** The decimal number units / 10^places, as a view count is stored in a table cell. */
  datatype Decimal = Decimal(units: int, places: nat)

  /** The two page selectors of the play-count extractor, in the order they are tried. */
  datatype Selector = XPath | Css

  datatype Event =
    | RateLimitSleep(seconds: nat)          // fixed pause before every browser attempt
    | Probe(selector: Selector, timeoutMs: nat) // wait for one selector on the loaded page
    | BrowserClosed                         // explicit browser teardown
    | NotFoundWarning                       // warning: play-count element not found
    | FetchError                            // error report after the last failed attempt
    | JitterSleep(low: nat, high: nat)      // randomised pause after a failed attempt
    | Progress(row: nat, total: nat)        // progress bar at row/total, status "row i of n"
    | PacingSleep(low: nat, high: nat)      // randomised pause after each extracted row
    | ViewError                             // error report of the view-count extractor
    | ProcessingError                       // error report of the play-count batch

  /** Number of occurrences of `e` in `t`. */
  function Occurrences(t: seq<Event>, e: Event): (n: nat)
    ensures n <= |t|
  {
    if t == [] then 0 else (if t[0] == e then 1 else 0) + Occurrences(t[1..], e)
  }

  lemma {:induction false} OccurrencesAppend(a: seq<Event>, b: seq<Event>, e: Event)
    ensures Occurrences(a + b, e) == Occurrences(a, e) + Occurrences(b, e)
  {
    if a == [] {
      assert a + b == b;
    } else {
      assert (a + b)[1..] == a[1..] + b;
      OccurrencesAppend(a[1..], b, e);
    }
  }

  lemma OccurrencesSingleton(x: Event)
    ensures forall e :: Occurrences([x], e) == if x == e then 1 else 0
  {
    assert [x][1..] == [];
  }

  /** The progress updates of a trace, in order. */
  function ProgressUpdates(t: seq<Event>): (p: seq<Event>)
    ensures |p| <= |t|
    ensures forall i :: 0 <= i < |p| ==> p[i].Progress?
  {
    if t == [] then []
    else (if t[0].Progress? then [t[0]] else []) + ProgressUpdates(t[1..])
  }

  lemma {:induction false} ProgressUpdatesAppend(a: seq<Event>, b: seq<Event>)
    ensures ProgressUpdates(a + b) == ProgressUpdates(a) + ProgressUpdates(b)
  {
    if a == [] {
      assert a + b == b;
    } else {
      assert (a + b)[1..] == a[1..] + b;
      ProgressUpdatesAppend(a[1..], b);
    }
  }

  lemma {:induction false} OccurrencesAbsent(t: seq<Event>, e: Event)
    requires forall i :: 0 <= i < |t| ==> t[i] != e
    ensures Occurrences(t, e) == 0
  {
    if t != [] {
      OccurrencesAbsent(t[1..], e);
    }
  }

  lemma {:induction false} ProgressUpdatesNone(t: seq<Event>)
    requires forall i :: 0 <= i < |t| ==> !t[i].Progress?
    ensures ProgressUpdates(t) == []
  {
    if t != [] {
      ProgressUpdatesNone(t[1..]);
    }
  }

  /** The progress bar's position after an update: row / total. */
  function ProgressFraction(e: Event): real
    requires e.Progress? && e.total > 0
  {
    e.row as real / e.total as real
  }

  /** The updates a batch over `n` rows makes, one per row: (i+1)/n for row i. */
  function ProgressSeries(n: nat): (s: seq<Event>)
    ensures |s| == n
  {
    seq(n, i requires 0 <= i < n => Progress(i + 1, n))
  }

  lemma ProgressSeriesStep(n: nat, k: nat)
    requires 0 < k <= n
    ensures ProgressSeries(n)[..k] == ProgressSeries(n)[..k - 1] + [Progress(k, n)]
  {
    var s := ProgressSeries(n);
    assert s[k - 1] == Progress(k, n);
    assert s[..k] == s[..k - 1] + [s[k - 1]];
  }

  /** Appending the events of row k to those of the first k-1 rows extends the series. */
  lemma ProgressSeriesExtend(prev: seq<Event>, row: seq<Event>, n: nat, k: nat)
    requires 0 < k <= n
    requires ProgressUpdates(prev) == ProgressSeries(n)[..k - 1]
    requires ProgressUpdates(row) == [Progress(k, n)]
    ensures ProgressUpdates(prev + row) == ProgressSeries(n)[..k]
  {
    ProgressUpdatesAppend(prev, row);
    ProgressSeriesStep(n, k);
  }

  /** The series rises strictly, stays within (0, 1] and ends at 1. */
  lemma ProgressSeriesRises(n: nat)
    ensures forall i, j :: 0 <= i < j < n ==> ProgressFraction(ProgressSeries(n)[i]) < ProgressFraction(ProgressSeries(n)[j])
    ensures forall i :: 0 <= i < n ==> 0.0 < ProgressFraction(ProgressSeries(n)[i]) <= 1.0
    ensures n > 0 ==> ProgressFraction(ProgressSeries(n)[n - 1]) == 1.0
  {
    var s := ProgressSeries(n);
    forall i, j | 0 <= i < j < n ensures ProgressFraction(s[i]) < ProgressFraction(s[j]) {
      DivideMonotone((i + 1) as real, (j + 1) as real, n as real);
    }
    forall i | 0 <= i < n ensures 0.0 < ProgressFraction(s[i]) <= 1.0 {
      DivideMonotone((i + 1) as real, n as real, n as real);
    }
    if n > 0 {
      DivideMonotone(n as real, n as real, n as real);
    }
  }

  lemma DivideMonotone(a: real, b: real, d: real)
    requires 0.0 < a && a <= b && d > 0.0
    ensures 0.0 < a / d <= b / d
    ensures a < b ==> a / d < b / d
    ensures b == d ==> b / d == 1.0
  {
    var q := 1.0 / d;
    assert q > 0.0;
    assert a / d == a * q && b / d == b * q;
    MultiplyPositive(b - a, q);
    MultiplyPositive(a, q);
  }

  lemma MultiplyPositive(x: real, y: real)
    requires x >= 0.0 && y > 0.0
    ensures x * y >= 0.0
    ensures x > 0.0 ==> x * y > 0.0
  {
  }
}
