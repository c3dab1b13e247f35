/** The two batch processors (perp.py:53-90 and perp.py:111-147). Each copies the frame,
    walks its rows in order, updates the progress bar to (index+1)/total_rows, records a
    placeholder for a missing URL without calling the extractor, otherwise calls the
    extractor and pauses, and finally assigns the results as a new dated column of the copy.

    The extractors' environments are per row: env(i) is what the browser sees for the URL
    of row i, meta(i) what the metadata service answers for it. The batches' traces are
    stated over the per-row outcomes of the extractors (`Runs(env)`, `Results(meta)`), so
    that their properties hold for any extractor outcomes of the right shape. */
module Batch {
  import opened Trace
  import opened PlayCount
  import opened ViewCount
  import opened Frames

  const PacingLow: nat := 1     // bounds of the pause after each extracted row
  const PacingHigh: nat := 3

  const PlayCountMetric := "Play Count"   // the metric names in the dated column labels
  const ViewCountMetric := "View Count"

  /** The dated column label a batch assigns, `f"{metric} ({date})"`; the metric and the
      date can both be read back from it. */
  function ColumnLabel(metric: string, date: string): (l: string)
    ensures |l| == |metric| + |date| + 3
    ensures l[..|metric|] == metric && l[|metric| + 2..|l| - 1] == date
  {
    metric + " (" + date + ")"
  }

  /** Runs on the same day name the same column and runs on different days different
      ones; a play-count column never clashes with a view-count column. */
  lemma DatedLabels(d1: string, d2: string)
    ensures ColumnLabel(PlayCountMetric, d1) == ColumnLabel(PlayCountMetric, d2) <==> d1 == d2
    ensures ColumnLabel(ViewCountMetric, d1) == ColumnLabel(ViewCountMetric, d2) <==> d1 == d2
    ensures ColumnLabel(PlayCountMetric, d1) != ColumnLabel(ViewCountMetric, d2)
  {
    var p, v := ColumnLabel(PlayCountMetric, d1), ColumnLabel(ViewCountMetric, d2);
    assert p[0] == p[..10][0] == 'P' && v[0] == v[..10][0] == 'V';
  }

  /** Number of rows among the first k whose URL cell is not missing. */
  function PresentRows(urls: seq<Cell>, k: nat): (n: nat)
    requires k <= |urls|
    ensures n <= k
  {
    if k == 0 then 0 else PresentRows(urls, k - 1) + (if urls[k - 1].NA? then 0 else 1)
  }

  // ---- the play-count batch ----

  /** The extractor's outcome for each row: runs(i) is the call for the URL of row i. */
  function Runs(env: nat -> nat -> PageLoad): nat -> Run {
    (i: nat) => PlayCountRun(env(i))
  }

  /** The play-count column: 0 for a missing URL, otherwise the extractor's count. */
  function PlayCounts(urls: seq<Cell>, runs: nat -> Run): seq<int> {
    seq(|urls|, i requires 0 <= i < |urls| => if urls[i].NA? then 0 else runs(i).count)
  }

  /** What row i of the play-count batch does: a progress update, then for a present URL
      the extractor's events and a pause. */
  function SpotifyRow(urls: seq<Cell>, runs: nat -> Run, i: nat): seq<Event>
    requires i < |urls|
  {
    [Progress(i + 1, |urls|)]
    + (if urls[i].NA? then [] else runs(i).trace + [PacingSleep(PacingLow, PacingHigh)])
  }

  function SpotifyRows(urls: seq<Cell>, runs: nat -> Run, k: nat): seq<Event>
    requires k <= |urls|
  {
    if k == 0 then [] else SpotifyRows(urls, runs, k - 1) + SpotifyRow(urls, runs, k - 1)
  }

  /** One row of the play-count batch (perp.py:65-79): the progress update, then either
      the placeholder 0 for a missing URL, or the extractor's count and a pause. */
  method SpotifyRowStep(urls: seq<Cell>, env: nat -> nat -> PageLoad, i: nat)
    returns (count: int, called: bool, events: seq<Event>)
    requires i < |urls|
    ensures count == if urls[i].NA? then 0 else PlayCountRun(env(i)).count
    ensures called == !urls[i].NA?
    ensures events == SpotifyRow(urls, Runs(env), i)
  {
    events := [Progress(i + 1, |urls|)];
    if urls[i].NA? {
      return 0, false, events;
    }
    var attempts, extracted;
    count, attempts, extracted := GetSpotifyData(env(i));
    called := true;
    events := events + extracted + [PacingSleep(PacingLow, PacingHigh)];
  }

  /** Row i extends the column and the trace of the rows before it. */
  lemma SpotifyExtend(urls: seq<Cell>, runs: nat -> Run, i: nat)
    requires i < |urls|
    ensures PlayCounts(urls, runs)[..i + 1]
            == PlayCounts(urls, runs)[..i] + [if urls[i].NA? then 0 else runs(i).count]
    ensures SpotifyRows(urls, runs, i + 1) == SpotifyRows(urls, runs, i) + SpotifyRow(urls, runs, i)
  {
    assert PlayCounts(urls, runs)[..i + 1] == PlayCounts(urls, runs)[..i] + [PlayCounts(urls, runs)[i]];
  }

  /** The row loop of the play-count batch (perp.py:62-79). `calls` counts extractor calls. */
  method PlayCountColumn(urls: seq<Cell>, env: nat -> nat -> PageLoad)
    returns (counts: seq<int>, calls: nat, trace: seq<Event>)
    ensures |counts| == |urls|
    ensures forall i :: 0 <= i < |urls| ==>
              counts[i] == if urls[i].NA? then 0 else PlayCountRun(env(i)).count
    ensures calls == PresentRows(urls, |urls|)
    ensures trace == SpotifyRows(urls, Runs(env), |urls|)
  {
    counts, calls, trace := [], 0, [];
    for i := 0 to |urls|
      invariant counts == PlayCounts(urls, Runs(env))[..i]
      invariant calls == PresentRows(urls, i)
      invariant trace == SpotifyRows(urls, Runs(env), i)
    {
      var count, called, events := SpotifyRowStep(urls, env, i);
      SpotifyExtend(urls, Runs(env), i);
      counts := counts + [count];
      calls := calls + if called then 1 else 0;
      trace := trace + events;
    }
    assert counts == PlayCounts(urls, Runs(env));
  }

  function CountCells(counts: seq<int>): (cells: seq<Cell>)
    ensures |cells| == |counts|
  {
    seq(|counts|, i requires 0 <= i < |counts| => Whole(counts[i]))
  }

  /** `process_spotify_data`: the frame is copied and the new column is assigned on the
      copy. A URL column that is not in the frame raises on the first row; the error is
      reported and the copy is returned without a new column. */
  method ProcessSpotifyData(df: DataFrame, urlColumn: string, env: nat -> nat -> PageLoad, date: string)
    returns (out: DataFrame, trace: seq<Event>)
    requires df.Valid()
    ensures fresh(out) && out.Valid() && out.height == df.height
    ensures urlColumn in df.labels ==>
              && out.labels == AssignLabels(df.labels, ColumnLabel(PlayCountMetric, date))
              && out.columns == AssignColumns(df.labels, df.columns, ColumnLabel(PlayCountMetric, date),
                                              CountCells(PlayCounts(df.Column(urlColumn), Runs(env))))
              && trace == SpotifyRows(df.Column(urlColumn), Runs(env), df.height)
    ensures urlColumn !in df.labels && df.height == 0 ==>
              && out.labels == AssignLabels(df.labels, ColumnLabel(PlayCountMetric, date))
              && out.columns == AssignColumns(df.labels, df.columns, ColumnLabel(PlayCountMetric, date), [])
              && trace == []
    ensures urlColumn !in df.labels && df.height > 0 ==>
              && out.labels == df.labels && out.columns == df.columns
              && trace == [Progress(1, df.height), ProcessingError]
  {
    out := df.Copy();
    if urlColumn !in out.labels && out.height > 0 {
      trace := [Progress(1, out.height), ProcessingError];
      return;
    }
    var urls: seq<Cell> := if urlColumn in out.labels then out.Column(urlColumn) else [];
    var counts, calls;
    counts, calls, trace := PlayCountColumn(urls, env);
    assert counts == PlayCounts(urls, Runs(env));
    out.Assign(ColumnLabel(PlayCountMetric, date), CountCells(counts));
  }

  // ---- the view-count batch ----

  /** The extractor's result for each row. */
  function Results(meta: nat -> Metadata): nat -> Option<Decimal> {
    (i: nat) => GetYoutubeViews(meta(i))
  }

  /** The view-count column: no value for a missing URL, otherwise the extractor's result. */
  function Views(urls: seq<Cell>, results: nat -> Option<Decimal>): seq<Option<Decimal>> {
    seq(|urls|, i requires 0 <= i < |urls| => if urls[i].NA? then None else results(i))
  }

  /** What row i of the view-count batch does: a progress update, then for a present URL
      an error report when the extractor gives no value, and a pause. */
  function YoutubeRow(urls: seq<Cell>, results: nat -> Option<Decimal>, i: nat): seq<Event>
    requires i < |urls|
  {
    [Progress(i + 1, |urls|)]
    + (if urls[i].NA? then []
       else (if results(i).None? then [ViewError] else []) + [PacingSleep(PacingLow, PacingHigh)])
  }

  function YoutubeRows(urls: seq<Cell>, results: nat -> Option<Decimal>, k: nat): seq<Event>
    requires k <= |urls|
  {
    if k == 0 then [] else YoutubeRows(urls, results, k - 1) + YoutubeRow(urls, results, k - 1)
  }

  /** One row of the view-count batch (perp.py:123-139): the progress update, then either
      no value for a missing URL, or the extractor's result (with its error report when
      it gives no value) and a pause. */
  method YoutubeRowStep(urls: seq<Cell>, meta: nat -> Metadata, i: nat)
    returns (view: Option<Decimal>, called: bool, events: seq<Event>)
    requires i < |urls|
    ensures view == if urls[i].NA? then None else GetYoutubeViews(meta(i))
    ensures called == !urls[i].NA?
    ensures events == YoutubeRow(urls, Results(meta), i)
  {
    events := [Progress(i + 1, |urls|)];
    if urls[i].NA? {
      return None, false, events;
    }
    view := GetYoutubeViews(meta(i));
    called := true;
    if view.None? {
      events := events + [ViewError];
    }
    events := events + [PacingSleep(PacingLow, PacingHigh)];
  }

  /** Row i extends the column and the trace of the rows before it. */
  lemma YoutubeExtend(urls: seq<Cell>, results: nat -> Option<Decimal>, i: nat)
    requires i < |urls|
    ensures Views(urls, results)[..i + 1]
            == Views(urls, results)[..i] + [if urls[i].NA? then None else results(i)]
    ensures YoutubeRows(urls, results, i + 1) == YoutubeRows(urls, results, i) + YoutubeRow(urls, results, i)
  {
    assert Views(urls, results)[..i + 1] == Views(urls, results)[..i] + [Views(urls, results)[i]];
  }

  /** The row loop of the view-count batch (perp.py:120-139). */
  method ViewColumn(urls: seq<Cell>, meta: nat -> Metadata)
    returns (views: seq<Option<Decimal>>, calls: nat, trace: seq<Event>)
    ensures |views| == |urls|
    ensures forall i :: 0 <= i < |urls| ==>
              views[i] == if urls[i].NA? then None else GetYoutubeViews(meta(i))
    ensures calls == PresentRows(urls, |urls|)
    ensures trace == YoutubeRows(urls, Results(meta), |urls|)
  {
    views, calls, trace := [], 0, [];
    for i := 0 to |urls|
      invariant views == Views(urls, Results(meta))[..i]
      invariant calls == PresentRows(urls, i)
      invariant trace == YoutubeRows(urls, Results(meta), i)
    {
      var view, called, events := YoutubeRowStep(urls, meta, i);
      YoutubeExtend(urls, Results(meta), i);
      views := views + [view];
      calls := calls + if called then 1 else 0;
      trace := trace + events;
    }
    assert views == Views(urls, Results(meta));
  }

  function ViewCells(views: seq<Option<Decimal>>): (cells: seq<Cell>)
    ensures |cells| == |views|
  {
    seq(|views|, i requires 0 <= i < |views| => if views[i].None? then NA else Fraction(views[i].value))
  }

  /** `process_youtube_data`: like the play-count batch, except that a URL column that is
      not in the frame is not caught: the call raises (None here) after the first progress
      update. */
  method ProcessYoutubeData(df: DataFrame, urlColumn: string, meta: nat -> Metadata, date: string)
    returns (out: Option<DataFrame>, trace: seq<Event>)
    requires df.Valid()
    ensures out.Some? <==> (urlColumn in df.labels || df.height == 0)
    ensures out.Some? ==> fresh(out.value) && out.value.Valid() && out.value.height == df.height
    ensures out.Some? ==> out.value.labels == AssignLabels(df.labels, ColumnLabel(ViewCountMetric, date))
    ensures urlColumn in df.labels ==>
              && out.Some?
              && out.value.columns == AssignColumns(df.labels, df.columns, ColumnLabel(ViewCountMetric, date),
                                                    ViewCells(Views(df.Column(urlColumn), Results(meta))))
              && trace == YoutubeRows(df.Column(urlColumn), Results(meta), df.height)
    ensures urlColumn !in df.labels && df.height == 0 ==>
              && out.Some?
              && out.value.columns == AssignColumns(df.labels, df.columns, ColumnLabel(ViewCountMetric, date), [])
              && trace == []
    ensures urlColumn !in df.labels && df.height > 0 ==> trace == [Progress(1, df.height)]
  {
    var copy := df.Copy();
    if urlColumn !in copy.labels && copy.height > 0 {
      out, trace := None, [Progress(1, copy.height)];
      return;
    }
    var urls: seq<Cell> := if urlColumn in copy.labels then copy.Column(urlColumn) else [];
    var views, calls;
    views, calls, trace := ViewColumn(urls, meta);
    assert views == Views(urls, Results(meta));
    copy.Assign(ColumnLabel(ViewCountMetric, date), ViewCells(views));
    out := Some(copy);
  }

  // ---- properties of the batches ----

  /** A present row's events, for any extractor events `t`: one progress update and one
      pause. */
  lemma ExtractedRow(head: Event, t: seq<Event>)
    requires head.Progress?
    requires forall j :: 0 <= j < |t| ==> ExtractorEvent(t[j])
    ensures ProgressUpdates([head] + t + [PacingSleep(PacingLow, PacingHigh)]) == [head]
    ensures Occurrences([head] + t + [PacingSleep(PacingLow, PacingHigh)], PacingSleep(PacingLow, PacingHigh)) == 1
  {
    var pace := PacingSleep(PacingLow, PacingHigh);
    assert forall j :: 0 <= j < |t| ==> !t[j].Progress? && t[j] != pace;
    ExtractedRowProgress(head, t, pace);
    OccurrencesAbsent(t, pace);
    WrappedOccurrences(head, t, pace, pace);
  }

  lemma ExtractedRowProgress(head: Event, t: seq<Event>, last: Event)
    requires head.Progress? && !last.Progress?
    requires forall j :: 0 <= j < |t| ==> !t[j].Progress?
    ensures ProgressUpdates([head] + t + [last]) == [head]
  {
    ProgressUpdatesNone(t);
    ProgressUpdatesAppend([head] + t, [last]);
    ProgressUpdatesAppend([head], t);
    assert ProgressUpdates([head]) == [head];
    assert ProgressUpdates([last]) == [];
  }

  lemma WrappedOccurrences(head: Event, t: seq<Event>, last: Event, e: Event)
    ensures Occurrences([head] + t + [last], e)
            == Occurrences([head], e) + Occurrences(t, e) + Occurrences([last], e)
  {
    OccurrencesAppend([head] + t, [last], e);
    OccurrencesAppend([head], t, e);
  }

  /** Row i of the play-count batch: one progress update; one pause for a present URL,
      none for a missing one. */
  lemma SpotifyRowEvents(urls: seq<Cell>, runs: nat -> Run, i: nat)
    requires i < |urls| && ExtractorRun(runs(i))
    ensures ProgressUpdates(SpotifyRow(urls, runs, i)) == [Progress(i + 1, |urls|)]
    ensures Occurrences(SpotifyRow(urls, runs, i), PacingSleep(PacingLow, PacingHigh))
            == if urls[i].NA? then 0 else 1
  {
    var head := Progress(i + 1, |urls|);
    OccurrencesSingleton(head);
    if urls[i].NA? {
      assert SpotifyRow(urls, runs, i) == [head];
      assert ProgressUpdates([head]) == [head];
    } else {
      var t := runs(i).trace;
      ExtractedRow(head, t);
      assert SpotifyRow(urls, runs, i) == [head] + t + [PacingSleep(PacingLow, PacingHigh)];
    }
  }

  /** Row i of the play-count batch makes the rate-limit pauses of the extractor's
      attempts for a present URL, none for a missing one. */
  lemma SpotifyRowRateLimit(urls: seq<Cell>, runs: nat -> Run, i: nat)
    requires i < |urls| && ExtractorRun(runs(i))
    ensures Occurrences(SpotifyRow(urls, runs, i), RateLimitSleep(RateLimit))
            == if urls[i].NA? then 0 else runs(i).attempts
  {
    var head := Progress(i + 1, |urls|);
    OccurrencesSingleton(head);
    if urls[i].NA? {
      assert SpotifyRow(urls, runs, i) == [head];
    } else {
      var t := runs(i).trace;
      WrappedOccurrences(head, t, PacingSleep(PacingLow, PacingHigh), RateLimitSleep(RateLimit));
      OccurrencesSingleton(PacingSleep(PacingLow, PacingHigh));
      assert SpotifyRow(urls, runs, i) == [head] + t + [PacingSleep(PacingLow, PacingHigh)];
    }
  }

  /** The play-count batch updates the progress bar once per row, in row order, to
      (i+1)/n; the extractor's own events contain no progress update. */
  lemma {:induction false} SpotifyProgress(urls: seq<Cell>, runs: nat -> Run, k: nat)
    requires k <= |urls|
    requires forall i :: 0 <= i < k ==> ExtractorRun(runs(i))
    ensures ProgressUpdates(SpotifyRows(urls, runs, k)) == ProgressSeries(|urls|)[..k]
  {
    if k > 0 {
      SpotifyProgress(urls, runs, k - 1);
      SpotifyRowEvents(urls, runs, k - 1);
      ProgressSeriesExtend(SpotifyRows(urls, runs, k - 1), SpotifyRow(urls, runs, k - 1), |urls|, k);
    }
  }

  /** A pause follows every extractor call and no missing-URL row: the play-count batch
      pauses once per present URL. */
  lemma {:induction false} SpotifyPauses(urls: seq<Cell>, runs: nat -> Run, k: nat)
    requires k <= |urls|
    requires forall i :: 0 <= i < k ==> ExtractorRun(runs(i))
    ensures Occurrences(SpotifyRows(urls, runs, k), PacingSleep(PacingLow, PacingHigh)) == PresentRows(urls, k)
  {
    if k > 0 {
      SpotifyPauses(urls, runs, k - 1);
      SpotifyRowEvents(urls, runs, k - 1);
      OccurrencesAppend(SpotifyRows(urls, runs, k - 1), SpotifyRow(urls, runs, k - 1), PacingSleep(PacingLow, PacingHigh));
    }
  }

  /** Total attempts of the extractor over the first k rows (none for a missing URL). */
  function Attempts(urls: seq<Cell>, runs: nat -> Run, k: nat): nat
    requires k <= |urls|
  {
    if k == 0 then 0
    else Attempts(urls, runs, k - 1) + (if urls[k - 1].NA? then 0 else runs(k - 1).attempts)
  }

  /** The play-count batch makes a rate-limit pause for every attempt of every present URL
      and for nothing else. */
  lemma {:induction false} SpotifyRateLimit(urls: seq<Cell>, runs: nat -> Run, k: nat)
    requires k <= |urls|
    requires forall i :: 0 <= i < k ==> ExtractorRun(runs(i))
    ensures Occurrences(SpotifyRows(urls, runs, k), RateLimitSleep(RateLimit)) == Attempts(urls, runs, k)
  {
    if k > 0 {
      SpotifyRateLimit(urls, runs, k - 1);
      SpotifyRowRateLimit(urls, runs, k - 1);
      OccurrencesAppend(SpotifyRows(urls, runs, k - 1), SpotifyRow(urls, runs, k - 1), RateLimitSleep(RateLimit));
    }
  }

  /** The whole play-count batch over the real extractor: progress (i+1)/n for each row in
      order, one pause per present URL, and one rate-limit pause per attempt. */
  lemma SpotifyBatchEvents(urls: seq<Cell>, env: nat -> nat -> PageLoad)
    ensures ProgressUpdates(SpotifyRows(urls, Runs(env), |urls|)) == ProgressSeries(|urls|)
    ensures Occurrences(SpotifyRows(urls, Runs(env), |urls|), PacingSleep(PacingLow, PacingHigh))
            == PresentRows(urls, |urls|)
    ensures Occurrences(SpotifyRows(urls, Runs(env), |urls|), RateLimitSleep(RateLimit))
            == Attempts(urls, Runs(env), |urls|)
  {
    forall i | 0 <= i < |urls|
      ensures ExtractorRun(Runs(env)(i))
    {
      PlayCountRunIsExtractorRun(env(i));
    }
    SpotifyProgress(urls, Runs(env), |urls|);
    assert ProgressSeries(|urls|)[..|urls|] == ProgressSeries(|urls|);
    SpotifyPauses(urls, Runs(env), |urls|);
    SpotifyRateLimit(urls, Runs(env), |urls|);
  }

  /** Progress of a whole play-count batch rises strictly from 1/n and reaches 1 on the
      last row. */
  lemma SpotifyProgressRises(urls: seq<Cell>, env: nat -> nat -> PageLoad)
    ensures var p := ProgressUpdates(SpotifyRows(urls, Runs(env), |urls|));
      && |p| == |urls|
      && (forall i :: 0 <= i < |p| ==> p[i] == Progress(i + 1, |urls|))
      && (forall i, j :: 0 <= i < j < |p| ==> ProgressFraction(p[i]) < ProgressFraction(p[j]))
      && (|p| > 0 ==> ProgressFraction(p[|p| - 1]) == 1.0)
  {
    SpotifyBatchEvents(urls, env);
    ProgressSeriesRises(|urls|);
  }

  /** Row i of the view-count batch: one progress update; for a present URL one pause and
      an error report exactly when the extractor gives no value; nothing else for a
      missing URL. */
  lemma YoutubeRowEvents(urls: seq<Cell>, results: nat -> Option<Decimal>, i: nat)
    requires i < |urls|
    ensures ProgressUpdates(YoutubeRow(urls, results, i)) == [Progress(i + 1, |urls|)]
    ensures Occurrences(YoutubeRow(urls, results, i), PacingSleep(PacingLow, PacingHigh))
            == if urls[i].NA? then 0 else 1
    ensures Occurrences(YoutubeRow(urls, results, i), ViewError)
            == if !urls[i].NA? && results(i).None? then 1 else 0
  {
    var head, pace := Progress(i + 1, |urls|), PacingSleep(PacingLow, PacingHigh);
    OccurrencesSingleton(head);
    OccurrencesSingleton(pace);
    OccurrencesSingleton(ViewError);
    assert ProgressUpdates([head]) == [head];
    if urls[i].NA? {
      assert YoutubeRow(urls, results, i) == [head];
    } else {
      var err: seq<Event> := if results(i).None? then [ViewError] else [];
      assert YoutubeRow(urls, results, i) == [head] + err + [pace];
      ExtractedRowProgress(head, err, pace);
      WrappedOccurrences(head, err, pace, pace);
      WrappedOccurrences(head, err, pace, ViewError);
      OccurrencesSingleton(ViewError);
    }
  }

  /** The view-count batch updates the progress bar in the same way. */
  lemma {:induction false} YoutubeProgress(urls: seq<Cell>, results: nat -> Option<Decimal>, k: nat)
    requires k <= |urls|
    ensures ProgressUpdates(YoutubeRows(urls, results, k)) == ProgressSeries(|urls|)[..k]
  {
    if k > 0 {
      YoutubeProgress(urls, results, k - 1);
      YoutubeRowEvents(urls, results, k - 1);
      ProgressSeriesExtend(YoutubeRows(urls, results, k - 1), YoutubeRow(urls, results, k - 1), |urls|, k);
    }
  }

  /** The view-count batch pauses once per present URL and reports one error per present
      URL for which the extractor gives no value. */
  lemma {:induction false} YoutubePauses(urls: seq<Cell>, results: nat -> Option<Decimal>, k: nat)
    requires k <= |urls|
    ensures Occurrences(YoutubeRows(urls, results, k), PacingSleep(PacingLow, PacingHigh)) == PresentRows(urls, k)
    ensures Occurrences(YoutubeRows(urls, results, k), ViewError) == FailedRows(urls, results, k)
  {
    if k > 0 {
      YoutubePauses(urls, results, k - 1);
      YoutubeRowEvents(urls, results, k - 1);
      OccurrencesAppend(YoutubeRows(urls, results, k - 1), YoutubeRow(urls, results, k - 1), PacingSleep(PacingLow, PacingHigh));
      OccurrencesAppend(YoutubeRows(urls, results, k - 1), YoutubeRow(urls, results, k - 1), ViewError);
    }
  }

  /** Number of present URLs among the first k rows for which the extractor gives no value. */
  function FailedRows(urls: seq<Cell>, results: nat -> Option<Decimal>, k: nat): nat
    requires k <= |urls|
  {
    if k == 0 then 0
    else FailedRows(urls, results, k - 1) + (if !urls[k - 1].NA? && results(k - 1).None? then 1 else 0)
  }
}
