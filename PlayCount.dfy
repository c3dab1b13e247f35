/** The play-count extractor (perp.py:11-51): up to MaxRetries browser attempts, each
    preceded by a fixed rate-limit pause; on a loaded page the XPath selector is tried
    before the CSS selector and the first element found decides the count; a loaded page
    without the element ends the call with 0; only a failure to launch the browser or to
    navigate causes another attempt, after a randomised pause. The call never fails.

    The browser is replaced by `world`: world(i) is what attempt i sees. */
module PlayCount {
  import opened Trace
  import opened Digits

  const MaxRetries: nat := 5
  const RateLimit: nat := 3             // seconds slept before every attempt
  const JitterLow: nat := 2             // bounds of the pause after a failed attempt
  const JitterHigh: nat := 5
  const SelectorTimeoutMs: nat := 10000

  /** Selectors in the order the extractor tries them. */
  const Selectors: seq<Selector> := [XPath, Css]

  /** What waiting for one selector yields: the element's text, or nothing (timeout,
      an exception while waiting, or no element), which moves on to the next selector. */
  datatype SelectorResult = Matched(text: string) | Missed

  /** One attempt as the browser sees it: launch or navigation raised, or the page
      loaded and each selector has its result. */
  datatype PageLoad = Raised | Loaded(xpath: SelectorResult, css: SelectorResult)

  /** The outcome of one call: the play count, the number of attempts made and what was done. */
  datatype Run = Run(count: nat, attempts: nat, trace: seq<Event>)

  /** The count and the events of one attempt whose page loaded. */
  datatype PageOutcome = PageOutcome(count: nat, events: seq<Event>)

  function SelectorResults(p: PageLoad): (rs: seq<SelectorResult>)
    requires p.Loaded?
    ensures |rs| == |Selectors|
  {
    [p.xpath, p.css]
  }

  // ---- selector fallback ----

  /** Index of the first selector that yields an element, if any. */
  function FirstMatch(rs: seq<SelectorResult>): (k: Option<nat>)
    ensures k.Some? ==> k.value < |rs| && rs[k.value].Matched?
                        && forall j :: 0 <= j < k.value ==> rs[j].Missed?
    ensures k.None? ==> forall j :: 0 <= j < |rs| ==> rs[j].Missed?
  {
    if rs == [] then None
    else if rs[0].Matched? then Some(0)
    else match FirstMatch(rs[1..])
      case None => None
      case Some(k) => Some(k + 1)
  }

  /** The inner selector loop (perp.py:30-38): tries the selectors in order and stops at the
      first one that yields an element; `tried` is the number of selectors waited on. */
  method FindElement(rs: seq<SelectorResult>) returns (found: Option<string>, tried: nat)
    ensures tried <= |rs|
    ensures FirstMatch(rs).None? ==> found.None? && tried == |rs|
    ensures FirstMatch(rs).Some? ==>
              tried == FirstMatch(rs).value + 1 && found == Some(rs[tried - 1].text)
  {
    found, tried := None, 0;
    while tried < |rs|
      invariant tried <= |rs|
      invariant forall j :: 0 <= j < tried ==> rs[j].Missed?
    {
      var r := rs[tried];
      tried := tried + 1;
      if r.Matched? {
        found := Some(r.text);
        return;
      }
    }
  }

  function ProbeEvents(sels: seq<Selector>): (t: seq<Event>)
    ensures |t| == |sels|
    ensures forall i :: 0 <= i < |sels| ==> t[i] == Probe(sels[i], SelectorTimeoutMs)
  {
    if sels == [] then [] else [Probe(sels[0], SelectorTimeoutMs)] + ProbeEvents(sels[1..])
  }

  /** A loaded page: the browser is closed on both exits, and the warning is shown exactly
      when no selector yields an element, in which case the count is 0. */
  function LoadedAttempt(p: PageLoad): (r: PageOutcome)
    requires p.Loaded?
    ensures |r.events| >= 2 && r.events[|r.events| - 1] == BrowserClosed
    ensures NotFoundWarning in r.events <==> FirstMatch(SelectorResults(p)).None?
    ensures FirstMatch(SelectorResults(p)).None? ==> r.count == 0
  {
    var rs := SelectorResults(p);
    match FirstMatch(rs)
    case Some(i) =>
      PageOutcome(ParsePlayCount(rs[i].text),
                  [RateLimitSleep(RateLimit)] + ProbeEvents(Selectors[..i + 1]) + [BrowserClosed])
    case None =>
      PageOutcome(0, [RateLimitSleep(RateLimit)] + ProbeEvents(Selectors) + [NotFoundWarning, BrowserClosed])
  }

  /** The events of an attempt whose launch or navigation raised; the error is reported
      only on the last attempt, the pause follows every failed attempt. */
  function RaisedAttempt(attempt: nat): (e: seq<Event>)
    ensures |e| >= 2 && e[0] == RateLimitSleep(RateLimit)
    ensures e[|e| - 1] == JitterSleep(JitterLow, JitterHigh)
    ensures FetchError in e <==> attempt == MaxRetries - 1
  {
    [RateLimitSleep(RateLimit)]
    + (if attempt == MaxRetries - 1 then [FetchError] else [])
    + [JitterSleep(JitterLow, JitterHigh)]
  }

  /** The events of attempts 0 .. k-1, all of which raised. */
  function RaisedAttempts(k: nat): seq<Event> {
    if k == 0 then [] else RaisedAttempts(k - 1) + RaisedAttempt(k - 1)
  }

  /** The first attempt at or after `from` whose page loads, within the retry budget. */
  function FirstLoaded(world: nat -> PageLoad, from: nat): (k: Option<nat>)
    decreases MaxRetries - from
    ensures k.Some? ==> from <= k.value < MaxRetries && world(k.value).Loaded?
                        && forall j :: from <= j < k.value ==> world(j).Raised?
    ensures k.None? ==> forall j :: from <= j < MaxRetries ==> world(j).Raised?
  {
    if from >= MaxRetries then None
    else if world(from).Loaded? then Some(from)
    else FirstLoaded(world, from + 1)
  }

  /** What a call of the extractor does, in closed form: the attempts before the first
      loaded page all raised; the loaded page decides the count; with no loaded page
      within the budget the count is 0 after MaxRetries attempts. */
  function PlayCountRun(world: nat -> PageLoad): (r: Run)
    ensures 1 <= r.attempts <= MaxRetries
  {
    match FirstLoaded(world, 0)
    case None => Run(0, MaxRetries, RaisedAttempts(MaxRetries))
    case Some(k) =>
      var page := LoadedAttempt(world(k));
      Run(page.count, k + 1, RaisedAttempts(k) + page.events)
  }

  /** The body of an attempt after the page loaded (perp.py:29-42): the selector fallback,
      the parse of the element's text, or the not-found warning; the browser is closed on
      both paths. `events` follows the rate-limit pause already recorded for the attempt. */
  method SearchPage(page: PageLoad) returns (count: nat, events: seq<Event>)
    requires page.Loaded?
    ensures PageOutcome(count, [RateLimitSleep(RateLimit)] + events) == LoadedAttempt(page)
  {
    var found, tried := FindElement(SelectorResults(page));
    events := ProbeEvents(Selectors[..tried]);
    if found.Some? {
      events := events + [BrowserClosed];
      count := ParsePlayCount(found.value);
    } else {
      assert Selectors[..tried] == Selectors;
      events := events + [NotFoundWarning, BrowserClosed];
      count := 0;
    }
  }

  /** The extractor itself (perp.py:17-51): the attempt loop with its early returns. */
  method GetSpotifyData(world: nat -> PageLoad) returns (count: nat, attempts: nat, trace: seq<Event>)
    ensures Run(count, attempts, trace) == PlayCountRun(world)
  {
    trace := [];
    attempts := 0;
    for attempt := 0 to MaxRetries
      invariant attempts == attempt
      invariant forall j :: 0 <= j < attempt ==> world(j).Raised?
      invariant trace == RaisedAttempts(attempt)
    {
      trace := trace + [RateLimitSleep(RateLimit)];
      attempts := attempts + 1;
      var page := world(attempt);
      if page.Loaded? {
        FirstLoadedIs(world, attempt);
        var events;
        count, events := SearchPage(page);
        trace := trace + events;
        return;
      }
      if attempt == MaxRetries - 1 {
        trace := trace + [FetchError];
      }
      trace := trace + [JitterSleep(JitterLow, JitterHigh)];
    }
    assert FirstLoaded(world, 0).None?;
    count := 0;
  }

  // ---- properties of the extractor ----

  /** Launch or navigation failed k times, then the page loaded with the element found:
      the parsed count is returned after exactly k+1 attempts. */
  lemma RetryThenSuccess(world: nat -> PageLoad, k: nat, i: nat)
    requires k < MaxRetries
    requires forall j :: 0 <= j < k ==> world(j).Raised?
    requires world(k).Loaded? && FirstMatch(SelectorResults(world(k))) == Some(i)
    ensures PlayCountRun(world).attempts == k + 1
    ensures PlayCountRun(world).count == ParsePlayCount(SelectorResults(world(k))[i].text)
  {
    FirstLoadedIs(world, k);
  }

  /** A loaded page without the element is terminal: 0 after no further attempt. */
  lemma NotFoundIsTerminal(world: nat -> PageLoad, k: nat)
    requires k < MaxRetries
    requires forall j :: 0 <= j < k ==> world(j).Raised?
    requires world(k) == Loaded(Missed, Missed)
    ensures PlayCountRun(world).attempts == k + 1
    ensures PlayCountRun(world).count == 0
    ensures PlayCountRun(world).trace == RaisedAttempts(k) +
      [RateLimitSleep(RateLimit), Probe(XPath, SelectorTimeoutMs), Probe(Css, SelectorTimeoutMs),
       NotFoundWarning, BrowserClosed]
  {
    FirstLoadedIs(world, k);
  }

  lemma {:induction false} FirstLoadedIs(world: nat -> PageLoad, k: nat)
    requires k < MaxRetries
    requires forall j :: 0 <= j < k ==> world(j).Raised?
    requires world(k).Loaded?
    ensures FirstLoaded(world, 0) == Some(k)
  {
  }

  /** Every attempt raises: exactly MaxRetries attempts, a pause after each of them
      including the last, one error report, and the count 0. */
  lemma AllAttemptsRaise(world: nat -> PageLoad)
    requires forall j :: 0 <= j < MaxRetries ==> world(j).Raised?
    ensures PlayCountRun(world).count == 0
    ensures PlayCountRun(world).attempts == MaxRetries
    ensures Occurrences(PlayCountRun(world).trace, JitterSleep(JitterLow, JitterHigh)) == MaxRetries
    ensures Occurrences(PlayCountRun(world).trace, FetchError) == 1
    ensures var t := PlayCountRun(world).trace; |t| > 0 && t[|t| - 1] == JitterSleep(JitterLow, JitterHigh)
  {
    RaisedAttemptsCounts(MaxRetries);
  }

  lemma {:induction false} RaisedAttemptsCounts(k: nat)
    requires k <= MaxRetries
    ensures Occurrences(RaisedAttempts(k), RateLimitSleep(RateLimit)) == k
    ensures Occurrences(RaisedAttempts(k), JitterSleep(JitterLow, JitterHigh)) == k
    ensures Occurrences(RaisedAttempts(k), FetchError) == if k == MaxRetries then 1 else 0
    ensures k > 0 ==> |RaisedAttempts(k)| > 0
                      && RaisedAttempts(k)[0] == RateLimitSleep(RateLimit)
                      && RaisedAttempts(k)[|RaisedAttempts(k)| - 1] == JitterSleep(JitterLow, JitterHigh)
  {
    if k > 0 {
      RaisedAttemptsCounts(k - 1);
      var a := RaisedAttempt(k - 1);
      RaisedAttemptCounts(k - 1);
      OccurrencesAppend(RaisedAttempts(k - 1), a, RateLimitSleep(RateLimit));
      OccurrencesAppend(RaisedAttempts(k - 1), a, JitterSleep(JitterLow, JitterHigh));
      OccurrencesAppend(RaisedAttempts(k - 1), a, FetchError);
    }
  }

  lemma RaisedAttemptCounts(attempt: nat)
    ensures Occurrences(RaisedAttempt(attempt), RateLimitSleep(RateLimit)) == 1
    ensures Occurrences(RaisedAttempt(attempt), JitterSleep(JitterLow, JitterHigh)) == 1
    ensures Occurrences(RaisedAttempt(attempt), FetchError) == if attempt == MaxRetries - 1 then 1 else 0
  {
    var sleep, pause := [RateLimitSleep(RateLimit)], [JitterSleep(JitterLow, JitterHigh)];
    var mid: seq<Event> := if attempt == MaxRetries - 1 then [FetchError] else [];
    forall e | e in {RateLimitSleep(RateLimit), JitterSleep(JitterLow, JitterHigh), FetchError}
      ensures Occurrences(RaisedAttempt(attempt), e)
              == Occurrences(sleep, e) + Occurrences(mid, e) + Occurrences(pause, e)
    {
      OccurrencesAppend(sleep, mid, e);
      OccurrencesAppend(sleep + mid, pause, e);
    }
    OccurrencesSingleton(RateLimitSleep(RateLimit));
    OccurrencesSingleton(JitterSleep(JitterLow, JitterHigh));
    OccurrencesSingleton(FetchError);
  }

  /** The rate-limit pause precedes every attempt, the first included: there is one per
      attempt and the trace starts with one; and a jitter pause follows every failed attempt. */
  lemma RateLimitBeforeEveryAttempt(world: nat -> PageLoad)
    ensures var r := PlayCountRun(world);
      && |r.trace| > 0 && r.trace[0] == RateLimitSleep(RateLimit)
      && Occurrences(r.trace, RateLimitSleep(RateLimit)) == r.attempts
      && Occurrences(r.trace, JitterSleep(JitterLow, JitterHigh))
         == if FirstLoaded(world, 0).Some? then r.attempts - 1 else r.attempts
  {
    match FirstLoaded(world, 0)
    case None =>
      RaisedAttemptsCounts(MaxRetries);
    case Some(k) =>
      RaisedAttemptsCounts(k);
      var events := LoadedAttempt(world(k)).events;
      LoadedAttemptCounts(world(k));
      OccurrencesAppend(RaisedAttempts(k), events, RateLimitSleep(RateLimit));
      OccurrencesAppend(RaisedAttempts(k), events, JitterSleep(JitterLow, JitterHigh));
  }

  lemma LoadedAttemptCounts(p: PageLoad)
    requires p.Loaded?
    ensures var t := LoadedAttempt(p).events;
      && |t| > 0 && t[0] == RateLimitSleep(RateLimit)
      && Occurrences(t, RateLimitSleep(RateLimit)) == 1
      && Occurrences(t, JitterSleep(JitterLow, JitterHigh)) == 0
  {
    var t := LoadedAttempt(p).events;
    var probes := if FirstMatch(SelectorResults(p)).Some?
                  then ProbeEvents(Selectors[..FirstMatch(SelectorResults(p)).value + 1])
                  else ProbeEvents(Selectors);
    var tail := if FirstMatch(SelectorResults(p)).Some? then [BrowserClosed]
                else [NotFoundWarning, BrowserClosed];
    assert t == [RateLimitSleep(RateLimit)] + (probes + tail);
    NoSleepsIn(probes + tail);
    OccurrencesAppend([RateLimitSleep(RateLimit)], probes + tail, RateLimitSleep(RateLimit));
    OccurrencesAppend([RateLimitSleep(RateLimit)], probes + tail, JitterSleep(JitterLow, JitterHigh));
  }

  lemma {:induction false} NoSleepsIn(t: seq<Event>)
    requires forall i :: 0 <= i < |t| ==> t[i].Probe? || t[i] == BrowserClosed || t[i] == NotFoundWarning
    ensures Occurrences(t, RateLimitSleep(RateLimit)) == 0
    ensures Occurrences(t, JitterSleep(JitterLow, JitterHigh)) == 0
  {
    if t != [] {
      NoSleepsIn(t[1..]);
    }
  }

  /** On a loaded page the CSS selector is waited on only after the XPath selector, and the
      result of the first selector that yields an element is the one parsed. */
  lemma XPathBeforeCss(p: PageLoad)
    requires p.Loaded?
    ensures var t := LoadedAttempt(p).events;
      && t[1] == Probe(XPath, SelectorTimeoutMs)
      && (forall i :: 0 <= i < |t| && t[i] == Probe(Css, SelectorTimeoutMs) ==> i == 2)
    ensures p.xpath.Matched? ==> LoadedAttempt(p).count == ParsePlayCount(p.xpath.text)
    ensures p.xpath.Missed? && p.css.Matched? ==> LoadedAttempt(p).count == ParsePlayCount(p.css.text)
    ensures p.xpath.Missed? && p.css.Missed? ==> LoadedAttempt(p).count == 0
  {
    var rs := SelectorResults(p);
    assert rs[1..] == [p.css];
    if p.xpath.Missed? && p.css.Matched? {
      assert FirstMatch(rs[1..]) == Some(0);
    }
  }

  /** The kinds of event a call of the extractor produces; none of them is a progress
      update or a batch pause. */
  predicate ExtractorEvent(e: Event) {
    e.RateLimitSleep? || e.Probe? || e == BrowserClosed || e == NotFoundWarning
    || e == FetchError || e.JitterSleep?
  }

  lemma {:induction false} RaisedAttemptsEvents(k: nat)
    ensures forall i :: 0 <= i < |RaisedAttempts(k)| ==> ExtractorEvent(RaisedAttempts(k)[i])
  {
    if k > 0 {
      RaisedAttemptsEvents(k - 1);
    }
  }

  lemma RunEvents(world: nat -> PageLoad)
    ensures forall i :: 0 <= i < |PlayCountRun(world).trace| ==> ExtractorEvent(PlayCountRun(world).trace[i])
  {
    match FirstLoaded(world, 0)
    case None => RaisedAttemptsEvents(MaxRetries);
    case Some(k) => RaisedAttemptsEvents(k);
  }

  /** What a batch relies on about one call of the extractor: its trace holds only
      extractor events and one rate-limit pause per attempt. */
  predicate ExtractorRun(r: Run) {
    && (forall i :: 0 <= i < |r.trace| ==> ExtractorEvent(r.trace[i]))
    && Occurrences(r.trace, RateLimitSleep(RateLimit)) == r.attempts
  }

  lemma PlayCountRunIsExtractorRun(world: nat -> PageLoad)
    ensures ExtractorRun(PlayCountRun(world))
  {
    RunEvents(world);
    RateLimitBeforeEveryAttempt(world);
  }
}
