# PtrackeR metric extraction, modelled in Dafny

PtrackeR is a dashboard that reads a spreadsheet of Spotify track URLs and YouTube video
URLs. For every row it fetches one public metric: the play count that a headless browser
reads off the Spotify page, or the view count that the YouTube metadata service reports.
It then stores the results as a new column headed with the day's date. This project
models that extraction core of `perp.py`, together with the two batch processors that
drive it, and proves properties of the model.

- `Trace.dfy` (module `Trace`) records the engine's effects as a list of events instead
  of performing them. The events are sleeps (with their bounds), selector probes, the
  browser teardown, the warning and error messages, and the progress-bar updates.
  It also holds the value types shared by the other modules: `Option`, and `Decimal`,
  the exact decimal number a view count is stored as.
- `Digits.dfy` (module `Digits`) is the play-count text parse. It keeps the digit
  characters in order and reads them as a decimal integer. Text without digits reads
  as 0.
- `PlayCount.dfy` (module `PlayCount`) is `get_spotify_data`. It makes up to
  `MaxRetries` (5) attempts, with a fixed `RateLimit` (3 s) pause before each.
  - On a loaded page the XPath selector is tried before the CSS selector.
  - A loaded page without the element ends the call with 0.
  - An exception raised outside the selector loop leads to another attempt, after a
    randomised 2–5 s pause. The model has one such outcome, `Raised`, for an attempt
    whose browser start, launch, context, page or navigation fails. The error is
    reported on the last attempt only.

  The retry loop is the method `GetSpotifyData`, proved equal to the closed-form run
  `PlayCountRun`. The selector loop is the method `FindElement`, proved against
  `FirstMatch`.
- `ViewCount.dfy` (module `ViewCount`) is `get_youtube_views`. It reads the `view_count`
  field (0 when the field is missing). It scales the count to millions and rounds to one
  decimal place at or above 1,000,000 views, two below. A failed query or a null count
  gives no value.
- `Frames.dfy` (module `Frames`) is the part of a pandas DataFrame the batches use. It is
  a class whose fields are the labels, the columns and the height, with `Copy`, `Column`
  and `Assign`. `Assign` overwrites a column of the same name or appends a new one.
- `Batch.dfy` (module `Batch`) holds `process_spotify_data` and `process_youtube_data`.
  Each walks the rows in order and sets the progress bar to (i+1)/n. A missing URL gets
  a placeholder without an extractor call (0 for Spotify, no value for YouTube). A
  present URL gets the extractor's result followed by a 1–3 s pause. The batch then
  assigns the dated column on a copy of the frame. The row loops are methods proved
  against the functions `PlayCounts`/`SpotifyRows` and `Views`/`YoutubeRows`. Those
  functions are stated over the extractors' per-row outcomes, `Runs(env)` and
  `Results(meta)`.

The outside world is passed in as values:
- `world(i)`: what browser attempt `i` sees.
- `env(r)`: the browser world for the URL of row `r`.
- `meta(r)`: the metadata service's answer for the URL of row `r`.
- `date`: the day's date.

In these places the code behaves differently from what the dashboard's purpose might
suggest, and the model follows the code:
- Counts at or above one million are rounded to one decimal place of millions, not to
  whole millions.
- Element text without digits gives 0, not "not found".
- A missing Spotify URL gets the placeholder 0, not an empty cell.
- A second run on the same day overwrites that day's column instead of adding another
  (`AssignTwiceOverwrites`).
- A URL column missing from the frame differs between the two batches.
  - The play-count batch catches the error. It reports it and returns the copy without
    a new column.
  - The view-count batch lets the error escape, which the model gives as `None`.
  - With no rows, neither batch touches the column, so neither fails.

## Model

| member | source | states |
|---|---|---|
| `Digits.DigitsOf` | perp.py:34 | the filtered text consists of digits only and is no longer than the element text |
| `Digits.DigitsOfAppend` | perp.py:34 | filtering text made of two parts gives the filtered first part followed by the filtered second part (order is kept) |
| `Digits.DigitsOfKeepsExactlyDigits` | perp.py:34 | a character is in the filtered text if and only if it is in the element text and is a digit |
| `Digits.DigitsOfEmptyIff` | perp.py:34-36 | the filtered text is empty exactly when the element text has no digit |
| `Digits.NumberOf` | perp.py:36 | a digit string of length k denotes a number below 10^k |
| `Digits.NumberOfAppend` | perp.py:36 | the integer of two digit strings joined is the first one's value shifted left by the second one's length, plus the second one's value |
| `Digits.NumberOfDecimalString` | perp.py:36 | reading the decimal rendering of n gives back n |
| `Digits.LeadingZeroIgnored` | perp.py:36 | a leading zero does not change the parsed value |
| `Digits.ParsePlayCountRoundTrip` | perp.py:34-36 | a rendered count between any digit-free prefix and suffix parses back to that count |
| `Digits.NoDigitsParsesToZero` | perp.py:36 | text without any digit parses to 0 |
| `Digits.ParsePlayCount` | perp.py:34-36 | the parsed count has no more decimal digits than the element text has digit characters, so text without digits gives 0 (with `NoDigitsParsesToZero` and `ParsePlayCountRoundTrip`) |
| `Digits.SeparatorDropped` | perp.py:34 | a digit-free separator after any text and before a group of digits is dropped, and the group is kept whole |
| `Digits.SeparatedCountExample` | perp.py:34-36 | "1,234,567 plays" parses to 1234567 |
| `PlayCount.FirstMatch` | perp.py:30-38 | the chosen selector yields an element and every earlier one does not; no choice means no selector yields one |
| `PlayCount.FindElement` | perp.py:30-38 | the selector loop stops at the first selector that yields an element and returns its text, having waited on that many selectors; otherwise it waits on all and finds nothing |
| `PlayCount.ProbeEvents` | perp.py:30-32 | one wait of 10000 ms per selector tried, in the order tried |
| `PlayCount.FirstLoaded` | perp.py:20-47 | the first attempt whose page loads lies within the retry budget and all attempts before it raised; without one, every attempt raised |
| `PlayCount.PlayCountRun` | perp.py:17-51 | a call makes between 1 and MaxRetries attempts |
| `PlayCount.SearchPage` | perp.py:29-42 | the loaded-page part of an attempt has the count and events of the closed-form attempt |
| `PlayCount.LoadedAttempt` | perp.py:29-42 | on a loaded page the browser teardown is the last event on both exits; the not-found warning is shown exactly when no selector yields an element, and then the count is 0 |
| `PlayCount.RaisedAttempt` | perp.py:22-47 | a raised attempt starts with the rate-limit pause and ends with the randomised pause, and it reports the error exactly when it is the last attempt |
| `PlayCount.GetSpotifyData` | perp.py:17-51 | the attempt loop returns the count, attempt number and trace of the closed-form run |
| `PlayCount.RetryThenSuccess` | perp.py:20-36 | k raised attempts are followed by a success: exactly k+1 attempts, and the count parsed from the first matching selector |
| `PlayCount.NotFoundIsTerminal` | perp.py:40-42 | a loaded page without the element ends the call: count 0, no further attempt, both selectors probed, then the warning and the browser teardown |
| `PlayCount.FirstLoadedIs` | perp.py:20-27 | after k raised attempts, a page that loads is the first loaded one |
| `PlayCount.AllAttemptsRaise` | perp.py:44-48 | when every attempt raises: count 0 after MaxRetries attempts, a randomised pause after each of them with the last event a pause, and exactly one error report |
| `PlayCount.RaisedAttemptsCounts` | perp.py:20-47 | k raised attempts make k rate-limit pauses and k randomised pauses, and they report the error only if they include the last attempt |
| `PlayCount.RaisedAttemptCounts` | perp.py:20-47 | one raised attempt makes one rate-limit pause and one randomised pause, and it reports the error only if it is the last attempt |
| `PlayCount.LoadedAttemptCounts` | perp.py:22-42 | an attempt whose page loads starts with the rate-limit pause, has exactly one of them and has no randomised pause |
| `PlayCount.RateLimitBeforeEveryAttempt` | perp.py:20-22 | every trace starts with the rate-limit pause and has one per attempt; there is one randomised pause per failed attempt |
| `PlayCount.XPathBeforeCss` | perp.py:30-38 | the XPath selector is waited on first and the CSS selector only second; the first selector that yields an element decides the count, and without one the count is 0 |
| `PlayCount.RunEvents` | perp.py:17-51 | a call produces only extractor events: no progress update and no batch pause |
| `PlayCount.PlayCountRunIsExtractorRun` | perp.py:17-51 | every call's trace has only extractor events and one rate-limit pause per attempt |
| `ViewCount.RoundHalfEvenDiv` | perp.py:104-106 | the quotient is within half a unit of a/b, and a tie goes to the even neighbour |
| `ViewCount.Places` | perp.py:103-106 | one decimal place exactly when the count is at least 1,000,000, two otherwise |
| `ViewCount.RoundMillions` | perp.py:103-106 | the result has the requested decimal places and is the nearest such decimal to count/10^6 (ties to even) |
| `ViewCount.GetYoutubeViews` | perp.py:92-109 | no value exactly when the query fails or the count is null; a missing count gives 0.00; otherwise 1 decimal place at or above 1,000,000 views and 2 below, nearest to the count in millions |
| `ViewCount.NearestIsUnique` | perp.py:104-106 | the rounding contract leaves no choice: two nearest decimals with the same places are equal |
| `ViewCount.Examples` | perp.py:102-106 | 2,500,000 views give 2.5; 1,250,000 give 1.2; 999,999 give 1.00; 500,000 give 0.50; a missing count gives 0.00; a null count gives no value |
| `Frames.AssignColumnSpec` | perp.py:82 | assigning a column keeps the frame well formed, makes the new values that label's column, leaves every other column in place and unchanged, and appends a new label at the end |
| `Frames.AssignTwiceOverwrites` | perp.py:82 | assigning the same label twice leaves only the second column, so a same-day rerun replaces its column |
| `Frames.DataFrame.Copy` | perp.py:55 | a fresh frame with the same labels, columns and height |
| `Frames.DataFrame.Column` | perp.py:69 | a column has one cell per row |
| `Frames.DataFrame.Assign` | perp.py:82 | the frame's new labels and columns are those of the column assignment, and the label now reads back the assigned values |
| `Batch.ColumnLabel` | perp.py:82 | the dated column label (here and at perp.py:142) is the metric name, " (", the date and ")"; the metric and the date can both be read back from it |
| `Batch.DatedLabels` | perp.py:82 | the same day gives the same column label and different days different ones; a play-count label never equals a view-count label |
| `Batch.SpotifyRowStep` | perp.py:64-79 | one row: placeholder 0 without a call for a missing URL, otherwise the extractor's count; the events are the row's progress update, the extractor's trace and the pause |
| `Batch.PlayCountColumn` | perp.py:62-79 | the column has one count per row, 0 for a missing URL and the extractor's count otherwise; the extractor is called once per present URL; the trace is the rows' events in order |
| `Batch.ProcessSpotifyData` | perp.py:53-90 | the result is a fresh, valid copy. With the URL column present, the dated column of counts is assigned. With it missing and rows present, the copy is unchanged after one progress update and the error report. With no rows, an empty dated column is assigned |
| `Batch.YoutubeRowStep` | perp.py:122-139 | one row: no value without a call for a missing URL, otherwise the extractor's result, with an error report when there is no value and a pause in both cases |
| `Batch.ViewColumn` | perp.py:120-139 | the column has one result per row, no value for a missing URL and the extractor's result otherwise; one call per present URL; the trace is the rows' events in order |
| `Batch.ProcessYoutubeData` | perp.py:111-147 | the result exists exactly when the URL column is present or there are no rows; it is then a fresh copy with the dated column of views. A missing column with rows present ends after the first progress update |
| `Batch.ExtractedRow` | perp.py:64-79 | a present row's events hold exactly one progress update and exactly one batch pause, whatever the extractor did |
| `Batch.SpotifyRowEvents` | perp.py:64-79 | every play-count row makes one progress update, (i+1)/n, and makes a pause exactly when its URL is present |
| `Batch.SpotifyRowRateLimit` | perp.py:69-79 | a present row makes one rate-limit pause per extractor attempt and a missing row makes none |
| `Batch.SpotifyProgress` | perp.py:64-67 | the first k rows' progress updates are 1/n, 2/n, …, k/n, in order |
| `Batch.SpotifyPauses` | perp.py:70-79 | the pauses of the first k rows equal the present URLs among them |
| `Batch.SpotifyRateLimit` | perp.py:69-79 | the rate-limit pauses of the first k rows equal the extractor attempts of their present URLs |
| `Batch.SpotifyBatchEvents` | perp.py:62-79 | a whole play-count batch: progress (i+1)/n for each row in order, one pause per present URL, one rate-limit pause per attempt |
| `Batch.SpotifyProgressRises` | perp.py:65-66 | the play-count progress bar rises strictly, one update per row, and reaches 1 on the last row |
| `Batch.YoutubeRowEvents` | perp.py:122-139 | every view-count row makes one progress update and, when its URL is present, one pause and an error report exactly when there is no value |
| `Batch.YoutubeProgress` | perp.py:122-125 | the view-count progress updates are 1/n, 2/n, …, in row order |
| `Batch.YoutubePauses` | perp.py:127-139 | the view-count batch pauses once per present URL and reports one error per present URL without a value |
| `Trace.ProgressSeriesRises` | perp.py:65-66 | the values (i+1)/n rise strictly, stay within (0, 1] and end at 1 |

## Left out

- The Streamlit interface is not modelled: upload, buttons, session state, downloads, and the message and status texts. Only the fact that a warning or error is shown is recorded.
- Excel reading and writing are not modelled; the frame is given as labels, columns and a height.
- The browser (Playwright) and the metadata service (yt-dlp) are replaced by the values `world`/`env` and `meta`. The URL text is therefore not used, and the wait-for-network-idle timeout of 60 s is not modelled.
- Real sleeping and random numbers are not modelled; each pause is an event that carries its bounds.
- `datetime.now()` is not modelled; the date is a parameter.
- ViewCount.GetYoutubeViews: it rounds the exact quotient half to even. Python's `round` works on the binary float nearest to the quotient, so the two can differ on ties. For example, 1,050,000 views give 1.0 here. Python gives 1.1, because the float nearest to 1.05 lies slightly above it.
- Digits.DigitsOf: it keeps only ASCII digits, while Python's `str.isdigit` accepts more. Other Unicode decimal digits, such as the Arabic-Indic "٣٤", are kept and parsed by `int()` in the program (34 for "٣٤ plays"); the model drops them (0 there). Characters that pass `isdigit` but are not decimal digits, such as superscripts or circled digits, make `int()` raise after `browser.close()`. The next selector is then waited on in a closed browser and cannot match, so the call ends on the not-found exit with the warning and 0. The model does not produce that exit for such text.
- Digits.NumberOf: it reads a digit string of any length. Python 3.11 and later refuse to convert a digit string longer than 4300 characters, and `int()` then raises; such text would fall through to the next selector as above.
- Exceptions from `inner_text`, or from `browser.close()` after a match, are folded into the selector outcome `Missed` or not modelled at all.
- An exception from `st.warning` or `browser.close()` on the not-found exit (perp.py:40-41) would be caught by the attempt's `except` and lead to another attempt. `PageLoad` cannot express this, so the model always ends the call there with 0.
- The outer `except` at perp.py:49-51 is not modelled; no modelled step raises there.
- The `except` at perp.py:135-137 is not modelled. `get_youtube_views` catches every exception itself, and both paths record no value.
- The frame's index is taken to be 0..n-1. The progress value uses the index, so a different index would change the bar and could make it raise.
- Duplicate column labels are excluded by `Frames.DataFrame.Valid`.
- The type of a present URL cell is not inspected; every non-missing cell is given to the extractor.
- `progress_bar.empty()` and `status_text.empty()` in the `finally` blocks are not modelled.
