# YouTube Channel Tracker: trend and delta engine

A Dafny model of the computational core of the tracker's dashboard
(`src/interactive_graph.py`). The tracker stores, per channel, a time series of
samples (timestamp, subscriber count, view count, video count) as four parallel
lists. The dashboard:

- narrows the series to a display period ("all time", "last 7/30/90 days")
  with an inclusive cutoff of *now minus N days*;
- computes, for each of the three metrics, the day-over-day change (the latest
  sample against the one 1 position back) and the week-over-week change
  (7 positions back), each with a percentage rate; too little history gives
  an absent value, never zero, and a zero baseline gives rate 0;
- formats a change as a signed string with thousands separators, or a
  sentinel (`データ不足`, "not enough data") when it is absent.

Files:

- `option.dfy` (`Optional`): `Option`, for Python's `X | None`.
- `channel_data.dfy` (`ChannelSeries`): `ChannelData` (four parallel `seq`s),
  the alignment predicate, a row view (`Sample`, `Rows`) and the `Metric` keys.
- `period_filter.dfy` (`PeriodFilter`): the label table, the filter loop as a
  method proved against the specification function `Filtered`, and lemmas on
  `Filtered`.
- `change_engine.dfy` (`ChangeEngine`): `ChangeMetrics`, the exact rate, the
  reference functions `ChangeOver`/`RateOver`, the two methods, and lemmas.
- `change_format.dfy` (`ChangeFormat`): integer formatting with thousands
  separators, with its parse-back round trip, and `FormatChange`.

Modelling decisions:

- An instant is an `int` counting microseconds, the resolution of a naive
  Python `datetime`; `timedelta(days=d)` is `d * 86_400_000_000`. The wall
  clock `datetime.now()` is the parameter `now`.
- `ChannelData` and `ChangeMetrics` are values (datatypes). The filter builds
  a fresh series by appending to four lists; the model appends to four local
  sequences in a loop and builds the value at the end. `calculate_metric_change`
  updates the fields of a fresh `ChangeMetrics`; the model updates a local
  value field by field. Values are immutable, so the input series is never
  modified.
- The rate is an exact `real`: `change / previous * 100` when the baseline is
  non-zero, `0` otherwise.
- Python's negative indexing (`values[-1]`, `values[-(offset + 1)]`) is
  modelled by `PyIndex`; the contract of `ChangeOver` ties it to the
  direct indices `len - 1` and `len - 1 - offset`.
- The dictionary returned by `calculate_changes` is a `map<string, ChangeMetrics>`
  keyed by the attribute names `subscriber_count`, `view_count`, `video_count`.
- Stated as an assumption of the surrounding dashboard code, not modelled: the
  deltas are computed on the unfiltered series (`raw_data`), not on the
  period-filtered one (`src/interactive_graph.py:290`, `:299`), so the display
  period never changes the reported deltas.

Behaviour of `src/interactive_graph.py` worth noting:

- The period filter knows only the labels of its table (lines 86-90); any
  other label means 0 days and returns the whole series (lines 92-94).
- The filter keeps every sample at or after the cutoff wherever it stands in
  the list (lines 100-101), and checks no ordering. On a chronological series
  the kept samples are therefore the contiguous suffix from the first recent
  one (`FilteredChronologicalIsSuffix`).
- One call of `calculate_metric_change` fills either the daily or the weekly
  pair, chosen by `offset == 1` (lines 131-136); `calculate_changes` merges the
  daily pair of the offset-1 call with the weekly pair of the offset-7 call
  (lines 155-163).
- The guard `len(values) <= offset` (line 122) means the weekly comparison
  needs at least 8 samples.

## Model

| member | source | states |
|---|---|---|
| `PeriodFilter.PeriodDays` | src/interactive_graph.py:86-92 | the three labels give 7, 30 and 90 days; exactly the labels outside the table give 0 |
| `PeriodFilter.Cutoff` | src/interactive_graph.py:96 | the cutoff lies exactly the given number of whole days before now |
| `PeriodFilter.KeptIndices` | src/interactive_graph.py:100-101 | the positions the loop keeps are below n, have a timestamp at or after the cutoff, and are strictly increasing (original order) |
| `PeriodFilter.KeptIndicesComplete` | src/interactive_graph.py:100-101 | a position is kept if and only if its timestamp is at or after the cutoff, so a sample exactly at the cutoff is kept and every dropped sample is older |
| `PeriodFilter.KeptIndicesNone` | src/interactive_graph.py:100-101 | when every sample is older than the cutoff, nothing is kept |
| `PeriodFilter.KeptIndicesSplit` | src/interactive_graph.py:100-101 | when the older samples are exactly those below j, the kept positions are exactly j..n-1 |
| `PeriodFilter.Filtered` | src/interactive_graph.py:96-107 | the filtered series has four lists of equal length and every kept timestamp is at or after the cutoff |
| `PeriodFilter.FilterDataByPeriod` | src/interactive_graph.py:72-107 | the all-time label, an unknown label (the two tests of lines 82 and 92-93, together the predicate `PeriodFilter.Unrestricted`) or an empty series return the input itself; otherwise the loop's result equals `Filtered` at cutoff now minus the period's days |
| `PeriodFilter.FilteredRows` | src/interactive_graph.py:100-105 | the four output lists stay aligned: read row by row, the output is the list of input samples (all four fields from the same input index) whose timestamp is recent enough, in input order |
| `PeriodFilter.FilteredSplit` | src/interactive_graph.py:96-105 | when the older samples are exactly those below j, the filtered series is the suffix from j of all four lists |
| `PeriodFilter.FilteredIdempotent` | src/interactive_graph.py:98-107 | filtering twice with the same cutoff gives the result of filtering once |
| `PeriodFilter.FilteredChronologicalIsSuffix` | src/interactive_graph.py:96-105 | on a chronological series the result is the contiguous suffix starting at the first sample at or after the cutoff |
| `PeriodFilter.FilteredAllOlderIsEmpty` | src/interactive_graph.py:96-107 | when all samples are older than the cutoff, the filtered series is empty (no data in the period) |
| `PeriodFilter.TenDailySamplesLastWeek` | src/interactive_graph.py:85-105 | ten daily samples ending now, last 7 days: the result is the last 8 samples (index 2 on), all four fields, boundary inclusive |
| `PeriodFilter.FirstRecent` | src/interactive_graph.py:100-101 | the first position from lo whose timestamp is at or after the cutoff: everything before it is older |
| `ChangeEngine.Rate` | src/interactive_graph.py:129 | a zero baseline gives rate 0; otherwise rate times baseline equals 100 times the change |
| `ChangeEngine.CalculateMetricChange` | src/interactive_graph.py:110-138 | with no more than offset values every field is absent; otherwise offset 1 fills only the daily pair and any other offset only the weekly pair, with the change and rate between the last value and the one offset back |
| `ChangeEngine.CalculateChanges` | src/interactive_graph.py:141-165 | exactly the three metric keys of line 152 (`ChannelSeries.Metric.Key`) are present; each holds the daily fields of that metric's offset-1 comparison and the weekly fields of its offset-7 comparison, from its own list, fetched by `getattr` at line 153 (`ChannelSeries.Values`) |
| `ChangeEngine.PyIndex` | src/interactive_graph.py:125-126 | Python's index k, negative counting from the end, is position k modulo the length |
| `ChangeEngine.ChangeOver` | src/interactive_graph.py:122-128 | absent if and only if the list has no more than offset values; otherwise `values[-1] - values[-(offset + 1)]` under Python's negative indexing |
| `ChangeEngine.RateOver` | src/interactive_graph.py:122-129 | absent if and only if the list has no more than offset values; rate 0 for a zero baseline whatever the change; otherwise rate times baseline equals 100 times the change |
| `ChangeEngine.DailyAndWeekly` | src/interactive_graph.py:152-163 | the daily fields are present exactly with at least 2 samples and the weekly fields exactly with at least 8 |
| `ChangeEngine.RateSignAgrees` | src/interactive_graph.py:129 | on non-negative counts the rate is non-negative exactly when the change is, so one sign prefix fits both |
| `ChangeEngine.DailyExample` | src/interactive_graph.py:125-133 | 100 then 110 gives a change of 10 and a rate of 10 percent |
| `ChangeEngine.ZeroBaselineExample` | src/interactive_graph.py:125-133 | 0 then 5 gives a change of 5 and a rate of 0 |
| `ChangeEngine.FiveSamplesNoWeekly` | src/interactive_graph.py:155-163 | with five samples the weekly fields are absent while the daily change is present |
| `ChangeFormat.Digits` | src/interactive_graph.py:182 | the decimal digits of a natural number: at least one digit, no leading zero |
| `ChangeFormat.DigitsRoundTrip` | src/interactive_graph.py:182 | reading the digits back gives the number |
| `ChangeFormat.Grouped` | src/interactive_graph.py:182 | the grouped text has one comma per full group of three after the first group, keeps the first digit, and its length is never a multiple of four (the first group has one to three digits) |
| `ChangeFormat.GroupedCanonical` | src/interactive_graph.py:182 | grouping digits without a leading zero gives the canonical text: commas exactly every four from the end, digits elsewhere, a first group of one to three digits, no leading zero |
| `ChangeFormat.GroupedRoundTrip` | src/interactive_graph.py:182 | removing the thousands separators gives the digits back |
| `ChangeFormat.GroupedShape` | src/interactive_graph.py:182 | a comma stands exactly at the non-first positions a multiple of four from the end: a first group of one to three digits, then groups of three |
| `ChangeFormat.FormatInt` | src/interactive_graph.py:182 | `{change:,}`: the text parses back to the integer, starts with '-' exactly when it is negative and otherwise with a digit, and after the sign is the canonical grouping: only digits and commas, a first group of one to three digits with no leading zero, then a comma before every further group of three |
| `ChangeFormat.SignPrefix` | src/interactive_graph.py:181 | the prefix is '+' exactly for a change of zero or more and empty exactly for a negative one |
| `ChangeFormat.RateText` | src/interactive_graph.py:182 | a present rate is shown by the rendering parameter, an absent one as `None` |
| `ChangeFormat.FormatChange` | src/interactive_graph.py:168-182 | the sentinel exactly for an absent change; otherwise the text is the signed change, " (", the same sign prefix, the rate text and "%)", and it starts with '+' exactly for a change of zero or more and with '-' exactly for a negative one |

## Left out

- `load_csv_data` (CSV reading, `strptime`, the cache decorator), `create_graph` and `main` (chart and page rendering): I/O and user interface.
- `src/fetch_stats.py` (calls to the YouTube API, configuration, appending to the CSV with the wall clock) and `src/generate_graph.py` (Matplotlib output) are not part of this model.
- `datetime.now()`: the current instant is the parameter `now`; the limits of Python's `datetime` range (an `OverflowError` for a cutoff before year 1) are not modelled.
- `FilterDataByPeriod`: requires the four lists to have equal length, as every series built by the loader does (lines 64-67). On misaligned input the source behaves in ways not modelled: the all-time label, an unknown label or an empty timestamp list return the input untouched (lines 82-94); the loop raises `IndexError` only when a kept position lies past the end of a shorter metric list (lines 100-105); the extra entries of a longer metric list are silently dropped. In the unrestricted cases the source returns the very object it was given; the model returns the same value and does not capture that aliasing.
- `CalculateMetricChange`: stores the exact rate; the source stores `round(rate, 2)` of a binary float, which is not modelled. Offsets are natural numbers (the callers pass 1 and 7); the indexing of a negative offset is not modelled.
- `CalculateChanges`: stores the exact rates, for the same reason as `CalculateMetricChange`.
- `FormatChange`: the rendering of the rate (`str` of a float) is the parameter `showRate`; only the sign, sentinel and integer layout are modelled.
