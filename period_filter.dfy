/**
 * The period filter of the dashboard (`filter_data_by_period`): keep the
 * samples taken on or after "now minus N days", where N comes from a table of
 * period labels. The wall clock is the parameter `now`.
 */
module PeriodFilter {
  import opened ChannelSeries

  const AllPeriods: string := "全期間"
  const Last7Days: string := "過去7日"
  const Last30Days: string := "過去30日"
  const Last90Days: string := "過去90日"

  const MicrosPerDay: int := 86_400_000_000

  /** The label table, read with `.get(period, 0)`: an unknown label gives 0 days. */
  function PeriodDays(period: string): (days: nat)
    ensures days == 0 <==> period !in {Last7Days, Last30Days, Last90Days}
    ensures period == Last7Days ==> days == 7
    ensures period == Last30Days ==> days == 30
    ensures period == Last90Days ==> days == 90
  {
    if period == Last7Days then 7
    else if period == Last30Days then 30
    else if period == Last90Days then 90
    else 0
  }

  /** `now - timedelta(days=days)`: exactly `days` whole days before now. */
  function Cutoff(now: int, days: nat): (cutoff: int)
    ensures cutoff <= now
    ensures (now - cutoff) % MicrosPerDay == 0 && (now - cutoff) / MicrosPerDay == days
  {
    now - days * MicrosPerDay
  }

  /** True when the label asks for no restriction at all. */
  predicate Unrestricted(period: string) {
    period == AllPeriods || PeriodDays(period) == 0
  }

  /**
   * The indices below n whose timestamp is on or after the cutoff, in
   * increasing order: the positions the filter loop keeps after n steps.
   */
  function KeptIndices(ts: seq<int>, cutoff: int, n: nat): (kept: seq<nat>)
    requires n <= |ts|
    ensures forall k :: 0 <= k < |kept| ==> kept[k] < n && ts[kept[k]] >= cutoff
    ensures forall j, k :: 0 <= j < k < |kept| ==> kept[j] < kept[k]
    decreases n
  {
    if n == 0 then []
    else KeptIndices(ts, cutoff, n - 1) + (if ts[n - 1] >= cutoff then [n - 1] else [])
  }

  /** The entries of s at the positions idx, in the order of idx. */
  function Pick<T>(s: seq<T>, idx: seq<nat>): seq<T>
    requires forall k :: 0 <= k < |idx| ==> idx[k] < |s|
  {
    seq(|idx|, k requires 0 <= k < |idx| => s[idx[k]])
  }

  /** The series restricted to the samples at or after the cutoff, all four lists alike. */
  function Filtered(data: ChannelData, cutoff: int): (r: ChannelData)
    requires Aligned(data)
    ensures Aligned(r)
    ensures forall k :: 0 <= k < |r.timestamp| ==> r.timestamp[k] >= cutoff
  {
    var kept := KeptIndices(data.timestamp, cutoff, |data.timestamp|);
    ChannelData(
      Pick(data.timestamp, kept),
      Pick(data.subscriberCount, kept),
      Pick(data.viewCount, kept),
      Pick(data.videoCount, kept))
  }

  /** A row-oriented reference filter: the samples with a recent enough timestamp, in order. */
  function RecentRows(rows: seq<Sample>, cutoff: int): seq<Sample>
  {
    if rows == [] then []
    else
      var last := rows[|rows| - 1];
      RecentRows(rows[..|rows| - 1], cutoff) + (if last.timestamp >= cutoff then [last] else [])
  }

  /** The positions j, j+1, ..., n-1. */
  function Range(j: nat, n: nat): (r: seq<nat>)
    requires j <= n
  {
    seq(n - j, k requires 0 <= k < n - j => j + k)
  }

  /** The samples from index j on, all four lists alike. */
  function Suffix(data: ChannelData, j: nat): ChannelData
    requires Aligned(data) && j <= |data.timestamp|
  {
    ChannelData(data.timestamp[j..], data.subscriberCount[j..], data.viewCount[j..], data.videoCount[j..])
  }

  /** Timestamps in non-decreasing order, as the store appends them. */
  predicate Chronological(ts: seq<int>) {
    forall i, j :: 0 <= i < j < |ts| ==> ts[i] <= ts[j]
  }

  /** The first index from lo on whose timestamp is at or after the cutoff, or |ts|. */
  function FirstRecent(ts: seq<int>, cutoff: int, lo: nat): (j: nat)
    requires lo <= |ts|
    ensures lo <= j <= |ts|
    ensures forall i :: lo <= i < j ==> ts[i] < cutoff
    ensures j < |ts| ==> ts[j] >= cutoff
    decreases |ts| - lo
  {
    if lo == |ts| || ts[lo] >= cutoff then lo else FirstRecent(ts, cutoff, lo + 1)
  }

  /**
   * `filter_data_by_period`: the whole series for the all-time label, for an
   * empty series and for a label the table does not know; otherwise the samples
   * at or after now minus the period's days, collected by one pass that appends
   * to four fresh lists.
   */
  method FilterDataByPeriod(data: ChannelData, period: string, now: int) returns (result: ChannelData)
    requires Aligned(data)
    ensures Unrestricted(period) || data.timestamp == [] ==> result == data
    ensures !Unrestricted(period) && data.timestamp != [] ==>
      result == Filtered(data, Cutoff(now, PeriodDays(period)))
  {
    if period == AllPeriods || |data.timestamp| == 0 {
      return data;
    }
    var days := PeriodDays(period);
    if days == 0 {
      return data;
    }
    var cutoff := Cutoff(now, days);
    var ts: seq<int> := [];
    var subscribers: seq<nat> := [];
    var views: seq<nat> := [];
    var videos: seq<nat> := [];
    ghost var kept: seq<nat> := [];
    for i := 0 to |data.timestamp|
      invariant kept == KeptIndices(data.timestamp, cutoff, i)
      invariant ts == Pick(data.timestamp, kept)
      invariant subscribers == Pick(data.subscriberCount, kept)
      invariant views == Pick(data.viewCount, kept)
      invariant videos == Pick(data.videoCount, kept)
    {
      if data.timestamp[i] >= cutoff {
        PickSnoc(data.timestamp, kept, i);
        PickSnoc(data.subscriberCount, kept, i);
        PickSnoc(data.viewCount, kept, i);
        PickSnoc(data.videoCount, kept, i);
        ts := ts + [data.timestamp[i]];
        subscribers := subscribers + [data.subscriberCount[i]];
        views := views + [data.viewCount[i]];
        videos := videos + [data.videoCount[i]];
        kept := kept + [i];
      }
    }
    result := ChannelData(ts, subscribers, views, videos);
  }

  lemma PickSnoc<T>(s: seq<T>, idx: seq<nat>, i: nat)
    requires forall k :: 0 <= k < |idx| ==> idx[k] < |s|
    requires i < |s|
    ensures Pick(s, idx + [i]) == Pick(s, idx) + [s[i]]
  {
  }

  /** A sample is kept exactly when its timestamp is on or after the cutoff; one at the cutoff is kept. */
  lemma {:induction false} KeptIndicesComplete(ts: seq<int>, cutoff: int, n: nat)
    requires n <= |ts|
    ensures forall i :: 0 <= i < n ==> (i in KeptIndices(ts, cutoff, n) <==> ts[i] >= cutoff)
  {
    if n > 0 {
      KeptIndicesComplete(ts, cutoff, n - 1);
    }
  }

  /** When every sample below n is older than the cutoff, none is kept. */
  lemma {:induction false} KeptIndicesNone(ts: seq<int>, cutoff: int, n: nat)
    requires n <= |ts|
    requires forall i :: 0 <= i < n ==> ts[i] < cutoff
    ensures KeptIndices(ts, cutoff, n) == []
  {
    if n > 0 {
      KeptIndicesNone(ts, cutoff, n - 1);
    }
  }

  /**
   * When the samples below j are all older than the cutoff and those from j
   * to n-1 are not, the kept positions are exactly j..n-1.
   */
  lemma {:induction false} KeptIndicesSplit(ts: seq<int>, cutoff: int, j: nat, n: nat)
    requires j <= n <= |ts|
    requires forall i :: 0 <= i < j ==> ts[i] < cutoff
    requires forall i :: j <= i < n ==> ts[i] >= cutoff
    ensures KeptIndices(ts, cutoff, n) == Range(j, n)
  {
    if n == j {
      KeptIndicesNone(ts, cutoff, n);
    } else {
      KeptIndicesSplit(ts, cutoff, j, n - 1);
      assert Range(j, n) == Range(j, n - 1) + [n - 1];
    }
  }

  lemma PickRange<T>(s: seq<T>, j: nat, n: nat)
    requires j <= n <= |s|
    ensures Pick(s, Range(j, n)) == s[j..n]
  {
  }

  /** Every kept sample, read as a row, is the row-oriented filter of the input rows. */
  lemma {:induction false} FilteredRows(data: ChannelData, cutoff: int)
    requires Aligned(data)
    ensures Rows(Filtered(data, cutoff)) == RecentRows(Rows(data), cutoff)
  {
    var n := |data.timestamp|;
    RowsOfKept(data, cutoff, n);
    assert Rows(data)[..n] == Rows(data);
  }

  /** The rows at the given positions. */
  function RowsAt(data: ChannelData, idx: seq<nat>): seq<Sample>
    requires Aligned(data)
    requires forall k :: 0 <= k < |idx| ==> idx[k] < |data.timestamp|
  {
    seq(|idx|, k requires 0 <= k < |idx| => Rows(data)[idx[k]])
  }

  lemma {:induction false} RowsOfKept(data: ChannelData, cutoff: int, n: nat)
    requires Aligned(data) && n <= |data.timestamp|
    ensures RowsAt(data, KeptIndices(data.timestamp, cutoff, n)) == RecentRows(Rows(data)[..n], cutoff)
  {
    if n > 0 {
      RowsOfKept(data, cutoff, n - 1);
      var prefix := Rows(data)[..n];
      assert prefix[..n - 1] == Rows(data)[..n - 1];
      var before := KeptIndices(data.timestamp, cutoff, n - 1);
      var step := if data.timestamp[n - 1] >= cutoff then [n - 1] else [];
      RowsAtAppend(data, before, step);
    }
  }

  lemma RowsAtAppend(data: ChannelData, a: seq<nat>, b: seq<nat>)
    requires Aligned(data)
    requires forall k :: 0 <= k < |a| ==> a[k] < |data.timestamp|
    requires forall k :: 0 <= k < |b| ==> b[k] < |data.timestamp|
    ensures RowsAt(data, a + b) == RowsAt(data, a) + RowsAt(data, b)
  {
  }

  /** Split at j as in KeptIndicesSplit, the filtered series is the suffix from j. */
  lemma FilteredSplit(data: ChannelData, cutoff: int, j: nat)
    requires Aligned(data) && j <= |data.timestamp|
    requires forall i :: 0 <= i < j ==> data.timestamp[i] < cutoff
    requires forall i :: j <= i < |data.timestamp| ==> data.timestamp[i] >= cutoff
    ensures Filtered(data, cutoff) == Suffix(data, j)
  {
    var n := |data.timestamp|;
    KeptIndicesSplit(data.timestamp, cutoff, j, n);
    PickRange(data.timestamp, j, n);
    PickRange(data.subscriberCount, j, n);
    PickRange(data.viewCount, j, n);
    PickRange(data.videoCount, j, n);
  }

  /** Filtering twice with the same cutoff is filtering once. */
  lemma FilteredIdempotent(data: ChannelData, cutoff: int)
    requires Aligned(data)
    ensures Filtered(Filtered(data, cutoff), cutoff) == Filtered(data, cutoff)
  {
    var once := Filtered(data, cutoff);
    FilteredSplit(once, cutoff, 0);
    assert Suffix(once, 0) == once;
  }

  /** On a chronological series the filter keeps a contiguous suffix: all samples from the first recent one on. */
  lemma FilteredChronologicalIsSuffix(data: ChannelData, cutoff: int)
    requires Aligned(data) && Chronological(data.timestamp)
    ensures Filtered(data, cutoff) == Suffix(data, FirstRecent(data.timestamp, cutoff, 0))
  {
    var ts := data.timestamp;
    var j := FirstRecent(ts, cutoff, 0);
    assert forall i :: j <= i < |ts| ==> ts[i] >= cutoff by {
      forall i | j <= i < |ts| ensures ts[i] >= cutoff {
        assert ts[j] <= ts[i];
      }
    }
    FilteredSplit(data, cutoff, j);
  }

  /** If every sample is older than the cutoff, the period holds no data. */
  lemma FilteredAllOlderIsEmpty(data: ChannelData, cutoff: int)
    requires Aligned(data)
    requires forall i :: 0 <= i < |data.timestamp| ==> data.timestamp[i] < cutoff
    ensures Filtered(data, cutoff) == ChannelData([], [], [], [])
  {
    KeptIndicesNone(data.timestamp, cutoff, |data.timestamp|);
  }

  /** Ten daily samples, the last one taken now: the last-7-days view holds days 3 to 10. */
  lemma TenDailySamplesLastWeek(data: ChannelData, now: int)
    requires Aligned(data) && |data.timestamp| == 10
    requires forall i :: 0 <= i < 10 ==> data.timestamp[i] == now - (9 - i) * MicrosPerDay
    ensures Filtered(data, Cutoff(now, PeriodDays(Last7Days))) == Suffix(data, 2)
  {
    var cutoff := Cutoff(now, 7);
    assert cutoff == now - 7 * MicrosPerDay;
    forall i | 0 <= i < 10 ensures data.timestamp[i] >= cutoff <==> i >= 2 {
      assert data.timestamp[i] - cutoff == (i - 2) * MicrosPerDay;
    }
    FilteredSplit(data, cutoff, 2);
  }
}
