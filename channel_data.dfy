/**
 * The column-oriented time series of one channel (the `ChannelData` dataclass)
 * and the three metrics it tracks.
 *
 * An instant is an integer count of microseconds since a fixed epoch, the
 * resolution of a naive Python `datetime`.
 */
module ChannelSeries {

  /** Four parallel lists: index i of each list belongs to the same sample. */
  datatype ChannelData = ChannelData(
    timestamp: seq<int>,
    subscriberCount: seq<nat>,
    viewCount: seq<nat>,
    videoCount: seq<nat>)

  /** The four lists have one entry per sample. */
  predicate Aligned(data: ChannelData) {
    && |data.subscriberCount| == |data.timestamp|
    && |data.viewCount| == |data.timestamp|
    && |data.videoCount| == |data.timestamp|
  }

  /** One sample, read across the four lists at one index. */
  datatype Sample = Sample(timestamp: int, subscriberCount: nat, viewCount: nat, videoCount: nat)

  /** The row-oriented reading of an aligned series. */
  function Rows(data: ChannelData): (rows: seq<Sample>)
    requires Aligned(data)
    ensures |rows| == |data.timestamp|
  {
    seq(|data.timestamp|, i requires 0 <= i < |data.timestamp| =>
      Sample(data.timestamp[i], data.subscriberCount[i], data.viewCount[i], data.videoCount[i]))
  }

  /** The three tracked metrics, as the attribute names the source looks them up by. */
  datatype Metric = SubscriberCount | ViewCount | VideoCount {

    function Key(): string {
      match this
      case SubscriberCount => "subscriber_count"
      case ViewCount => "view_count"
      case VideoCount => "video_count"
    }
  }

  /** `getattr(data, metric.Key())`. */
  function Values(data: ChannelData, metric: Metric): seq<nat> {
    match metric
    case SubscriberCount => data.subscriberCount
    case ViewCount => data.viewCount
    case VideoCount => data.videoCount
  }
}
