/** The earlier exporter (`pkg/exporter`): like the current one, but it
    never asks for the session, so it has no version sample, and it emits
    no per-torrent status sample. Its descriptors are sent in a fixed
    order. */
module LegacyExporter {
  import opened Wrappers
  import Buckets
  import opened Metrics
  import Exporter

  /** What the client answers to the two calls of one scrape. */
  datatype Replies = Replies(stats: Result<Stats, string>, torrents: Result<seq<Torrent>, string>)

  /** The eight global descriptors, in the order they are sent. */
  const Globals: seq<Metric> := [DownloadedBytesTotal, UploadedBytesTotal, TorrentsAddedTotal,
                                 SecondsActiveTotal, SessionsTotal, UploadBytesPerSecond,
                                 DownloadBytesPerSecond, TorrentsByStatus]

  /** The fifteen torrent-level descriptors, in the order they are sent. */
  const TorrentLevel: seq<Metric> := [TorrentDownloadBytesPerSecond, TorrentUploadBytesPerSecond,
                                      TorrentTotalSizeBytes, TorrentSizeWhenDoneBytes,
                                      TorrentLeftUntilDoneBytes, TorrentDownloadBytesTotal,
                                      TorrentUploadBytesTotal, TorrentCorruptBytesTotal,
                                      TorrentPeersConnected, TorrentPeersSendingToUs,
                                      TorrentPeersGettingFromUs, TorrentWebseedsSendingToUs,
                                      TorrentSecondsDownloadingTotal, TorrentSecondsSeedingTotal, TorrentInfo]

  /** `Describe`: the globals first, then the torrent-level families when
      they are switched on; no family is sent twice. */
  function Describe(exportTorrentLevel: bool): (ds: seq<Metric>)
    ensures |ds| == if exportTorrentLevel then 23 else 8
    ensures forall i :: 0 <= i < |ds| ==> (ds[i].IsTorrentLevel() <==> 8 <= i)
    ensures forall i, j :: 0 <= i < j < |ds| ==> ds[i] != ds[j]
  {
    Globals + (if exportTorrentLevel then TorrentLevel else [])
  }

  /** Exactly the families this exporter can emit are announced: every one
      but the version and the per-torrent status, the torrent-level ones
      only when switched on. */
  lemma DescribeComplete(exportTorrentLevel: bool, m: Metric)
    ensures m in Describe(exportTorrentLevel) <==>
              m != Version && m != TorrentStatus && (!m.IsTorrentLevel() || exportTorrentLevel)
  {
    GlobalsComplete(m);
    TorrentLevelComplete(m);
    var rest: seq<Metric> := if exportTorrentLevel then TorrentLevel else [];
    assert Describe(exportTorrentLevel) == Globals + rest;
    assert m in Globals + rest <==> m in Globals || m in rest;
  }

  /** The global part of `Describe`: every global family but the version. */
  lemma GlobalsComplete(m: Metric)
    ensures m in Globals <==> !m.IsTorrentLevel() && m != Version
  {
    match m
    case DownloadedBytesTotal => assert Globals[0] == m;
    case UploadedBytesTotal => assert Globals[1] == m;
    case TorrentsAddedTotal => assert Globals[2] == m;
    case SecondsActiveTotal => assert Globals[3] == m;
    case SessionsTotal => assert Globals[4] == m;
    case UploadBytesPerSecond => assert Globals[5] == m;
    case DownloadBytesPerSecond => assert Globals[6] == m;
    case TorrentsByStatus => assert Globals[7] == m;
    case _ =>
  }

  /** The torrent-level part of `Describe`: every torrent-level family but
      the status. */
  lemma TorrentLevelComplete(m: Metric)
    ensures m in TorrentLevel <==> m.IsTorrentLevel() && m != TorrentStatus
  {
    match m
    case TorrentDownloadBytesPerSecond => assert TorrentLevel[0] == m;
    case TorrentUploadBytesPerSecond => assert TorrentLevel[1] == m;
    case TorrentTotalSizeBytes => assert TorrentLevel[2] == m;
    case TorrentSizeWhenDoneBytes => assert TorrentLevel[3] == m;
    case TorrentLeftUntilDoneBytes => assert TorrentLevel[4] == m;
    case TorrentDownloadBytesTotal => assert TorrentLevel[5] == m;
    case TorrentUploadBytesTotal => assert TorrentLevel[6] == m;
    case TorrentCorruptBytesTotal => assert TorrentLevel[7] == m;
    case TorrentPeersConnected => assert TorrentLevel[8] == m;
    case TorrentPeersSendingToUs => assert TorrentLevel[9] == m;
    case TorrentPeersGettingFromUs => assert TorrentLevel[10] == m;
    case TorrentWebseedsSendingToUs => assert TorrentLevel[11] == m;
    case TorrentSecondsDownloadingTotal => assert TorrentLevel[12] == m;
    case TorrentSecondsSeedingTotal => assert TorrentLevel[13] == m;
    case TorrentInfo => assert TorrentLevel[14] == m;
    case _ =>
  }

  /** The earlier exporter announces a subset of what the current one
      does, under the same setting. */
  lemma DescribeWithinCurrent(exportTorrentLevel: bool)
    ensures forall m :: m in Describe(exportTorrentLevel) ==> m in Exporter.Describe(exportTorrentLevel)
    ensures Version !in Describe(exportTorrentLevel) && Version in Exporter.Describe(exportTorrentLevel)
  {
    forall m | m in Describe(exportTorrentLevel)
      ensures m in Exporter.Describe(exportTorrentLevel)
    {
      DescribeComplete(exportTorrentLevel, m);
      Exporter.DescribeComplete(exportTorrentLevel, m);
    }
    DescribeComplete(exportTorrentLevel, Version);
    Exporter.DescribeComplete(exportTorrentLevel, Version);
  }

  /** `Collect`. The session statistics come first; a failed call ends the
      scrape. There is no session call. `order` is the order in which
      ranging over the bucket map visits its eight keys. */
  function Collect(exportTorrentLevel: bool, replies: Replies, order: seq<string>): (c: Exporter.Collection)
    requires Buckets.Enumerates(order, Buckets.BucketLabels)
    ensures 1 <= |c.calls| <= 2 && c.calls[0] == Exporter.SessionStatsCall
    ensures |c.calls| == 2 ==> c.calls[1] == Exporter.TorrentGetAllCall
    ensures replies.stats.Failure? ==> c.calls == [Exporter.SessionStatsCall] && c.samples == []
    ensures replies.stats.Success? ==> |c.calls| == 2
    ensures replies.stats.Success? && replies.torrents.Failure? ==> c.samples == StatsSamples(replies.stats.value)
    ensures replies.stats.Success? && replies.torrents.Success? ==>
              |c.samples| == 7 + (if exportTorrentLevel then 15 * |replies.torrents.value| else 0) + 8
  {
    match replies.stats
    case Failure(_) => Exporter.Collection([Exporter.SessionStatsCall], [])
    case Success(stats) =>
      var calls := [Exporter.SessionStatsCall, Exporter.TorrentGetAllCall];
      match replies.torrents
      case Failure(_) => Exporter.Collection(calls, StatsSamples(stats))
      case Success(ts) =>
        Exporter.Collection(calls, Scrape(exportTorrentLevel, stats, ts, order))
  }

  /** The samples of a scrape whose two calls succeed: the statistics, the
      per-torrent blocks when switched on, then the buckets. */
  function Scrape(exportTorrentLevel: bool, stats: Stats, ts: seq<Torrent>, order: seq<string>): (ss: seq<Sample>)
    requires Buckets.Enumerates(order, Buckets.BucketLabels)
    ensures |ss| == 7 + (if exportTorrentLevel then 15 * |ts| else 0) + 8
    ensures ss[..7] == StatsSamples(stats)
  {
    var head := StatsSamples(stats);
    var body := PerTorrent(exportTorrentLevel, ts, false);
    var buckets := BucketSamples(Buckets.CountByStatus(Exporter.Statuses(ts)), order);
    AppendAssoc(head, body, buckets);
    PrefixOfAppend(head, body + buckets);
    head + body + buckets
  }

  /** With torrent-level metrics off a scrape holds global samples only. */
  lemma ScrapeWithoutTorrentLevel(stats: Stats, ts: seq<Torrent>, order: seq<string>)
    requires Buckets.Enumerates(order, Buckets.BucketLabels)
    ensures var ss := Scrape(false, stats, ts, order);
            forall i :: 0 <= i < |ss| ==> !ss[i].metric.IsTorrentLevel()
  {
    var head := StatsSamples(stats);
    var buckets := BucketSamples(Buckets.CountByStatus(Exporter.Statuses(ts)), order);
    assert Scrape(false, stats, ts, order) == head + [] + buckets;
  }

  /** This exporter never emits the version or a per-torrent status. */
  lemma ScrapeLacksVersionAndStatus(exportTorrentLevel: bool, stats: Stats, ts: seq<Torrent>, order: seq<string>)
    requires Buckets.Enumerates(order, Buckets.BucketLabels)
    ensures Without(Scrape(exportTorrentLevel, stats, ts, order), Version)
    ensures Without(Scrape(exportTorrentLevel, stats, ts, order), TorrentStatus)
  {
    var head := StatsSamples(stats);
    var body := PerTorrent(exportTorrentLevel, ts, false);
    var counts := Buckets.CountByStatus(Exporter.Statuses(ts));
    Buckets.OrderedKeysCounted(Exporter.Statuses(ts), order);
    var buckets := BucketSamples(counts, order);
    StatsSamplesGlobal(stats);
    assert Without(body, Version) && Without(body, TorrentStatus) by {
      PerTorrentIsTorrentLevel(exportTorrentLevel, ts, false);
      PerTorrentNoStatus(exportTorrentLevel, ts);
    }
    assert Without(buckets, Version) && Without(buckets, TorrentStatus) by {
      BucketsLack(counts, order);
    }
    PartsLack(head, body, buckets, Version);
    PartsLack(head, body, buckets, TorrentStatus);
  }

  lemma {:induction false} PartsLack(head: seq<Sample>, body: seq<Sample>, tail: seq<Sample>, m: Metric)
    requires Without(head, m) && Without(body, m) && Without(tail, m)
    ensures Without(head + body + tail, m)
  {
    WithoutAppend(head, body, m);
    WithoutAppend(head + body, tail, m);
  }

  lemma BucketsLack(counts: map<string, int>, order: seq<string>)
    requires forall name :: name in order ==> name in counts
    ensures Without(BucketSamples(counts, order), Version) && Without(BucketSamples(counts, order), TorrentStatus)
  {
  }

  /** With torrent-level metrics off, only global families are emitted. */
  lemma CollectWithoutTorrentLevel(replies: Replies, order: seq<string>)
    requires Buckets.Enumerates(order, Buckets.BucketLabels)
    ensures var c := Collect(false, replies, order);
            forall i :: 0 <= i < |c.samples| ==> !c.samples[i].metric.IsTorrentLevel()
  {
    if replies.stats.Success? && replies.torrents.Success? {
      ScrapeWithoutTorrentLevel(replies.stats.value, replies.torrents.value, order);
    }
  }

  /** This exporter never emits the version or a per-torrent status,
      whatever the replies. */
  lemma CollectLacksVersionAndStatus(exportTorrentLevel: bool, replies: Replies, order: seq<string>)
    requires Buckets.Enumerates(order, Buckets.BucketLabels)
    ensures Without(Collect(exportTorrentLevel, replies, order).samples, Version)
    ensures Without(Collect(exportTorrentLevel, replies, order).samples, TorrentStatus)
  {
    if replies.stats.Success? {
      StatsSamplesGlobal(replies.stats.value);
      if replies.torrents.Success? {
        ScrapeLacksVersionAndStatus(exportTorrentLevel, replies.stats.value, replies.torrents.value, order);
      }
    }
  }

  /** Every sample a scrape emits belongs to a family `Describe` announced
      under the same setting. */
  lemma CollectIsDescribed(exportTorrentLevel: bool, replies: Replies, order: seq<string>)
    requires Buckets.Enumerates(order, Buckets.BucketLabels)
    ensures forall s :: s in Collect(exportTorrentLevel, replies, order).samples ==>
              s.metric in Describe(exportTorrentLevel)
  {
    var c := Collect(exportTorrentLevel, replies, order);
    forall s | s in c.samples
      ensures s.metric in Describe(exportTorrentLevel)
    {
      var i :| 0 <= i < |c.samples| && c.samples[i] == s;
      CollectLacksVersionAndStatus(exportTorrentLevel, replies, order);
      if !exportTorrentLevel {
        CollectWithoutTorrentLevel(replies, order);
      }
      DescribeComplete(exportTorrentLevel, s.metric);
    }
  }

  /** The samples of a scrape whose two calls succeed, in order. */
  lemma SuccessfulSamples(exportTorrentLevel: bool, stats: Stats, ts: seq<Torrent>, order: seq<string>)
    requires Buckets.Enumerates(order, Buckets.BucketLabels)
    ensures Collect(exportTorrentLevel, Replies(Success(stats), Success(ts)), order).samples
            == StatsSamples(stats) + (PerTorrent(exportTorrentLevel, ts, false)
                                      + BucketSamples(Buckets.CountByStatus(Exporter.Statuses(ts)), order))
  {
    var head := StatsSamples(stats);
    var body := PerTorrent(exportTorrentLevel, ts, false);
    var buckets := BucketSamples(Buckets.CountByStatus(Exporter.Statuses(ts)), order);
    AppendAssoc(head, body, buckets);
  }

  /** A successful scrape ends with the eight bucket samples: one per
      status label and one for "unknown", empty buckets included, each
      holding the number of torrents with that label, summing to the
      number of torrents. */
  lemma CollectBuckets(exportTorrentLevel: bool, stats: Stats, ts: seq<Torrent>, order: seq<string>)
    requires Buckets.Enumerates(order, Buckets.BucketLabels)
    ensures var c := Collect(exportTorrentLevel, Replies(Success(stats), Success(ts)), order);
            var tail := c.samples[|c.samples| - 8..];
            |c.samples| >= 8
            && (forall i :: 0 <= i < 8 ==> tail[i].metric == TorrentsByStatus)
            && (forall name :: name in Buckets.BucketLabels ==>
                  exists i :: 0 <= i < 8
                    && tail[i] == Sample(TorrentsByStatus, Gauge, Buckets.CountOf(Exporter.Statuses(ts), name), [name]))
            && Total(tail) == |ts|
  {
    var c := Collect(exportTorrentLevel, Replies(Success(stats), Success(ts)), order);
    var buckets := BucketSamples(Buckets.CountByStatus(Exporter.Statuses(ts)), order);
    Metrics.BucketSamplesCoverLabels(Exporter.Statuses(ts), order);
    assert c.samples[|c.samples| - 8..] == buckets;
  }

  /** With torrent-level metrics on, torrent `j` owns fifteen consecutive
      samples right after the seven global ones: every one labelled with
      its hash, and the info sample, last, valued 1 and labelled with its
      hash and name. */
  lemma {:induction false} CollectTorrentBlock(stats: Stats, ts: seq<Torrent>, order: seq<string>, j: nat)
    requires Buckets.Enumerates(order, Buckets.BucketLabels)
    requires j < |ts|
    ensures var c := Collect(true, Replies(Success(stats), Success(ts)), order);
            7 + 15 * j + 15 <= |c.samples|
            && c.samples[7 + 15 * j .. 7 + 15 * j + 15] == TorrentSamples(ts[j], false)
            && c.samples[7 + 15 * j + 14] == Sample(TorrentInfo, Gauge, 1, [ts[j].hash, ts[j].name])
            && forall k :: 7 + 15 * j <= k < 7 + 15 * j + 15 ==>
                 |c.samples[k].labels| >= 1 && c.samples[k].labels[0] == ts[j].hash
  {
    SuccessfulSamples(true, stats, ts, order);
    BlockAfterStats(StatsSamples(stats), ts, BucketSamples(Buckets.CountByStatus(Exporter.Statuses(ts)), order), j);
  }

  /** Where torrent `j`'s block sits once the loop's samples follow the
      seven statistics samples. */
  lemma {:induction false} BlockAfterStats(head: seq<Sample>, ts: seq<Torrent>, tail: seq<Sample>, j: nat)
    requires |head| == 7 && j < |ts|
    ensures var samples := head + (PerTorrent(true, ts, false) + tail);
            7 + 15 * j + 15 <= |samples|
            && samples[7 + 15 * j .. 7 + 15 * j + 15] == TorrentSamples(ts[j], false)
            && samples[7 + 15 * j + 14] == Sample(TorrentInfo, Gauge, 1, [ts[j].hash, ts[j].name])
            && forall k :: 7 + 15 * j <= k < 7 + 15 * j + 15 ==>
                 |samples[k].labels| >= 1 && samples[k].labels[0] == ts[j].hash
  {
    FramedBlock(head, ts, tail, false, j);
    BlockOfTorrent(head + (PerTorrent(true, ts, false) + tail), 7 + 15 * j, ts[j], false);
  }
}
