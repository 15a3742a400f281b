/** The current exporter (`internal/exporter`): one scrape asks the client
    for the session statistics, the session and every torrent, stops at the
    first failed call, and emits the global samples, the per-torrent
    samples when they are switched on, and one bucket sample per status
    label. The client is an oracle: the reply to each of the three calls is
    a parameter. */
module Exporter {
  import opened Wrappers
  import Torrents
  import Buckets
  import opened Metrics

  /** The part of `Session` the exporter reads: the version, already in
      the form `Version.Sem()` gives it. */
  datatype Session = Session(semVersion: string)

  /** What the client answers to the three calls of one scrape. */
  datatype Replies = Replies(stats: Result<Stats, string>,
                             session: Result<Session, string>,
                             torrents: Result<seq<Torrent>, string>)

  /** A call the scrape makes on the client. Both exporters ask for the
      torrents the same way, every torrent with every field of `Torrent`,
      so the torrent call carries no arguments here: `Args` supplies them. */
  datatype Call = SessionStatsCall | SessionGetCall | TorrentGetAllCall

  /** The outcome of a scrape: the calls made, in order, and the samples
      sent down the channel, in order. */
  datatype Collection = Collection(calls: seq<Call>, samples: seq<Sample>)

  /** The torrent query: every torrent, every field of `Torrent`. */
  const Query: Torrents.TorrentGetArgs := Torrents.TorrentGetArgs(Torrents.AllTorrents, Torrents.AllTorrentFields)

  /** The arguments a call hands the client: only the torrent call has any. */
  function Args(c: Call): (a: Option<Torrents.TorrentGetArgs>)
    ensures a.Some? <==> c == TorrentGetAllCall
  {
    if c == TorrentGetAllCall then Some(Query) else None
  }

  /** The query names no torrent, so the ids key is left out and the daemon
      answers for all of them, and it asks for all 79 fields of `Torrent`,
      from "activityDate" to "webseedsSendingToUs". */
  lemma QueryAsksForEverything()
    ensures Args(TorrentGetAllCall) == Some(Query)
    ensures Query.ids.None? && Query.fields == Torrents.AllTorrentFields
    ensures Query.fields.Slice? && |Query.fields.items| == 79
    ensures Query.fields.items[0] == "activityDate" && Query.fields.items[78] == "webseedsSendingToUs"
  {
    Torrents.AllTorrentFieldsValue();
  }

  /** The descriptors `Describe` sends: the nine global families always,
      the sixteen torrent-level ones only when they are switched on. The
      tables are maps, ranged over in no fixed order, so the result is a
      set. */
  function Describe(exportTorrentLevel: bool): (ds: set<Metric>)
    ensures forall m: Metric :: m in ds ==> !m.IsTorrentLevel() || exportTorrentLevel
  {
    var globals := {DownloadedBytesTotal, UploadedBytesTotal, TorrentsAddedTotal, SecondsActiveTotal,
                    SessionsTotal, UploadBytesPerSecond, DownloadBytesPerSecond, TorrentsByStatus, Version};
    var torrentLevel := {TorrentDownloadBytesPerSecond, TorrentUploadBytesPerSecond, TorrentTotalSizeBytes,
                         TorrentSizeWhenDoneBytes, TorrentLeftUntilDoneBytes, TorrentDownloadBytesTotal,
                         TorrentUploadBytesTotal, TorrentCorruptBytesTotal, TorrentPeersConnected,
                         TorrentPeersSendingToUs, TorrentPeersGettingFromUs, TorrentWebseedsSendingToUs,
                         TorrentSecondsDownloadingTotal, TorrentSecondsSeedingTotal, TorrentStatus, TorrentInfo};
    globals + (if exportTorrentLevel then torrentLevel else {})
  }

  /** Nothing is missing: every global family is always announced, every
      torrent-level family whenever the setting is on. */
  lemma DescribeComplete(exportTorrentLevel: bool, m: Metric)
    ensures m in Describe(exportTorrentLevel) <==> !m.IsTorrentLevel() || exportTorrentLevel
  {
    match m
    case DownloadedBytesTotal =>
    case UploadedBytesTotal =>
    case TorrentsAddedTotal =>
    case SecondsActiveTotal =>
    case SessionsTotal =>
    case UploadBytesPerSecond =>
    case DownloadBytesPerSecond =>
    case TorrentsByStatus =>
    case Version =>
    case TorrentDownloadBytesPerSecond =>
    case TorrentUploadBytesPerSecond =>
    case TorrentTotalSizeBytes =>
    case TorrentSizeWhenDoneBytes =>
    case TorrentLeftUntilDoneBytes =>
    case TorrentDownloadBytesTotal =>
    case TorrentUploadBytesTotal =>
    case TorrentCorruptBytesTotal =>
    case TorrentPeersConnected =>
    case TorrentPeersSendingToUs =>
    case TorrentPeersGettingFromUs =>
    case TorrentWebseedsSendingToUs =>
    case TorrentSecondsDownloadingTotal =>
    case TorrentSecondsSeedingTotal =>
    case TorrentStatus =>
    case TorrentInfo =>
  }

  /** The version sample: value 1, the version as its only label. */
  function VersionSample(session: Session): (s: Sample)
    ensures s.metric == Version && s.kind == Gauge && s.value == 1 && s.labels == [session.semVersion]
  {
    Sample(Version, Gauge, 1, [session.semVersion])
  }

  function Statuses(ts: seq<Torrent>): (ss: seq<int>)
    ensures |ss| == |ts| && forall i :: 0 <= i < |ts| ==> ss[i] == ts[i].status
  {
    seq(|ts|, i requires 0 <= i < |ts| => ts[i].status)
  }

  /** `Collect`. `order` is the order in which ranging over the bucket map
      visits its eight keys; Go leaves it unspecified. */
  function Collect(exportTorrentLevel: bool, replies: Replies, order: seq<string>): (c: Collection)
    requires Buckets.Enumerates(order, Buckets.BucketLabels)
    ensures 1 <= |c.calls| <= 3 && c.calls[0] == SessionStatsCall
    ensures |c.calls| >= 2 ==> c.calls[1] == SessionGetCall
    ensures |c.calls| == 3 ==> c.calls[2] == TorrentGetAllCall
    ensures replies.stats.Failure? ==> c.calls == [SessionStatsCall] && c.samples == []
    ensures replies.stats.Success? && replies.session.Failure? ==>
              |c.calls| == 2 && c.samples == StatsSamples(replies.stats.value)
    ensures replies.stats.Success? && replies.session.Success? ==> |c.calls| == 3
    ensures replies.stats.Success? && replies.session.Success? && replies.torrents.Failure? ==>
              c.samples == StatsSamples(replies.stats.value) + [VersionSample(replies.session.value)]
    ensures replies.stats.Success? && replies.session.Success? && replies.torrents.Success? ==>
              |c.samples| == 8 + (if exportTorrentLevel then 16 * |replies.torrents.value| else 0) + 8
  {
    match replies.stats
    case Failure(_) => Collection([SessionStatsCall], [])
    case Success(stats) =>
      match replies.session
      case Failure(_) => Collection([SessionStatsCall, SessionGetCall], StatsSamples(stats))
      case Success(session) =>
        var calls := [SessionStatsCall, SessionGetCall, TorrentGetAllCall];
        var head := StatsSamples(stats) + [VersionSample(session)];
        match replies.torrents
        case Failure(_) => Collection(calls, head)
        case Success(ts) =>
          Collection(calls, head + PerTorrent(exportTorrentLevel, ts, true)
                              + BucketSamples(Buckets.CountByStatus(Statuses(ts)), order))
  }

  /** With torrent-level metrics off, only global families are emitted. */
  lemma CollectWithoutTorrentLevel(replies: Replies, order: seq<string>)
    requires Buckets.Enumerates(order, Buckets.BucketLabels)
    ensures var c := Collect(false, replies, order);
            forall i :: 0 <= i < |c.samples| ==> !c.samples[i].metric.IsTorrentLevel()
  {
  }

  /** Every sample a scrape emits belongs to a family `Describe` announced
      under the same setting. */
  lemma CollectIsDescribed(exportTorrentLevel: bool, replies: Replies, order: seq<string>)
    requires Buckets.Enumerates(order, Buckets.BucketLabels)
    ensures forall s :: s in Collect(exportTorrentLevel, replies, order).samples ==>
              s.metric in Describe(exportTorrentLevel)
  {
    var c := Collect(exportTorrentLevel, replies, order);
    forall s | s in c.samples
      ensures s.metric in Describe(exportTorrentLevel)
    {
      var i :| 0 <= i < |c.samples| && c.samples[i] == s;
      if !exportTorrentLevel {
        CollectWithoutTorrentLevel(replies, order);
      }
      DescribeComplete(exportTorrentLevel, s.metric);
    }
  }

  /** A successful scrape ends with the eight bucket samples: one per
      status label and one for "unknown", empty buckets included, each
      holding the number of torrents with that label, summing to the
      number of torrents. */
  lemma CollectBuckets(exportTorrentLevel: bool, stats: Stats, session: Session, ts: seq<Torrent>,
                       order: seq<string>)
    requires Buckets.Enumerates(order, Buckets.BucketLabels)
    ensures var c := Collect(exportTorrentLevel, Replies(Success(stats), Success(session), Success(ts)), order);
            var tail := c.samples[|c.samples| - 8..];
            |c.samples| >= 8
            && (forall i :: 0 <= i < 8 ==> tail[i].metric == TorrentsByStatus)
            && (forall name :: name in Buckets.BucketLabels ==>
                  exists i :: 0 <= i < 8 && tail[i] == Sample(TorrentsByStatus, Gauge, Buckets.CountOf(Statuses(ts), name), [name]))
            && Total(tail) == |ts|
  {
    var c := Collect(exportTorrentLevel, Replies(Success(stats), Success(session), Success(ts)), order);
    var buckets := BucketSamples(Buckets.CountByStatus(Statuses(ts)), order);
    Metrics.BucketSamplesCoverLabels(Statuses(ts), order);
    assert c.samples[|c.samples| - 8..] == buckets;
  }

  /** With torrent-level metrics on, torrent `j` owns sixteen consecutive
      samples right after the eight global ones: every one labelled with
      its hash, the status sample holding its raw status, and the info
      sample, last, valued 1 and labelled with its hash and name. */
  lemma {:induction false} CollectTorrentBlock(stats: Stats, session: Session, ts: seq<Torrent>,
                                               order: seq<string>, j: nat)
    requires Buckets.Enumerates(order, Buckets.BucketLabels)
    requires j < |ts|
    ensures var c := Collect(true, Replies(Success(stats), Success(session), Success(ts)), order);
            8 + 16 * j + 16 <= |c.samples|
            && c.samples[8 + 16 * j .. 8 + 16 * j + 16] == TorrentSamples(ts[j], true)
            && c.samples[8 + 16 * j + 15] == Sample(TorrentInfo, Gauge, 1, [ts[j].hash, ts[j].name])
            && forall k :: 8 + 16 * j <= k < 8 + 16 * j + 16 ==>
                 |c.samples[k].labels| >= 1 && c.samples[k].labels[0] == ts[j].hash
  {
    SuccessfulSamples(true, stats, session, ts, order);
    BlockAfterGlobals(StatsSamples(stats) + [VersionSample(session)], ts,
                      BucketSamples(Buckets.CountByStatus(Statuses(ts)), order), j);
  }

  /** Where torrent `j`'s block sits once the loop's samples follow the
      eight global ones. */
  lemma {:induction false} BlockAfterGlobals(head: seq<Sample>, ts: seq<Torrent>, tail: seq<Sample>, j: nat)
    requires |head| == 8 && j < |ts|
    ensures var samples := head + (PerTorrent(true, ts, true) + tail);
            8 + 16 * j + 16 <= |samples|
            && samples[8 + 16 * j .. 8 + 16 * j + 16] == TorrentSamples(ts[j], true)
            && samples[8 + 16 * j + 15] == Sample(TorrentInfo, Gauge, 1, [ts[j].hash, ts[j].name])
            && forall k :: 8 + 16 * j <= k < 8 + 16 * j + 16 ==>
                 |samples[k].labels| >= 1 && samples[k].labels[0] == ts[j].hash
  {
    FramedBlock(head, ts, tail, true, j);
    BlockOfTorrent(head + (PerTorrent(true, ts, true) + tail), 8 + 16 * j, ts[j], true);
  }

  /** The samples of a scrape whose three calls all succeed, in order. */
  lemma SuccessfulSamples(exportTorrentLevel: bool, stats: Stats, session: Session, ts: seq<Torrent>,
                          order: seq<string>)
    requires Buckets.Enumerates(order, Buckets.BucketLabels)
    ensures var head := StatsSamples(stats) + [VersionSample(session)];
            var rest := PerTorrent(exportTorrentLevel, ts, true)
                        + BucketSamples(Buckets.CountByStatus(Statuses(ts)), order);
            |head| == 8
            && Collect(exportTorrentLevel, Replies(Success(stats), Success(session), Success(ts)), order).samples
               == head + rest
  {
    var head := StatsSamples(stats) + [VersionSample(session)];
    var body := PerTorrent(exportTorrentLevel, ts, true);
    var buckets := BucketSamples(Buckets.CountByStatus(Statuses(ts)), order);
    AppendAssoc(head, body, buckets);
  }
}
