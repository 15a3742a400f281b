/** What the exporters hand to Prometheus, reduced to plain data: a sample
    is a metric family, a value kind, an integer value and the values of its
    variable labels. The records the client returns are reduced to the
    fields the exporters read. */
module Metrics {
  import Buckets

  datatype Kind = Counter | Gauge

  /** The metric families either exporter can emit. */
  datatype Metric =
    | DownloadedBytesTotal | UploadedBytesTotal | TorrentsAddedTotal | SecondsActiveTotal
    | SessionsTotal | UploadBytesPerSecond | DownloadBytesPerSecond | TorrentsByStatus | Version
    | TorrentDownloadBytesPerSecond | TorrentUploadBytesPerSecond | TorrentTotalSizeBytes
    | TorrentSizeWhenDoneBytes | TorrentLeftUntilDoneBytes | TorrentDownloadBytesTotal
    | TorrentUploadBytesTotal | TorrentCorruptBytesTotal | TorrentPeersConnected
    | TorrentPeersSendingToUs | TorrentPeersGettingFromUs | TorrentWebseedsSendingToUs
    | TorrentSecondsDownloadingTotal | TorrentSecondsSeedingTotal | TorrentStatus | TorrentInfo
  {
    /** A family with one series per torrent (labelled by its hash). */
    predicate IsTorrentLevel() {
      match this
      case DownloadedBytesTotal | UploadedBytesTotal | TorrentsAddedTotal | SecondsActiveTotal
         | SessionsTotal | UploadBytesPerSecond | DownloadBytesPerSecond | TorrentsByStatus | Version => false
      case _ => true
    }
  }

  datatype Sample = Sample(metric: Metric, kind: Kind, value: int, labels: seq<string>)

  /** The part of `SessionStatsResult` the exporters read. */
  datatype Stats = Stats(downloadedBytes: int, uploadedBytes: int, filesAdded: int,
                         secondsActive: int, sessionCount: int,
                         uploadSpeed: int, downloadSpeed: int)

  /** The part of `Torrent` the exporters read. */
  datatype Torrent = Torrent(hash: string, name: string, status: int,
                             rateDownload: int, rateUpload: int, totalSize: int,
                             sizeWhenDone: int, leftUntilDone: int, downloadedEver: int,
                             uploadedEver: int, corruptEver: int, peersConnected: int,
                             peersSendingToUs: int, peersGettingFromUs: int,
                             webseedsSendingToUs: int, secondsDownloading: int,
                             secondsSeeding: int)

  /** The seven samples taken from the session statistics: five
      cumulative counters, then the two current speeds, none labelled. */
  function StatsSamples(s: Stats): (ss: seq<Sample>)
    ensures |ss| == 7
    ensures forall i :: 0 <= i < 7 ==> ss[i].labels == [] && !ss[i].metric.IsTorrentLevel()
    ensures forall i :: 0 <= i < 7 ==> (ss[i].kind == Counter <==> i < 5)
    ensures ss[0].value == s.downloadedBytes && ss[1].value == s.uploadedBytes
    ensures ss[2].value == s.filesAdded && ss[3].value == s.secondsActive
    ensures ss[4].value == s.sessionCount && ss[5].value == s.uploadSpeed
    ensures ss[6].value == s.downloadSpeed
  {
    [Sample(DownloadedBytesTotal, Counter, s.downloadedBytes, []),
     Sample(UploadedBytesTotal, Counter, s.uploadedBytes, []),
     Sample(TorrentsAddedTotal, Counter, s.filesAdded, []),
     Sample(SecondsActiveTotal, Counter, s.secondsActive, []),
     Sample(SessionsTotal, Counter, s.sessionCount, []),
     Sample(UploadBytesPerSecond, Gauge, s.uploadSpeed, []),
     Sample(DownloadBytesPerSecond, Gauge, s.downloadSpeed, [])]
  }

  /** The families of the statistics samples, in the order they are sent. */
  const StatsFamilies: seq<Metric> := [
      DownloadedBytesTotal, UploadedBytesTotal, TorrentsAddedTotal, SecondsActiveTotal,
      SessionsTotal, UploadBytesPerSecond, DownloadBytesPerSecond
  ]

  /** Which statistic feeds which family: sample i belongs to
      `StatsFamilies[i]`. */
  lemma StatsSamplesFields(s: Stats)
    ensures forall i :: 0 <= i < 7 ==> StatsSamples(s)[i].metric == StatsFamilies[i]
  {
  }

  /** The statistics samples are all global: no version, no status. */
  lemma StatsSamplesGlobal(s: Stats)
    ensures Without(StatsSamples(s), Version) && Without(StatsSamples(s), TorrentStatus)
  {
  }

  /** The fourteen per-torrent samples both exporters emit before the
      optional status sample and the info sample. */
  function RateSamples(t: Torrent): (ss: seq<Sample>)
    ensures |ss| == 14
    ensures forall i :: 0 <= i < 14 ==> ss[i].labels == [t.hash] && ss[i].metric.IsTorrentLevel()
  {
    [Sample(TorrentDownloadBytesPerSecond, Gauge, t.rateDownload, [t.hash]),
     Sample(TorrentUploadBytesPerSecond, Gauge, t.rateUpload, [t.hash]),
     Sample(TorrentTotalSizeBytes, Gauge, t.totalSize, [t.hash]),
     Sample(TorrentSizeWhenDoneBytes, Gauge, t.sizeWhenDone, [t.hash]),
     Sample(TorrentLeftUntilDoneBytes, Gauge, t.leftUntilDone, [t.hash]),
     Sample(TorrentDownloadBytesTotal, Counter, t.downloadedEver, [t.hash]),
     Sample(TorrentUploadBytesTotal, Counter, t.uploadedEver, [t.hash]),
     Sample(TorrentCorruptBytesTotal, Counter, t.corruptEver, [t.hash]),
     Sample(TorrentPeersConnected, Gauge, t.peersConnected, [t.hash]),
     Sample(TorrentPeersSendingToUs, Gauge, t.peersSendingToUs, [t.hash]),
     Sample(TorrentPeersGettingFromUs, Gauge, t.peersGettingFromUs, [t.hash]),
     Sample(TorrentWebseedsSendingToUs, Gauge, t.webseedsSendingToUs, [t.hash]),
     Sample(TorrentSecondsDownloadingTotal, Counter, t.secondsDownloading, [t.hash]),
     Sample(TorrentSecondsSeedingTotal, Counter, t.secondsSeeding, [t.hash])]
  }

  /** The families of the rate samples, in the order the loop sends them. */
  const RateFamilies: seq<Metric> := [
      TorrentDownloadBytesPerSecond, TorrentUploadBytesPerSecond,
      TorrentTotalSizeBytes, TorrentSizeWhenDoneBytes,
      TorrentLeftUntilDoneBytes, TorrentDownloadBytesTotal,
      TorrentUploadBytesTotal, TorrentCorruptBytesTotal,
      TorrentPeersConnected, TorrentPeersSendingToUs,
      TorrentPeersGettingFromUs, TorrentWebseedsSendingToUs,
      TorrentSecondsDownloadingTotal, TorrentSecondsSeedingTotal
  ]

  /** The torrent fields the rate samples carry, family by family. */
  function RateFields(t: Torrent): (vs: seq<int>)
    ensures |vs| == 14
  {
    [t.rateDownload, t.rateUpload, t.totalSize,
     t.sizeWhenDone, t.leftUntilDone, t.downloadedEver,
     t.uploadedEver, t.corruptEver, t.peersConnected,
     t.peersSendingToUs, t.peersGettingFromUs, t.webseedsSendingToUs,
     t.secondsDownloading, t.secondsSeeding]
  }

  /** Which torrent field feeds which family, sample by sample; the
      cumulative ones (bytes ever and seconds) are counters. */
  lemma RateSamplesFields(t: Torrent)
    ensures forall i :: 0 <= i < 14 ==>
              && RateSamples(t)[i].metric == RateFamilies[i]
              && RateSamples(t)[i].value == RateFields(t)[i]
              && (RateSamples(t)[i].kind == Counter <==> i in {5, 6, 7, 12, 13})
  {
  }

  /** No family repeats within a torrent's rate samples, nor within the
      statistics samples: each field feeds a family of its own. */
  lemma SampleFamiliesDistinct(s: Stats, t: Torrent)
    ensures forall i, j :: 0 <= i < j < 14 ==> RateSamples(t)[i].metric != RateSamples(t)[j].metric
    ensures forall i, j :: 0 <= i < j < 7 ==> StatsSamples(s)[i].metric != StatsSamples(s)[j].metric
  {
    RateSamplesFields(t);
    StatsSamplesFields(s);
    FamilyTablesDistinct();
  }

  lemma FamilyTablesDistinct()
    ensures forall i, j :: 0 <= i < j < |RateFamilies| ==> RateFamilies[i] != RateFamilies[j]
    ensures forall i, j :: 0 <= i < j < |StatsFamilies| ==> StatsFamilies[i] != StatsFamilies[j]
  {
  }

  /** How many samples one torrent yields. */
  function BlockSize(withStatus: bool): nat {
    if withStatus then 16 else 15
  }

  /** Where torrent `j`'s samples start in the loop's output: `j` blocks
      in (written per case, to keep the arithmetic linear). */
  function BlockStart(withStatus: bool, j: nat): nat {
    if withStatus then 16 * j else 15 * j
  }

  /** All samples of one torrent: the rate samples, the raw status when
      the exporter has that family, and last the info sample. */
  function TorrentSamples(t: Torrent, withStatus: bool): (ss: seq<Sample>)
    ensures |ss| == BlockSize(withStatus)
  {
    var rates := RateSamples(t);
    var status := if withStatus then [Sample(TorrentStatus, Gauge, t.status, [t.hash])] else [];
    rates + status + [Sample(TorrentInfo, Gauge, 1, [t.hash, t.name])]
  }

  /** Every sample of a torrent's block is torrent-level and led by its
      hash; the info sample, last, also carries its name; the status
      sample, when present, holds its raw status, and is absent otherwise. */
  lemma TorrentSamplesShape(t: Torrent, withStatus: bool)
    ensures var ss := TorrentSamples(t, withStatus);
            (forall i :: 0 <= i < |ss| ==> ss[i].metric.IsTorrentLevel() && |ss[i].labels| >= 1 && ss[i].labels[0] == t.hash)
            && ss[|ss| - 1] == Sample(TorrentInfo, Gauge, 1, [t.hash, t.name])
            && (forall i :: 0 <= i < |ss| - 1 ==> ss[i].labels == [t.hash])
            && (withStatus ==> ss[14] == Sample(TorrentStatus, Gauge, t.status, [t.hash]))
            && (!withStatus ==> Without(ss, TorrentStatus))
  {
  }

  /** The samples of the per-torrent loop, torrent after torrent; none at
      all when torrent-level metrics are off. */
  function PerTorrent(enabled: bool, ts: seq<Torrent>, withStatus: bool): (ss: seq<Sample>)
    ensures |ss| == if enabled then BlockStart(withStatus, |ts|) else 0
    decreases |ts|
  {
    if !enabled || |ts| == 0 then []
    else TorrentSamples(ts[0], withStatus) + PerTorrent(enabled, ts[1..], withStatus)
  }

  /** The loop emits torrent-level samples only. */
  lemma {:induction false} PerTorrentIsTorrentLevel(enabled: bool, ts: seq<Torrent>, withStatus: bool)
    ensures forall i :: 0 <= i < |PerTorrent(enabled, ts, withStatus)| ==> PerTorrent(enabled, ts, withStatus)[i].metric.IsTorrentLevel()
    decreases |ts|
  {
    if enabled && |ts| > 0 {
      var first: seq<Sample> := TorrentSamples(ts[0], withStatus);
      var rest: seq<Sample> := PerTorrent(enabled, ts[1..], withStatus);
      TorrentSamplesShape(ts[0], withStatus);
      PerTorrentIsTorrentLevel(enabled, ts[1..], withStatus);
      forall i | 0 <= i < |first + rest|
        ensures (first + rest)[i].metric.IsTorrentLevel()
      {
        if i >= |first| {
          assert (first + rest)[i] == rest[i - |first|];
        }
      }
    }
  }

  /** No sample of `ss` belongs to the family `m`. */
  predicate Without(ss: seq<Sample>, m: Metric) {
    forall i :: 0 <= i < |ss| ==> ss[i].metric != m
  }

  lemma {:induction false} WithoutAppend(a: seq<Sample>, b: seq<Sample>, m: Metric)
    requires Without(a, m) && Without(b, m)
    ensures Without(a + b, m)
  {
    forall i | 0 <= i < |a + b|
      ensures (a + b)[i].metric != m
    {
      if i >= |a| {
        assert (a + b)[i] == b[i - |a|];
      }
    }
  }

  /** Without the status family, the loop emits no status sample. */
  lemma {:induction false} PerTorrentNoStatus(enabled: bool, ts: seq<Torrent>)
    ensures Without(PerTorrent(enabled, ts, false), TorrentStatus)
    decreases |ts|
  {
    if enabled && |ts| > 0 {
      PerTorrentNoStatus(enabled, ts[1..]);
      TorrentSamplesShape(ts[0], false);
      WithoutAppend(TorrentSamples(ts[0], false), PerTorrent(enabled, ts[1..], false), TorrentStatus);
    }
  }

  /** Block `j` of the loop's samples belongs to torrent `j`: its hash on
      every sample, and its info sample last. */
  lemma {:induction false} PerTorrentBlock(ts: seq<Torrent>, withStatus: bool, j: nat)
    requires j < |ts|
    ensures BlockStart(withStatus, j) + BlockSize(withStatus) <= |PerTorrent(true, ts, withStatus)|
    ensures PerTorrent(true, ts, withStatus)[BlockStart(withStatus, j) .. BlockStart(withStatus, j) + BlockSize(withStatus)]
            == TorrentSamples(ts[j], withStatus)
    decreases j
  {
    var whole := PerTorrent(true, ts, withStatus);
    var first := TorrentSamples(ts[0], withStatus);
    var rest := PerTorrent(true, ts[1..], withStatus);
    assert whole == first + rest;
    if j > 0 {
      PerTorrentBlock(ts[1..], withStatus, j - 1);
      assert ts[1..][j - 1] == ts[j];
      ShiftBlock(whole, first, rest, BlockStart(withStatus, j - 1), BlockStart(withStatus, j),
                 TorrentSamples(ts[j], withStatus));
    } else {
      PrefixOfAppend(first, rest);
    }
  }

  /** A block of `rest` keeps its contents, shifted by `|first|`, once
      `first` is put in front. */
  lemma {:induction false} ShiftBlock<T>(whole: seq<T>, first: seq<T>, rest: seq<T>, lo: nat, lo': nat, block: seq<T>)
    requires whole == first + rest && lo' == |first| + lo
    requires lo + |block| <= |rest| && rest[lo .. lo + |block|] == block
    ensures lo' + |block| <= |whole| && whole[lo' .. lo' + |block|] == block
  {
    SliceAfterPrefix(first, rest, lo, lo + |block|);
  }

  /** Torrent `j`'s block keeps its place once the loop's samples are
      framed by `head` in front and `tail` behind. */
  lemma {:induction false} FramedBlock(head: seq<Sample>, ts: seq<Torrent>, tail: seq<Sample>,
                                       withStatus: bool, j: nat)
    requires j < |ts|
    ensures |head| + BlockStart(withStatus, j) + BlockSize(withStatus)
            <= |head + (PerTorrent(true, ts, withStatus) + tail)|
    ensures (head + (PerTorrent(true, ts, withStatus) + tail))
              [|head| + BlockStart(withStatus, j) .. |head| + BlockStart(withStatus, j) + BlockSize(withStatus)]
            == TorrentSamples(ts[j], withStatus)
  {
    var body := PerTorrent(true, ts, withStatus);
    var lo := BlockStart(withStatus, j);
    var hi := lo + BlockSize(withStatus);
    PerTorrentBlock(ts, withStatus, j);
    SliceBeforeSuffix(body, tail, lo, hi);
    SliceAfterPrefix(head, body + tail, lo, hi);
  }

  /** Read off a torrent's block wherever it sits: its hash leads the
      labels of every sample, and the info sample comes last. */
  lemma {:induction false} BlockOfTorrent(samples: seq<Sample>, lo: nat, t: Torrent, withStatus: bool)
    requires lo + BlockSize(withStatus) <= |samples|
    requires samples[lo .. lo + BlockSize(withStatus)] == TorrentSamples(t, withStatus)
    ensures samples[lo + BlockSize(withStatus) - 1] == Sample(TorrentInfo, Gauge, 1, [t.hash, t.name])
    ensures forall k :: lo <= k < lo + BlockSize(withStatus) ==>
              |samples[k].labels| >= 1 && samples[k].labels[0] == t.hash
  {
    var n := BlockSize(withStatus);
    TorrentSamplesShape(t, withStatus);
    forall k | lo <= k < lo + n
      ensures |samples[k].labels| >= 1 && samples[k].labels[0] == t.hash
    {
      assert samples[lo .. lo + n][k - lo] == samples[k];
    }
    assert samples[lo .. lo + n][n - 1] == samples[lo + n - 1];
  }

  lemma AppendAssoc<T>(a: seq<T>, b: seq<T>, c: seq<T>)
    ensures a + b + c == a + (b + c)
  {
  }

  lemma PrefixOfAppend<T>(a: seq<T>, b: seq<T>)
    ensures (a + b)[0 .. |a|] == a
  {
  }

  lemma {:induction false} SliceBeforeSuffix<T>(a: seq<T>, b: seq<T>, lo: nat, hi: nat)
    requires lo <= hi <= |a|
    ensures (a + b)[lo .. hi] == a[lo .. hi]
  {
  }

  lemma {:induction false} SliceAfterPrefix<T>(a: seq<T>, b: seq<T>, lo: nat, hi: nat)
    requires lo <= hi <= |b|
    ensures (a + b)[|a| + lo .. |a| + hi] == b[lo .. hi]
  {
  }

  /** The bucket samples, one per key of `counts`, in the map's iteration
      order `order`, each labelled with its status label. */
  function BucketSamples(counts: map<string, int>, order: seq<string>): (ss: seq<Sample>)
    requires forall name :: name in order ==> name in counts
    ensures |ss| == |order|
    ensures forall i :: 0 <= i < |ss| ==> ss[i] == Sample(TorrentsByStatus, Gauge, counts[order[i]], [order[i]])
  {
    seq(|order|, i requires 0 <= i < |order| => Sample(TorrentsByStatus, Gauge, counts[order[i]], [order[i]]))
  }

  /** Sum of the values of `ss`. */
  function Total(ss: seq<Sample>): int
    decreases |ss|
  {
    if |ss| == 0 then 0 else ss[0].value + Total(ss[1..])
  }

  /** Exactly eight bucket samples, one per bucket label including the
      empty buckets, each carrying that label's count; together they
      account for every torrent. */
  lemma BucketSamplesCoverLabels(statuses: seq<int>, order: seq<string>)
    requires Buckets.Enumerates(order, Buckets.BucketLabels)
    ensures forall name :: name in order ==> name in Buckets.CountByStatus(statuses)
    ensures var ss := BucketSamples(Buckets.CountByStatus(statuses), order);
            |ss| == 8
            && (forall name :: name in Buckets.BucketLabels ==>
                  exists i :: 0 <= i < 8 && ss[i] == Sample(TorrentsByStatus, Gauge, Buckets.CountOf(statuses, name), [name]))
            && (forall i, j :: 0 <= i < j < 8 ==> ss[i].labels != ss[j].labels)
            && Total(ss) == |statuses|
  {
    Buckets.CountByStatusIsCount(statuses);
    Buckets.BucketLabelsDistinct();
    var counts := Buckets.CountByStatus(statuses);
    var ss := BucketSamples(counts, order);
    forall name | name in Buckets.BucketLabels
      ensures exists i :: 0 <= i < 8 && ss[i] == Sample(TorrentsByStatus, Gauge, Buckets.CountOf(statuses, name), [name])
    {
      var i :| 0 <= i < |order| && order[i] == name;
      assert ss[i] == Sample(TorrentsByStatus, Gauge, Buckets.CountOf(statuses, name), [name]);
    }
    forall i, j | 0 <= i < j < 8
      ensures ss[i].labels != ss[j].labels
    {
      assert ss[i].labels[0] == order[i] && ss[j].labels[0] == order[j];
    }
    Buckets.BucketsSumToTotal(statuses);
    TotalIsSumOver(counts, order);
    Buckets.SumOverPermutation(counts, order, Buckets.BucketLabels);
  }

  /** The bucket samples' values are the map's counts summed in `order`. */
  lemma {:induction false} TotalIsSumOver(counts: map<string, int>, order: seq<string>)
    requires forall name :: name in order ==> name in counts
    ensures Total(BucketSamples(counts, order)) == Buckets.SumOver(counts, order)
    decreases |order|
  {
    if |order| > 0 {
      TotalIsSumOver(counts, order[1..]);
      assert BucketSamples(counts, order)[1..] == BucketSamples(counts, order[1..]);
    }
  }
}
