/** The exporter's histogram of torrents by status label: the starting
    map of eight zero buckets, the per-torrent increment, and the order in
    which the buckets are emitted. Both exporter versions share it. */
module Buckets {
  import Torrents

  /** The eight bucket keys: the seven status labels, then "unknown". */
  const BucketLabels: seq<string> := Torrents.StatusLabels + [Torrents.UnknownLabel]

  predicate Distinct(xs: seq<string>) {
    forall i, j :: 0 <= i < j < |xs| ==> xs[i] != xs[j]
  }

  lemma BucketLabelsDistinct()
    ensures |BucketLabels| == 8
    ensures Distinct(BucketLabels)
    ensures BucketLabels[7] == Torrents.UnknownLabel
  {
    Torrents.StatusLabelsDistinct();
  }

  /** Every label `TorrentStatus.String` can produce names a bucket. */
  lemma StatusHasBucket(status: int)
    ensures Torrents.StatusString(status) in BucketLabels
  {
    if 0 <= status < 7 {
      assert BucketLabels[status] == Torrents.StatusLabels[status];
    } else {
      assert BucketLabels[7] == Torrents.UnknownLabel;
    }
  }

  /** `newTorrentCountByStatus`: a zero for every label of
      `TorrentStatusByLabel`, then a zero for "unknown". */
  function NewTorrentCountByStatus(): (m: map<string, int>)
    ensures forall name :: name in m <==> name in BucketLabels
    ensures forall name :: name in m ==> m[name] == 0
  {
    assert Torrents.StatusByLabel.Values == {"stopped", "check_wait", "check", "download_wait",
                                             "download", "seed_wait", "seed"} by {
      assert Torrents.StatusByLabel[0] == "stopped";
      assert Torrents.StatusByLabel[1] == "check_wait";
      assert Torrents.StatusByLabel[2] == "check";
      assert Torrents.StatusByLabel[3] == "download_wait";
      assert Torrents.StatusByLabel[4] == "download";
      assert Torrents.StatusByLabel[5] == "seed_wait";
      assert Torrents.StatusByLabel[6] == "seed";
    }
    map name | name in Torrents.StatusByLabel.Values + {Torrents.UnknownLabel} :: 0
  }

  /** `torrentCountByStatus[torrent.Status.String()]++`: a missing key
      reads as zero, as for any Go map. */
  function Increment(m: map<string, int>, status: int): (m': map<string, int>)
    ensures forall name :: name in m' <==> name in m || name == Torrents.StatusString(status)
    ensures Torrents.StatusString(status) in m ==>
              m'[Torrents.StatusString(status)] == m[Torrents.StatusString(status)] + 1
    ensures Torrents.StatusString(status) !in m ==> m'[Torrents.StatusString(status)] == 1
    ensures forall name :: name in m && name != Torrents.StatusString(status) ==> m'[name] == m[name]
  {
    var key := Torrents.StatusString(status);
    m[key := (if key in m then m[key] else 0) + 1]
  }

  /** The counts after the loop over `statuses`, in the order the loop
      visits them. */
  function CountByStatus(statuses: seq<int>): (m: map<string, int>)
    ensures forall name :: name in m <==> name in BucketLabels
    decreases |statuses|
  {
    if |statuses| == 0 then NewTorrentCountByStatus()
    else
      StatusHasBucket(statuses[|statuses| - 1]);
      Increment(CountByStatus(statuses[..|statuses| - 1]), statuses[|statuses| - 1])
  }

  /** Reference: how many of `statuses` carry the label `name`. */
  function CountOf(statuses: seq<int>, name: string): nat
    decreases |statuses|
  {
    if |statuses| == 0 then 0
    else CountOf(statuses[..|statuses| - 1], name)
         + (if Torrents.StatusString(statuses[|statuses| - 1]) == name then 1 else 0)
  }

  /** The loop never adds or drops a key, and every bucket ends up holding
      the number of torrents with that label. */
  lemma {:induction false} CountByStatusIsCount(statuses: seq<int>)
    ensures forall name :: name in BucketLabels ==> CountByStatus(statuses)[name] == CountOf(statuses, name)
    decreases |statuses|
  {
    if |statuses| > 0 {
      CountByStatusIsCount(statuses[..|statuses| - 1]);
    }
  }

  /** Any enumeration of the bucket labels visits only keys the counting
      loop's map holds. */
  lemma {:induction false} OrderedKeysCounted(statuses: seq<int>, order: seq<string>)
    requires Enumerates(order, BucketLabels)
    ensures forall name :: name in order ==> name in CountByStatus(statuses)
  {
  }

  /** Sum of the counts of `names` in `m`. */
  function SumOver(m: map<string, int>, names: seq<string>): int
    requires forall name :: name in names ==> name in m
    decreases |names|
  {
    if |names| == 0 then 0 else m[names[0]] + SumOver(m, names[1..])
  }

  lemma {:induction false} SumOverZero(m: map<string, int>, names: seq<string>)
    requires forall name :: name in names ==> name in m && m[name] == 0
    ensures SumOver(m, names) == 0
    decreases |names|
  {
    if |names| > 0 {
      SumOverZero(m, names[1..]);
    }
  }

  /** Raising one key that `names` lists exactly once raises the sum by one. */
  lemma {:induction false} SumOverIncrement(m: map<string, int>, names: seq<string>, status: int)
    requires forall name :: name in names ==> name in m
    requires Distinct(names)
    requires Torrents.StatusString(status) in names
    ensures forall name :: name in names ==> name in Increment(m, status)
    ensures SumOver(Increment(m, status), names) == SumOver(m, names) + 1
    decreases |names|
  {
    var key := Torrents.StatusString(status);
    if names[0] == key {
      assert key !in names[1..] by {
        forall i | 0 <= i < |names[1..]|
          ensures names[1..][i] != key
        {
          assert names[1..][i] == names[i + 1];
        }
      }
      SumOverUnchanged(m, Increment(m, status), names[1..]);
    } else {
      assert key in names[1..] by {
        var i :| 0 <= i < |names| && names[i] == key;
        assert names[1..][i - 1] == key;
      }
      assert Distinct(names[1..]) by {
        forall i, j | 0 <= i < j < |names[1..]|
          ensures names[1..][i] != names[1..][j]
        {
          assert names[1..][i] == names[i + 1] && names[1..][j] == names[j + 1];
        }
      }
      SumOverIncrement(m, names[1..], status);
    }
  }

  /** Two maps that agree on `names` have the same sum over them. */
  lemma {:induction false} SumOverUnchanged(m: map<string, int>, m': map<string, int>, names: seq<string>)
    requires forall name :: name in names ==> name in m && name in m' && m[name] == m'[name]
    ensures SumOver(m, names) == SumOver(m', names)
    decreases |names|
  {
    if |names| > 0 {
      SumOverUnchanged(m, m', names[1..]);
    }
  }

  /** Removing one entry of `names` takes its count out of the sum. */
  lemma {:induction false} SumOverRemove(m: map<string, int>, names: seq<string>, k: nat)
    requires forall name :: name in names ==> name in m
    requires k < |names|
    ensures forall name :: name in names[..k] + names[k + 1..] ==> name in m
    ensures SumOver(m, names) == m[names[k]] + SumOver(m, names[..k] + names[k + 1..])
    decreases k
  {
    var rest := names[..k] + names[k + 1..];
    RemoveWithin(names, k);
    if k > 0 {
      var tail := names[1..];
      SumOverRemove(m, tail, k - 1);
      assert tail[..k - 1] + tail[k..] == rest[1..];
      assert SumOver(m, rest) == m[rest[0]] + SumOver(m, rest[1..]);
    } else {
      assert rest == names[1..];
    }
  }

  /** What is left after dropping entry `k` was all in the list. */
  lemma RemoveWithin<T>(xs: seq<T>, k: nat)
    requires k < |xs|
    ensures forall x :: x in xs[..k] + xs[k + 1..] ==> x in xs
  {
    forall x | x in xs[..k] + xs[k + 1..]
      ensures x in xs
    {
      if x in xs[..k] {
        var j :| 0 <= j < k && xs[..k][j] == x;
        assert xs[j] == x;
      } else {
        var j :| 0 <= j < |xs| - k - 1 && xs[k + 1..][j] == x;
        assert xs[k + 1 + j] == x;
      }
    }
  }

  /** Summing over any enumeration of the same distinct keys gives the
      same total: the order a map is ranged over does not matter. */
  lemma {:induction false} SumOverPermutation(m: map<string, int>, order: seq<string>, names: seq<string>)
    requires Enumerates(order, names) && Distinct(names)
    requires forall name :: name in names ==> name in m
    ensures forall name :: name in order ==> name in m
    ensures SumOver(m, order) == SumOver(m, names)
    decreases |order|
  {
    if |order| > 0 {
      assert order[0] in names by {
        assert order[0] in order;
      }
      var k :| 0 <= k < |names| && names[k] == order[0];
      var rest := names[..k] + names[k + 1..];
      SumOverRemove(m, names, k);
      RemoveDistinct(names, k);
      RemoveDistinct(order, 0);
      var tail := order[1..];
      assert order[..0] + order[1..] == tail;
      forall name | name in tail
        ensures name in rest
      {
        assert name in order && name != order[0];
        assert name in names;
      }
      forall name | name in rest
        ensures name in tail
      {
        assert name in names && name != names[k];
        assert name in order;
      }
      SumOverPermutation(m, tail, rest);
    }
  }

  /** Dropping entry `k` of a list of distinct names leaves distinct names:
      all the others, and only them. */
  lemma RemoveDistinct(names: seq<string>, k: nat)
    requires Distinct(names) && k < |names|
    ensures Distinct(names[..k] + names[k + 1..])
    ensures forall name :: name in names[..k] + names[k + 1..] <==> name in names && name != names[k]
  {
    var rest := names[..k] + names[k + 1..];
    forall i, j | 0 <= i < j < |rest|
      ensures rest[i] != rest[j]
    {
      var i' := if i < k then i else i + 1;
      var j' := if j < k then j else j + 1;
      assert rest[i] == names[i'] && rest[j] == names[j'];
    }
    forall name | name in names && name != names[k]
      ensures name in rest
    {
      var j :| 0 <= j < |names| && names[j] == name;
      if j < k {
        assert rest[j] == name;
      } else {
        assert rest[j - 1] == name;
      }
    }
    forall name | name in rest
      ensures name in names && name != names[k]
    {
      var j :| 0 <= j < |rest| && rest[j] == name;
      var j' := if j < k then j else j + 1;
      assert names[j'] == name;
    }
  }

  /** The eight buckets add up to the number of torrents returned: every
      torrent lands in exactly one bucket. */
  lemma {:induction false} BucketsSumToTotal(statuses: seq<int>)
    ensures forall name :: name in BucketLabels ==> name in CountByStatus(statuses)
    ensures SumOver(CountByStatus(statuses), BucketLabels) == |statuses|
    decreases |statuses|
  {
    CountByStatusIsCount(statuses);
    BucketLabelsDistinct();
    if |statuses| == 0 {
      SumOverZero(NewTorrentCountByStatus(), BucketLabels);
    } else {
      var front := statuses[..|statuses| - 1];
      BucketsSumToTotal(front);
      StatusHasBucket(statuses[|statuses| - 1]);
      SumOverIncrement(CountByStatus(front), BucketLabels, statuses[|statuses| - 1]);
    }
  }

  /** The counting loop, written as the loop it is. */
  method Tally(statuses: seq<int>) returns (counts: map<string, int>)
    ensures forall name :: name in counts <==> name in BucketLabels
    ensures forall name :: name in BucketLabels ==> counts[name] == CountOf(statuses, name)
  {
    counts := NewTorrentCountByStatus();
    var i := 0;
    while i < |statuses|
      invariant 0 <= i <= |statuses|
      invariant forall name :: name in counts <==> name in BucketLabels
      invariant forall name :: name in BucketLabels ==> counts[name] == CountOf(statuses[..i], name)
    {
      TallyStep(statuses, i, counts);
      counts := Increment(counts, statuses[i]);
      i := i + 1;
    }
    assert statuses[..i] == statuses;
  }

  /** One turn of the counting loop keeps the keys and counts one more
      torrent. */
  lemma TallyStep(statuses: seq<int>, i: nat, counts: map<string, int>)
    requires i < |statuses|
    requires forall name :: name in counts <==> name in BucketLabels
    requires forall name :: name in BucketLabels ==> counts[name] == CountOf(statuses[..i], name)
    ensures forall name :: name in Increment(counts, statuses[i]) <==> name in BucketLabels
    ensures forall name :: name in BucketLabels ==>
              Increment(counts, statuses[i])[name] == CountOf(statuses[..i + 1], name)
  {
    StatusHasBucket(statuses[i]);
    assert statuses[..i + 1][..i] == statuses[..i];
  }

  /** `order` lists each of `names` exactly once: an iteration order of a
      map whose keys are `names`. */
  predicate Enumerates(order: seq<string>, names: seq<string>) {
    |order| == |names| && Distinct(order)
    && (forall name :: name in order ==> name in names)
    && (forall name :: name in names ==> name in order)
  }
}
