/** The torrent side of the client: which torrents a call targets and how
    that selection is marshalled, the status label of a torrent, the
    parameters `TorrentGet` sends, and the default field list it asks for. */
module Torrents {
  import opened Wrappers
  import opened Json
  import Fields
  import Client

  // ---------------------------------------------------------------------
  // Torrent selection

  /** One raw identifier: an integer torrent id or a string hash. */
  datatype Id = Num(id: int) | Hash(hash: string)

  /** The value behind a non-nil `*TorrentIDs`: the recently-active sentinel,
      or the slice `NewTorrentIDs` received. A selection is an
      `Option<TorrentIds>`, `None` being the nil pointer. */
  datatype TorrentIds = RecentlyActive | Explicit(ids: Slice<Id>)

  const RecentlyActiveSentinel: string := "recently-active"

  /** `AllTorrents` is the nil pointer. */
  const AllTorrents: Option<TorrentIds> := None

  const RecentlyActiveTorrents: Option<TorrentIds> := Some(RecentlyActive)

  /** `NewTorrentIDs(ids...)`: always a non-nil selection. A call with no
      arguments passes a nil slice. */
  function NewTorrentIds(ids: Slice<Id>): (t: Option<TorrentIds>)
    ensures t.Some? && t.value.Explicit? && t.value.ids == ids
  {
    Some(Explicit(ids))
  }

  function IdJson(id: Id): (j: Json)
    ensures id.Num? ==> j == JNum(id.id)
    ensures id.Hash? ==> j == JStr(id.hash)
  {
    match id
    case Num(n) => JNum(n)
    case Hash(h) => JStr(h)
  }

  /** `TorrentIDs.MarshalJSON`: marshals whatever the value holds, so the
      sentinel becomes a string and the slice an array in the same order
      with each element keeping its number-or-string type; a nil slice
      marshals as `null`. */
  function MarshalIds(t: TorrentIds): (j: Json)
    ensures t.RecentlyActive? <==> j == JStr(RecentlyActiveSentinel)
    ensures t == Explicit(Nil) <==> j == JNull
    ensures t.Explicit? && t.ids.Slice? ==>
              j.JArr? && |j.elems| == |t.ids.items|
              && forall i :: 0 <= i < |t.ids.items| ==>
                   (t.ids.items[i].Num? ==> j.elems[i] == JNum(t.ids.items[i].id))
                   && (t.ids.items[i].Hash? ==> j.elems[i] == JStr(t.ids.items[i].hash))
  {
    match t
    case RecentlyActive => JStr(RecentlyActiveSentinel)
    case Explicit(Nil) => JNull
    case Explicit(Slice(xs)) => JArr(seq(|xs|, i requires 0 <= i < |xs| => IdJson(xs[i])))
  }

  // Reading a marshalled selection back: the partner of `MarshalIds`.

  function ParseId(j: Json): Option<Id> {
    match j
    case JNum(n) => Some(Num(n))
    case JStr(s) => Some(Hash(s))
    case _ => None
  }

  function ParseIdList(js: seq<Json>): Option<seq<Id>> {
    if |js| == 0 then Some([])
    else
      match (ParseId(js[0]), ParseIdList(js[1..]))
      case (Some(x), Some(xs)) => Some([x] + xs)
      case _ => None
  }

  function ParseIds(j: Json): Option<TorrentIds> {
    match j
    case JNull => Some(Explicit(Nil))
    case JStr(s) => if s == RecentlyActiveSentinel then Some(RecentlyActive) else None
    case JArr(es) =>
      (match ParseIdList(es)
       case Some(xs) => Some(Explicit(Slice(xs)))
       case None => None)
    case _ => None
  }

  lemma {:induction false} ParseIdListOfMarshalled(xs: seq<Id>)
    ensures ParseIdList(seq(|xs|, i requires 0 <= i < |xs| => IdJson(xs[i]))) == Some(xs)
  {
    var js := seq(|xs|, i requires 0 <= i < |xs| => IdJson(xs[i]));
    if |xs| > 0 {
      assert js[1..] == seq(|xs[1..]|, i requires 0 <= i < |xs[1..]| => IdJson(xs[1..][i]));
      ParseIdListOfMarshalled(xs[1..]);
      assert ParseId(js[0]) == Some(xs[0]);
      assert xs == [xs[0]] + xs[1..];
    }
  }

  /** Marshalling loses nothing: every selection is read back as itself, so
      two different selections never put the same value on the wire. */
  lemma MarshalIdsRoundTrip(t: TorrentIds)
    ensures ParseIds(MarshalIds(t)) == Some(t)
  {
    if t.Explicit? && t.ids.Slice? {
      ParseIdListOfMarshalled(t.ids.items);
    }
  }

  lemma MarshalIdsInjective(s: TorrentIds, t: TorrentIds)
    requires MarshalIds(s) == MarshalIds(t)
    ensures s == t
  {
    MarshalIdsRoundTrip(s);
    MarshalIdsRoundTrip(t);
  }

  /** The "ids" member of an arguments struct tagged `ids,omitempty`: absent
      for the nil pointer, the marshalled selection otherwise. */
  function IdsMember(sel: Option<TorrentIds>): (ms: seq<(string, Json)>)
    ensures sel.None? <==> ms == []
    ensures sel.Some? ==> ms == [("ids", MarshalIds(sel.value))]
  {
    match sel
    case None => []
    case Some(t) => [("ids", MarshalIds(t))]
  }

  /** `torrentIDsArgs{ids}`, the arguments of the start/stop/verify/
      reannounce and queue methods. */
  function IdsArgs(sel: Option<TorrentIds>): (j: Json)
    ensures j.JObj?
    ensures Get(j, "ids").Some? <==> sel.Some?
    ensures sel.Some? ==> Get(j, "ids") == Some(MarshalIds(sel.value))
  {
    JObj(IdsMember(sel))
  }

  /** The three shapes on the wire: no key, the sentinel, an array. */
  lemma SelectionShapes(ids: seq<Id>)
    ensures Get(IdsArgs(AllTorrents), "ids").None?
    ensures IdsArgs(AllTorrents) == JObj([])
    ensures Get(IdsArgs(RecentlyActiveTorrents), "ids") == Some(JStr("recently-active"))
    ensures Get(IdsArgs(NewTorrentIds(Slice(ids))), "ids").Some?
    ensures Get(IdsArgs(NewTorrentIds(Slice(ids))), "ids").value.JArr?
    ensures |Get(IdsArgs(NewTorrentIds(Slice(ids))), "ids").value.elems| == |ids|
  {
  }

  /** `NewTorrentIDs()` with no arguments still sends the key, with `null`. */
  lemma EmptySelectionIsNull()
    ensures Get(IdsArgs(NewTorrentIds(Nil)), "ids") == Some(JNull)
  {
  }

  // ---------------------------------------------------------------------
  // Status

  const StatusStopped: int := 0
  const StatusCheckWait: int := 1
  const StatusCheck: int := 2
  const StatusDownloadWait: int := 3
  const StatusDownload: int := 4
  const StatusSeedWait: int := 5
  const StatusSeed: int := 6

  const UnknownLabel: string := "unknown"

  /** `TorrentStatusByLabel`. */
  const StatusByLabel: map<int, string> := map[
    StatusStopped := "stopped",
    StatusCheckWait := "check_wait",
    StatusCheck := "check",
    StatusDownloadWait := "download_wait",
    StatusDownload := "download",
    StatusSeedWait := "seed_wait",
    StatusSeed := "seed"
  ]

  /** The seven labels in status order. */
  const StatusLabels: seq<string> := ["stopped", "check_wait", "check", "download_wait",
                                      "download", "seed_wait", "seed"]

  /** `TorrentStatus.String`: the label of a known status, "unknown" for
      any other value. */
  function StatusString(status: int): (name: string)
    ensures 0 <= status < 7 ==> name == StatusLabels[status]
    ensures !(0 <= status < 7) ==> name == UnknownLabel
  {
    if status in StatusByLabel then StatusByLabel[status] else UnknownLabel
  }

  /** The labels are pairwise distinct and none is "unknown", so a label
      names one status, or none. */
  lemma StatusLabelsDistinct()
    ensures |StatusLabels| == 7
    ensures forall i, j :: 0 <= i < j < 7 ==> StatusLabels[i] != StatusLabels[j]
    ensures UnknownLabel !in StatusLabels
  {
  }

  /** The status a label stands for: the inverse of `StatusString`. */
  function StatusOfLabel(name: string): Option<int> {
    if name == "stopped" then Some(0)
    else if name == "check_wait" then Some(1)
    else if name == "check" then Some(2)
    else if name == "download_wait" then Some(3)
    else if name == "download" then Some(4)
    else if name == "seed_wait" then Some(5)
    else if name == "seed" then Some(6)
    else None
  }

  lemma StatusLabelRoundTrip(status: int)
    ensures 0 <= status < 7 <==> StatusOfLabel(StatusString(status)) == Some(status)
    ensures !(0 <= status < 7) <==> StatusOfLabel(StatusString(status)).None?
  {
  }

  /** Two known statuses share a label only if they are equal; every
      unknown status shares the one fallback label. */
  lemma StatusStringInjective(s: int, t: int)
    requires 0 <= s < 7
    ensures StatusString(s) == StatusString(t) <==> s == t
  {
    StatusLabelRoundTrip(s);
    StatusLabelRoundTrip(t);
  }

  // ---------------------------------------------------------------------
  // TorrentGet

  /** `TorrentGetArgs`, the caller's side. */
  datatype TorrentGetArgs = TorrentGetArgs(ids: Option<TorrentIds>, fields: Slice<string>)

  const FormatObject: string := "object"

  /** `torrentGetArgs`: the selection (key omitted for all torrents), then
      "fields" and "format", which carry no `omitempty` and are always sent. */
  function TorrentGetParams(args: TorrentGetArgs): (j: Json)
    ensures j.JObj?
    ensures Keys(j.members) == (if args.ids.Some? then ["ids"] else []) + ["fields", "format"]
    ensures args.ids.Some? ==> Get(j, "ids") == Some(MarshalIds(args.ids.value))
    ensures Get(j, "fields") == Some(StringSlice(args.fields))
    ensures Get(j, "format") == Some(JStr("object"))
  {
    JObj(IdsMember(args.ids) + [("fields", StringSlice(args.fields)), ("format", JStr(FormatObject))])
  }

  /** `Client.TorrentGet`: a "torrent-get" call with those parameters. */
  function TorrentGet<R>(c: Client.Client, args: TorrentGetArgs, server: seq<Client.Reply>,
                         decode: string -> Result<Client.Response<R>, string>): (r: Client.Call<R>)
    ensures forall i :: 0 <= i < |r.sent| ==>
              var body := r.sent[i].body;
              Get(body, "method") == Some(JStr("torrent-get"))
              && Get(body, "arguments") == Some(TorrentGetParams(args))
  {
    Client.CallWithArgs(c, "torrent-get", TorrentGetParams(args), server, decode)
  }

  /** What a caller of `TorrentGet` gets back: success exactly when the
      final reply is a readable 200 whose body decodes to a "success"
      envelope, and then that envelope's arguments. */
  lemma TorrentGetSucceedsIff<R>(c: Client.Client, args: TorrentGetArgs, server: seq<Client.Reply>,
                                 decode: string -> Result<Client.Response<R>, string>)
    ensures var x := Client.Post(c, Client.RequestWithParamsBody("torrent-get", TorrentGetParams(args)), server);
            var r := TorrentGet(c, args, server, decode);
            && (r.outcome.Success? <==> (x.outcome.Success? && x.outcome.value.Bytes?
                                         && decode(x.outcome.value.text).Success?
                                         && decode(x.outcome.value.text).value.IsSuccess()))
            && (r.outcome.Success? ==> r.outcome.value == decode(x.outcome.value.text).value.arguments)
  {
    Client.CallSucceedsIff(c, Client.RequestWithParamsBody("torrent-get", TorrentGetParams(args)), server, decode);
  }

  // ---------------------------------------------------------------------
  // AllTorrentFields

  /** A struct whose fields are all exported, not embedded, and tagged
      `json:"<wire>,omitempty"`, from (Go name, Go type, wire name) rows. */
  function TaggedStruct(rows: seq<(string, string, string)>): (t: Fields.GoType)
    ensures t.Struct? && |t.fields| == |rows|
    ensures forall i :: 0 <= i < |rows| ==>
              t.fields[i] == Fields.Field(rows[i].0, true, false, Fields.Other(rows[i].1), rows[i].2 + ",omitempty")
  {
    Fields.Struct(seq(|rows|, i requires 0 <= i < |rows| =>
      Fields.Field(rows[i].0, true, false, Fields.Other(rows[i].1), rows[i].2 + ",omitempty")))
  }

  function WireColumn(rows: seq<(string, string, string)>): (ws: seq<string>)
    ensures |ws| == |rows| && forall i :: 0 <= i < |rows| ==> ws[i] == rows[i].2
  {
    seq(|rows|, i requires 0 <= i < |rows| => rows[i].2)
  }

  /** A plain wire name: not empty, not "-", no comma. */
  predicate PlainName(w: string) {
    w != "" && w != "-" && ',' !in w
  }

  /** The field list derived from such a struct is its wire column. */
  lemma TaggedStructFields(rows: seq<(string, string, string)>)
    requires forall i :: 0 <= i < |rows| ==> PlainName(rows[i].2)
    requires |rows| > 0
    ensures Fields.StructJSONFields(TaggedStruct(rows)) == Success(Slice(WireColumn(rows)))
  {
    var t := TaggedStruct(rows);
    Fields.FlatTaggedStruct(t.fields, WireColumn(rows));
  }

  /** Every wire name of a concatenation is plain when each part's are. */
  lemma EachPlainAppend(a: seq<(string, string, string)>, b: seq<(string, string, string)>)
    requires forall i :: 0 <= i < |a| ==> PlainName(a[i].2)
    requires forall i :: 0 <= i < |b| ==> PlainName(b[i].2)
    ensures forall i :: 0 <= i < |a + b| ==> PlainName((a + b)[i].2)
  {
    forall i | 0 <= i < |a + b|
      ensures PlainName((a + b)[i].2)
    {
      if i < |a| {
        assert (a + b)[i] == a[i];
      } else {
        assert (a + b)[i] == b[i - |a|];
      }
    }
  }

  /** The fields of `Torrent`, in declaration order, in blocks of ten rows
      (the table is checked block by block). */
  const TorrentRows0: seq<(string, string, string)> := [
      ("ActivityDate", "int64", "activityDate"),
      ("AddedDate", "int64", "addedDate"),
      ("Availability", "[]int64", "availability"),
      ("BandwidthPriority", "int64", "bandwidthPriority"),
      ("BytesCompleted", "[]int64", "bytesCompleted"),
      ("Comment", "string", "comment"),
      ("CorruptEver", "int64", "corruptEver"),
      ("Creator", "string", "creator"),
      ("DateCreated", "int64", "dateCreated"),
      ("DesiredAvailable", "int64", "desiredAvailable")
  ]

  const TorrentRows1: seq<(string, string, string)> := [
      ("DoneDate", "int64", "doneDate"),
      ("DownloadDir", "string", "downloadDir"),
      ("DownloadedEver", "int64", "downloadedEver"),
      ("DownloadLimit", "int64", "downloadLimit"),
      ("DownloadLimited", "bool", "downloadLimited"),
      ("EditDate", "int64", "editDate"),
      ("Error", "int64", "error"),
      ("ErrorString", "string", "errorString"),
      ("ETA", "int64", "eta"),
      ("ETAIdle", "int64", "etaIdle")
  ]

  const TorrentRows2: seq<(string, string, string)> := [
      ("FileCount", "int64", "fileCount"),
      ("Files", "[]TorrentFile", "files"),
      ("FileStats", "[]TorrentFileStat", "fileStats"),
      ("Group", "string", "group"),
      ("HashString", "string", "hashString"),
      ("HaveUnchecked", "int64", "haveUnchecked"),
      ("HaveValid", "int64", "haveValid"),
      ("HonorsSessionLimits", "bool", "honorsSessionLimits"),
      ("ID", "int64", "id"),
      ("IsFinished", "bool", "isFinished")
  ]

  const TorrentRows3: seq<(string, string, string)> := [
      ("IsPrivate", "bool", "isPrivate"),
      ("IsStalled", "bool", "isStalled"),
      ("Labels", "[]string", "labels"),
      ("LeftUntilDone", "int64", "leftUntilDone"),
      ("MagnetLink", "string", "magnetLink"),
      ("ManualAnnounceTime", "int64", "manualAnnounceTime"),
      ("MaxConnectedPeers", "int64", "maxConnectedPeers"),
      ("MetadataPercentComplete", "float64", "metadataPercentComplete"),
      ("Name", "string", "name"),
      ("PeerLimit", "int64", "peerLimit")
  ]

  const TorrentRows4: seq<(string, string, string)> := [
      ("Peers", "[]Peer", "peers"),
      ("PeersConnected", "int64", "peersConnected"),
      ("PeersFrom", "*PeersFrom", "peersFrom"),
      ("PeersGettingFromUs", "int64", "peersGettingFromUs"),
      ("PeersSendingToUs", "int64", "peersSendingToUs"),
      ("PercentComplete", "float64", "percentComplete"),
      ("PercentDone", "float64", "percentDone"),
      ("Pieces", "string", "pieces"),
      ("PieceCount", "int64", "pieceCount"),
      ("PieceSize", "int64", "pieceSize")
  ]

  const TorrentRows5: seq<(string, string, string)> := [
      ("Priorities", "[]int64", "priorities"),
      ("PrimaryMIMEType", "string", "primaryMimeType"),
      ("QueuePosition", "int64", "queuePosition"),
      ("RateDownload", "int64", "rateDownload"),
      ("RateUpload", "int64", "rateUpload"),
      ("RecheckProgress", "float64", "recheckProgress"),
      ("SecondsDownloading", "int64", "secondsDownloading"),
      ("SecondsSeeding", "int64", "secondsSeeding"),
      ("SeedIdleLimit", "int64", "seedIdleLimit"),
      ("SeedIdleMode", "int64", "seedIdleMode")
  ]

  const TorrentRows6: seq<(string, string, string)> := [
      ("SeedRatioLimit", "float64", "seedRatioLimit"),
      ("SeedRatioMode", "int64", "seedRatioMode"),
      ("SequentialDownload", "bool", "sequentialDownload"),
      ("SequentialDownloadFromPiece", "int64", "sequentialDownloadFromPiece"),
      ("SizeWhenDone", "int64", "sizeWhenDone"),
      ("StartDate", "int64", "startDate"),
      ("Status", "TorrentStatus", "status"),
      ("TorrentFile", "string", "torrentFile"),
      ("TotalSize", "int64", "totalSize"),
      ("Trackers", "[]Tracker", "trackers")
  ]

  const TorrentRows7: seq<(string, string, string)> := [
      ("TrackerList", "string", "trackerList"),
      ("TrackerStats", "[]TrackerStat", "trackerStats"),
      ("UploadedEver", "int64", "uploadedEver"),
      ("UploadLimit", "int64", "uploadLimit"),
      ("UploadLimited", "bool", "uploadLimited"),
      ("UploadRatio", "float64", "uploadRatio"),
      ("Wanted", "[]int64", "wanted"),
      ("Webseeds", "[]string", "webseeds"),
      ("WebseedsSendingToUs", "int64", "webseedsSendingToUs")
  ]

  const TorrentRows: seq<(string, string, string)> :=
    TorrentRows0 + TorrentRows1 + TorrentRows2 + TorrentRows3 + TorrentRows4 + TorrentRows5 + TorrentRows6 + TorrentRows7

  const TorrentType: Fields.GoType := TaggedStruct(TorrentRows)

  /** Plain tag names, checked chunk by chunk so that each proof stays small. */
  lemma TorrentRows0Plain()
    ensures forall i :: 0 <= i < |TorrentRows0| ==> PlainName(TorrentRows0[i].2)
  {
  }

  lemma TorrentRows1Plain()
    ensures forall i :: 0 <= i < |TorrentRows1| ==> PlainName(TorrentRows1[i].2)
  {
  }

  lemma TorrentRows2Plain()
    ensures forall i :: 0 <= i < |TorrentRows2| ==> PlainName(TorrentRows2[i].2)
  {
  }

  lemma TorrentRows3Plain()
    ensures forall i :: 0 <= i < |TorrentRows3| ==> PlainName(TorrentRows3[i].2)
  {
  }

  lemma TorrentRows4Plain()
    ensures forall i :: 0 <= i < |TorrentRows4| ==> PlainName(TorrentRows4[i].2)
  {
  }

  lemma TorrentRows5Plain()
    ensures forall i :: 0 <= i < |TorrentRows5| ==> PlainName(TorrentRows5[i].2)
  {
  }

  lemma TorrentRows6Plain()
    ensures forall i :: 0 <= i < |TorrentRows6| ==> PlainName(TorrentRows6[i].2)
  {
  }

  lemma TorrentRows7Plain()
    ensures forall i :: 0 <= i < |TorrentRows7| ==> PlainName(TorrentRows7[i].2)
  {
  }

  lemma TorrentRowsPlain()
    ensures forall i :: 0 <= i < |TorrentRows| ==> PlainName(TorrentRows[i].2)
  {
    TorrentRows0Plain();
    TorrentRows1Plain();
    TorrentRows2Plain();
    TorrentRows3Plain();
    TorrentRows4Plain();
    TorrentRows5Plain();
    TorrentRows6Plain();
    TorrentRows7Plain();
    EachPlainAppend(TorrentRows0, TorrentRows1);
    EachPlainAppend(TorrentRows0 + TorrentRows1, TorrentRows2);
    EachPlainAppend(TorrentRows0 + TorrentRows1 + TorrentRows2, TorrentRows3);
    EachPlainAppend(TorrentRows0 + TorrentRows1 + TorrentRows2 + TorrentRows3, TorrentRows4);
    EachPlainAppend(TorrentRows0 + TorrentRows1 + TorrentRows2 + TorrentRows3 + TorrentRows4, TorrentRows5);
    EachPlainAppend(TorrentRows0 + TorrentRows1 + TorrentRows2 + TorrentRows3 + TorrentRows4 + TorrentRows5, TorrentRows6);
    EachPlainAppend(TorrentRows0 + TorrentRows1 + TorrentRows2 + TorrentRows3 + TorrentRows4 + TorrentRows5 + TorrentRows6, TorrentRows7);
  }

  /** `AllTorrentFields = structJSONFields[Torrent]()`. */
  const AllTorrentFields: Slice<string> := Fields.StructJSONFields(TorrentType).value

  /** The wire names of `Torrent` in declaration order: 79 of them, from
      "activityDate" to "webseedsSendingToUs". */
  lemma AllTorrentFieldsValue()
    ensures AllTorrentFields == Slice(WireColumn(TorrentRows))
    ensures |AllTorrentFields.items| == 79
    ensures AllTorrentFields.items[0] == "activityDate"
    ensures AllTorrentFields.items[78] == "webseedsSendingToUs"
  {
    TorrentRowsPlain();
    TaggedStructFields(TorrentRows);
  }
}
