/** The older copy of the torrent API at the repository root. Its
    selection type and `torrentIDsArgs` are the same as in `Torrents` and
    are not repeated; what differs is the `Torrent` struct, whose tags are
    snake_case, and `TorrentGet`, which takes only a selection and always
    asks for every field. */
module LegacyTorrents {
  import opened Wrappers
  import opened Json
  import Fields
  import Client
  import Torrents

  /** The fields of the root `Torrent`, in declaration order, in blocks of
      ten rows. */
  const LegacyRows0: seq<(string, string, string)> := [
      ("ActivityDate", "int64", "activity_date"),
      ("AddedDate", "int64", "added_date"),
      ("Availability", "[]int64", "availability"),
      ("BandwidthPriority", "int64", "bandwidth_priority"),
      ("BytesCompleted", "[]int64", "bytes_completed"),
      ("Comment", "string", "comment"),
      ("CorruptEver", "int64", "corrupt_ever"),
      ("Creator", "string", "creator"),
      ("DateCreated", "int64", "date_created"),
      ("DesiredAvailable", "int64", "desired_available")
  ]

  const LegacyRows1: seq<(string, string, string)> := [
      ("DoneDate", "int64", "done_date"),
      ("DownloadDir", "string", "download_dir"),
      ("DownloadedEver", "int64", "downloaded_ever"),
      ("DownloadLimit", "int64", "download_limit"),
      ("DownloadLimited", "bool", "download_limited"),
      ("EditDate", "int64", "edit_date"),
      ("Error", "int64", "error"),
      ("ErrorString", "string", "error_string"),
      ("ETA", "int64", "eta"),
      ("ETAIdle", "int64", "eta_idle")
  ]

  const LegacyRows2: seq<(string, string, string)> := [
      ("FileCount", "int64", "file_count"),
      ("Files", "[]TorrentFile", "files"),
      ("FileStats", "[]TorrentFileStat", "file_stats"),
      ("Group", "string", "group"),
      ("HashString", "string", "hash_string"),
      ("HaveUnchecked", "int64", "have_unchecked"),
      ("HaveValid", "int64", "have_valid"),
      ("HonorsSessionLimits", "bool", "honors_session_limits"),
      ("ID", "int64", "id"),
      ("IsFinished", "bool", "is_finished")
  ]

  const LegacyRows3: seq<(string, string, string)> := [
      ("IsPrivate", "bool", "is_private"),
      ("IsStalled", "bool", "is_stalled"),
      ("Labels", "[]string", "labels"),
      ("LeftUntilDone", "int64", "left_until_done"),
      ("MagnetLink", "string", "magnet_link"),
      ("ManualAnnounceTime", "int64", "manual_announce_time"),
      ("MaxConnectedPeers", "int64", "max_connected_peers"),
      ("MetadataPercentComplete", "float64", "metadata_percent_complete"),
      ("Name", "string", "name"),
      ("PeerLimit", "int64", "peer_limit")
  ]

  const LegacyRows4: seq<(string, string, string)> := [
      ("Peers", "[]Peer", "peers"),
      ("PeersConnected", "int64", "peers_connected"),
      ("PeersFrom", "*PeersFrom", "peers_from"),
      ("PeersGettingFromUs", "int64", "peers_getting_from_us"),
      ("PeersSendingToUs", "int64", "peers_sending_to_us"),
      ("PercentComplete", "float64", "percent_complete"),
      ("PercentDone", "float64", "percent_done"),
      ("Pieces", "string", "pieces"),
      ("PieceCount", "int64", "piece_count"),
      ("PieceSize", "int64", "piece_size")
  ]

  const LegacyRows5: seq<(string, string, string)> := [
      ("Priorities", "[]int64", "priorities"),
      ("PrimaryMIMEType", "string", "primary_mime_type"),
      ("QueuePosition", "int64", "queue_position"),
      ("RateDownload", "int64", "rate_download"),
      ("RateUpload", "int64", "rate_upload"),
      ("RecheckProgress", "float64", "recheck_progress"),
      ("SecondsDownloading", "int64", "seconds_downloading"),
      ("SecondsSeeding", "int64", "seconds_seeding"),
      ("SeedIdleLimit", "int64", "seed_idle_limit"),
      ("SeedIdleMode", "int64", "seed_idle_mode")
  ]

  const LegacyRows6: seq<(string, string, string)> := [
      ("SeedRatioLimit", "float64", "seed_ratio_limit"),
      ("SeedRatioMode", "int64", "seed_ratio_mode"),
      ("SequentialDownload", "bool", "sequential_download"),
      ("SequentialDownloadFromPiece", "int64", "sequential_download_from_piece"),
      ("SizeWhenDone", "int64", "size_when_done"),
      ("StartDate", "int64", "start_date"),
      ("Status", "int64", "status"),
      ("TorrentFile", "string", "torrent_file"),
      ("TotalSize", "int64", "total_size"),
      ("Trackers", "[]Tracker", "trackers")
  ]

  const LegacyRows7: seq<(string, string, string)> := [
      ("TrackerList", "string", "tracker_list"),
      ("TrackerStats", "[]TrackerStat", "tracker_stats"),
      ("UploadedEver", "int64", "uploaded_ever"),
      ("UploadLimit", "int64", "upload_limit"),
      ("UploadLimited", "bool", "upload_limited"),
      ("UploadRatio", "float64", "upload_ratio"),
      ("Wanted", "[]int64", "wanted"),
      ("Webseeds", "[]string", "webseeds"),
      ("WebseedsSendingToUs", "int64", "webseeds_sending_to_us")
  ]

  const LegacyRows: seq<(string, string, string)> :=
    LegacyRows0 + LegacyRows1 + LegacyRows2 + LegacyRows3 + LegacyRows4 + LegacyRows5 + LegacyRows6 + LegacyRows7

  const LegacyTorrentType: Fields.GoType := Torrents.TaggedStruct(LegacyRows)

  /** Plain tag names, checked chunk by chunk so that each proof stays small. */
  lemma LegacyRows0Plain()
    ensures forall i :: 0 <= i < |LegacyRows0| ==> Torrents.PlainName(LegacyRows0[i].2)
  {
  }

  lemma LegacyRows1Plain()
    ensures forall i :: 0 <= i < |LegacyRows1| ==> Torrents.PlainName(LegacyRows1[i].2)
  {
  }

  lemma LegacyRows2Plain()
    ensures forall i :: 0 <= i < |LegacyRows2| ==> Torrents.PlainName(LegacyRows2[i].2)
  {
  }

  lemma LegacyRows3Plain()
    ensures forall i :: 0 <= i < |LegacyRows3| ==> Torrents.PlainName(LegacyRows3[i].2)
  {
  }

  lemma LegacyRows4Plain()
    ensures forall i :: 0 <= i < |LegacyRows4| ==> Torrents.PlainName(LegacyRows4[i].2)
  {
  }

  lemma LegacyRows5Plain()
    ensures forall i :: 0 <= i < |LegacyRows5| ==> Torrents.PlainName(LegacyRows5[i].2)
  {
  }

  lemma LegacyRows6Plain()
    ensures forall i :: 0 <= i < |LegacyRows6| ==> Torrents.PlainName(LegacyRows6[i].2)
  {
  }

  lemma LegacyRows7Plain()
    ensures forall i :: 0 <= i < |LegacyRows7| ==> Torrents.PlainName(LegacyRows7[i].2)
  {
  }

  lemma LegacyRowsPlain()
    ensures forall i :: 0 <= i < |LegacyRows| ==> Torrents.PlainName(LegacyRows[i].2)
  {
    LegacyRows0Plain();
    LegacyRows1Plain();
    LegacyRows2Plain();
    LegacyRows3Plain();
    LegacyRows4Plain();
    LegacyRows5Plain();
    LegacyRows6Plain();
    LegacyRows7Plain();
    Torrents.EachPlainAppend(LegacyRows0, LegacyRows1);
    Torrents.EachPlainAppend(LegacyRows0 + LegacyRows1, LegacyRows2);
    Torrents.EachPlainAppend(LegacyRows0 + LegacyRows1 + LegacyRows2, LegacyRows3);
    Torrents.EachPlainAppend(LegacyRows0 + LegacyRows1 + LegacyRows2 + LegacyRows3, LegacyRows4);
    Torrents.EachPlainAppend(LegacyRows0 + LegacyRows1 + LegacyRows2 + LegacyRows3 + LegacyRows4, LegacyRows5);
    Torrents.EachPlainAppend(LegacyRows0 + LegacyRows1 + LegacyRows2 + LegacyRows3 + LegacyRows4 + LegacyRows5, LegacyRows6);
    Torrents.EachPlainAppend(LegacyRows0 + LegacyRows1 + LegacyRows2 + LegacyRows3 + LegacyRows4 + LegacyRows5 + LegacyRows6, LegacyRows7);
  }

  /** `allTorrentFields = structJSONFields[Torrent]()`. */
  const LegacyAllTorrentFields: Slice<string> := Fields.StructJSONFields(LegacyTorrentType).value

  /** The snake_case wire names of the root `Torrent` in declaration order:
      79 of them, from "activity_date" to "webseeds_sending_to_us". */
  lemma LegacyAllTorrentFieldsValue()
    ensures LegacyAllTorrentFields == Slice(Torrents.WireColumn(LegacyRows))
    ensures |LegacyAllTorrentFields.items| == 79
    ensures LegacyAllTorrentFields.items[0] == "activity_date"
    ensures LegacyAllTorrentFields.items[78] == "webseeds_sending_to_us"
  {
    LegacyRowsPlain();
    Torrents.TaggedStructFields(LegacyRows);
  }

  /** The two copies ask for the same fields under different spellings:
      "activityDate" at the front of one list is "activity_date" in the
      other, so the lists differ. */
  lemma CopiesDisagreeOnSpelling()
    ensures LegacyAllTorrentFields != Torrents.AllTorrentFields
    ensures LegacyAllTorrentFields.Slice? && Torrents.AllTorrentFields.Slice?
    ensures |LegacyAllTorrentFields.items| == |Torrents.AllTorrentFields.items|
  {
    LegacyAllTorrentFieldsValue();
    Torrents.AllTorrentFieldsValue();
  }

  /** The root `TorrentGet(ids)`: the caller chooses only the selection;
      the field list is always `allTorrentFields` and the format "object". */
  function TorrentGet<R>(c: Client.Client, ids: Option<Torrents.TorrentIds>, server: seq<Client.Reply>,
                         decode: string -> Result<Client.Response<R>, string>): (r: Client.Call<R>)
    ensures forall i :: 0 <= i < |r.sent| ==>
              var body := r.sent[i].body;
              Get(body, "method") == Some(JStr("torrent-get"))
              && Get(body, "arguments").Some?
              && var args := Get(body, "arguments").value;
                 Get(args, "fields") == Some(StringSlice(LegacyAllTorrentFields))
                 && Get(args, "format") == Some(JStr("object"))
                 && (Get(args, "ids").Some? <==> ids.Some?)
                 && (ids.Some? ==> Get(args, "ids") == Some(Torrents.MarshalIds(ids.value)))
  {
    var args := Torrents.TorrentGetArgs(ids, LegacyAllTorrentFields);
    var params := Torrents.TorrentGetParams(args);
    assert Get(params, "fields") == Some(StringSlice(LegacyAllTorrentFields));
    assert Get(params, "format") == Some(JStr("object"));
    assert Get(params, "ids").Some? <==> ids.Some?;
    assert ids.Some? ==> Get(params, "ids") == Some(Torrents.MarshalIds(ids.value));
    Torrents.TorrentGet(c, args, server, decode)
  }
}
