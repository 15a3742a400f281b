# transmission-exporter, modelled in Dafny

This project models the core of a Prometheus exporter for the Transmission
BitTorrent daemon. It has two layers.

1. The Go client for Transmission's JSON-RPC API:
   - the endpoint a client posts to;
   - the session-token handshake around every call: a 409 reply carries a
     token, which the client stores and then re-sends the same body once;
   - the `{result, arguments}` envelope the typed helpers unwrap;
   - the torrent selector (`TorrentIDs`) and the status labels;
   - the `torrent-get` parameters;
   - the reflection-based derivation of JSON field names that produces the
     default field list.
2. The exporter in two versions, the current one (`internal/exporter`) and
   the earlier one (`pkg/exporter`). On each scrape it:
   - calls the client in a fixed order and stops at the first failure;
   - emits the global samples;
   - emits one block of samples per torrent when torrent-level metrics are
     switched on;
   - emits one "torrents by status" sample for each of eight buckets.

Everything is pure. The HTTP server is a sequence of replies, the i-th
answering the i-th request of a call. Decoding is a function from body text
to a value or an error. An exporter's client is a record of its replies to
each call. A Go map's iteration order is a parameter that enumerates its
keys.

| file | module | models |
|---|---|---|
| wrappers.dfy | `Wrappers` | `Option` and `Result` |
| json.dfy | `Json` | a JSON value tree, and Go slices that may be nil |
| decimal.dfy | `Decimal` | `%d`, with a parser as its inverse |
| client.dfy | `Client` | `pkg/transmission/client.go` |
| fields.dfy | `Fields` | `pkg/transmission/util.go` |
| torrents.dfy | `Torrents` | `pkg/transmission/torrents.go` |
| legacy_torrents.dfy | `LegacyTorrents` | the root `torrents.go` |
| buckets.dfy | `Buckets` | `newTorrentCountByStatus` and the counting loop (both exporters) |
| metrics.dfy | `Metrics` | samples, metric families, the per-torrent blocks and the bucket samples |
| exporter.dfy | `Exporter` | `internal/exporter/exporter.go` |
| legacy_exporter.dfy | `LegacyExporter` | `pkg/exporter/exporter.go` |

Three points where the Go code's behaviour is easy to misread:
- The "all torrents" selection is a nil pointer in a field tagged
  `ids,omitempty`, so the `ids` key is left out. It is never sent as `null`.
- `NewTorrentIDs()` with no arguments holds a nil slice. That slice
  marshals as `null`, not as an empty array, and the `ids` key is still
  sent (`Torrents.EmptySelectionIsNull`).
- The current exporter reads the descriptors `metricNameVersion` and
  `metricNameTorrentStatus`, which `internal/exporter/metrics.go` does not
  declare. The model takes the descriptor tables to hold every family
  `Collect` emits: nine global families and sixteen torrent-level ones.

## Model

| member | source | states |
|---|---|---|
| Client.MergePath | pkg/transmission/client.go:68-69 | The resolved path always starts with '/' and ends in "/transmission/rpc". |
| Client.MergeWithoutDirectory | pkg/transmission/client.go:63-69 | A host whose path has no '/' resolves to exactly "/transmission/rpc". |
| Client.MergeKeepsDirectory | pkg/transmission/client.go:68-69 | Resolving against a base path keeps its directory and replaces only its last segment with "transmission/rpc". |
| Client.ResolveEndpoint | pkg/transmission/client.go:68-69 | Scheme, user and host come from the host URL. The base's query and fragment are dropped. The path is the merged one. |
| Client.New | pkg/transmission/client.go:63-77 | Construction fails exactly when the host does not parse, wrapping the parse error. Otherwise the client holds no session token, keeps the credentials and posts to the resolved endpoint. |
| Client.LocalhostEndpoint | pkg/transmission/client.go:63-77 | "http://localhost:9091" gives the path "/transmission/rpc". |
| Client.Message | pkg/transmission/client.go:63-157 | The text of each error. Host-parse, execute and decode errors are their fixed prefix followed by the cause. A missing session ID gives "server returned no session ID". A body-read error is the cause itself, and a domain error is the server's result text verbatim. |
| Client.MessageEndsWithCause | pkg/transmission/client.go:63-157 | Every error's text ends with the text of its cause (the reason, the raw body or the result). |
| Client.UnexpectedStatusMessage | pkg/transmission/client.go:136-143 | The unexpected-status error text ends with the raw body. Two different statuses never give the same text. |
| Client.BuildRequest | pkg/transmission/client.go:83-95 | The session header is present if and only if a token is held, and then carries that token. The request asks for JSON and carries the credentials and the body unchanged. |
| Client.Finish | pkg/transmission/client.go:136-143 | Only a 200 goes on to decoding. Any other status fails with that status and the raw body, or with the error from reading the body. |
| Client.Post | pkg/transmission/client.go:105-143 | One or two requests, two exactly when the first reply is a 409 with a token. Every request carries the same body. The handshake overwrites the token and the retry carries the new one. A 409 without a token fails with "no session ID" and leaves the client unchanged. Transport errors pass through. Otherwise the last reply's status decides. |
| Client.SecondConflictIsUnexpected | pkg/transmission/client.go:129-143 | A retry answered by another 409 is not retried. It fails as an unexpected status. |
| Client.HandshakeScenario | pkg/transmission/client.go:119-134 | 409 with token ABC123, then 200: two requests, the first with no token and the second with ABC123. The token is kept and the second body is returned. |
| Client.HeldTokenReused | pkg/transmission/client.go:89-95 | A token already held goes out on the first request and stays when the server does not ask for a new one. |
| Client.DecodeBody | pkg/transmission/client.go:155-157 | A body that does not decode fails with a decode error that carries the decoder's reason. A body that decodes gives the decoded value. |
| Client.PostInto | pkg/transmission/client.go:105-160 | Transport failures pass through unchanged. A nil destination skips decoding. Otherwise the outcome is the decoded body or the decode error. The token and requests are those of the transport. |
| Client.RequestBody | pkg/transmission/client.go:30-32 | A call without arguments sends an object whose only key is "method". |
| Client.RequestWithParamsBody | pkg/transmission/client.go:34-37 | A call with arguments sends exactly the keys "method" and "arguments", the latter holding the parameters. |
| Client.Response.IsSuccess | pkg/transmission/client.go:59-61 | An envelope is a success exactly when its result is "success". Its consequences are stated by `Client.Unwrap` and `Client.CallSucceedsIff`. |
| Client.Unwrap | pkg/transmission/client.go:59-61 | A "success" result yields the arguments. Any other result becomes an error whose message is exactly that string. Earlier errors pass through unchanged. |
| Client.CallNoArgs | pkg/transmission/client.go:162-171 | `post[R]` sends the method-only body on every request. Its outcome is the envelope check applied to the transport's result. |
| Client.CallWithArgs | pkg/transmission/client.go:173-182 | `postWithArgs[P, R]` sends the method and the parameters on every request. Its outcome is the envelope check applied to the transport's result. |
| Client.CallSucceedsIff | pkg/transmission/client.go:162-182 | A typed call succeeds if and only if the final reply is a readable 200 whose body decodes to a "success" envelope. It then returns that envelope's arguments. |
| Client.ErrorKindsDistinct | pkg/transmission/client.go:105-182 | A transport failure is never reported as a decode or domain error. A domain error only comes from a decoded envelope whose result is its message. |
| Client.DomainErrorScenario | pkg/transmission/client.go:167-169 | The daemon's "invalid argument" reply comes back as an error with exactly that text, after one request. |
| Decimal.NatRoundTrip | pkg/transmission/client.go:142 | Reading the printed digits back gives the number. |
| Decimal.IntRoundTrip | pkg/transmission/client.go:142 | `%d` of any integer, sign included, reads back as that integer. |
| Decimal.IntToStringInjective | pkg/transmission/client.go:142 | Different integers print differently. |
| Fields.TagName | pkg/transmission/util.go:49-52 | The name is the part of the tag before its first comma. It contains no comma and is a prefix of the tag. |
| Fields.TagNameOfOptions | pkg/transmission/util.go:49-52 | "name,options" yields "name" for any comma-free name. |
| Fields.WireName | pkg/transmission/util.go:43-62 | A "-" tag is skipped. A non-empty tag name is used. An empty one falls back to the Go name. The field is also skipped when that name is "" or "-": a tag name of "-" with options, or an empty tag name on a Go name of "" or "-". The result is never "" or "-". |
| Fields.DashWithOptionsSkipped | pkg/transmission/util.go:43-62 | A field tagged `json:"-,omitempty"` passes the bare "-" check but is still skipped, because its name is "-". |
| Fields.Collect | pkg/transmission/util.go:29-66 | No collected name is "" or "-". |
| Fields.FieldNames | pkg/transmission/util.go:30-64 | An unexported field contributes nothing. A field that is not flattened contributes at most one name. No name is "" or "-". |
| Fields.StructJSONFields | pkg/transmission/util.go:11-27 | It fails with the panic text exactly when the type is neither a struct nor a pointer to one. A pointer is dereferenced once. A struct with no names gives a nil slice. |
| Fields.CollectIsNamedLeaves | pkg/transmission/util.go:29-66 | Collecting equals the reference definition: flatten exported embedded structs in place, then name each remaining exported field in order. |
| Fields.AtMostOneNamePerLeaf | pkg/transmission/util.go:30-64 | There are at most as many names as leaf fields. |
| Fields.CollectAppend | pkg/transmission/util.go:30 | Names follow declaration order: the names of a split struct are the names of each part in turn. |
| Fields.EmbeddedFlattenedInPlace | pkg/transmission/util.go:38-41 | An embedded struct's names appear exactly where it is declared, between the names before and after it. |
| Fields.NamedFieldTypeIrrelevant | pkg/transmission/util.go:38-41 | A named field's type is never looked into. |
| Fields.EmbeddedTagIgnored | pkg/transmission/util.go:38-43 | An embedded struct's own tag is never read. |
| Fields.FlatTaggedStruct | pkg/transmission/util.go:43-64 | A flat struct whose exported fields are tagged "name,omitempty" yields exactly those names, in order. |
| Fields.TaggedFieldName | pkg/transmission/util.go:43-57 | A field tagged "name,omitempty" contributes exactly that name. |
| Fields.TwoFields | pkg/transmission/util_test.go:15-17 | A struct with fields tagged "foo" and "bar" gives ["foo", "bar"]. |
| Fields.NotAStruct | pkg/transmission/util_test.go:19-21 | `int`, and a pointer to a pointer to a struct, panic. |
| Fields.PointerToStruct | pkg/transmission/util.go:15-17 | A pointer to a struct gives the struct's names. |
| Fields.EmbeddedStruct | pkg/transmission/util_test.go:23-31 | An embedded Foo followed by "baz" and "bas" gives ["foo", "bar", "baz", "bas"]. |
| Fields.UnexportedField | pkg/transmission/util_test.go:33-39 | An unexported field is skipped. |
| Fields.WithoutTag | pkg/transmission/util_test.go:41-46 | An untagged field is named by its Go name. |
| Fields.NestedStruct | pkg/transmission/util_test.go:48-53 | A named struct-typed field contributes only its own tag name. |
| Torrents.NewTorrentIds | pkg/transmission/torrents.go:21-24 | `NewTorrentIDs` always yields a non-nil explicit selection holding exactly its arguments. |
| Torrents.MarshalIds | pkg/transmission/torrents.go:17-31 | The sentinel marshals as "recently-active". A nil list marshals as null. A list marshals as an array of the same length that keeps each element's position and number-or-string type. |
| Torrents.MarshalIdsRoundTrip | pkg/transmission/torrents.go:17-24 | Reading a marshalled selection back gives the selection. |
| Torrents.MarshalIdsInjective | pkg/transmission/torrents.go:17-24 | Different selections never marshal the same. |
| Torrents.IdsMember | pkg/transmission/torrents.go:34-36 | The "ids" member is absent exactly for the nil selection, and otherwise holds the marshalled selection. |
| Torrents.IdsArgs | pkg/transmission/torrents.go:34-36 | `torrentIDsArgs` has an "ids" key if and only if a selection is given. |
| Torrents.SelectionShapes | pkg/transmission/torrents.go:26-36 | `AllTorrents` sends an empty object. `RecentlyActiveTorrents` sends "recently-active". An explicit list sends an array of its length. |
| Torrents.EmptySelectionIsNull | pkg/transmission/torrents.go:22-24 | `NewTorrentIDs()` with no arguments still sends the key, with null. |
| Torrents.StatusString | pkg/transmission/torrents.go:227-233 | Statuses 0..6 map to the seven labels in order. Any other value maps to "unknown". |
| Torrents.StatusLabelsDistinct | pkg/transmission/torrents.go:217-225 | The seven labels are pairwise distinct and none is "unknown". |
| Torrents.StatusLabelRoundTrip | pkg/transmission/torrents.go:217-233 | A label reads back as its status exactly for the known statuses. "unknown" reads back as none. |
| Torrents.StatusStringInjective | pkg/transmission/torrents.go:217-233 | A known status shares its label with no other status. |
| Torrents.TorrentGetParams | pkg/transmission/torrents.go:110-114 | The parameter keys are "ids" when a selection is given, then "fields" and "format", which are always sent. Format is "object". Fields and ids are forwarded unchanged. |
| Torrents.TorrentGet | pkg/transmission/torrents.go:327-334 | Every request is a "torrent-get" call whose arguments are the parameters built from the caller's arguments. |
| Torrents.TorrentGetSucceedsIff | pkg/transmission/torrents.go:327-334 | The call succeeds exactly when the final reply is a readable 200 whose body decodes to a "success" envelope. It then returns that envelope's arguments. |
| Torrents.TaggedStructFields | pkg/transmission/util.go:43-64 | A struct built from a table of plain, "omitempty"-tagged rows derives exactly the table's wire column. |
| Torrents.TorrentRowsPlain | pkg/transmission/torrents.go:123-203 | Every tag name of `Torrent` is plain: not empty, not "-", no comma. |
| Torrents.AllTorrentFieldsValue | pkg/transmission/torrents.go:320 | `AllTorrentFields` is `Torrent`'s tag names in declaration order: 79 entries, from "activityDate" to "webseedsSendingToUs". |
| LegacyTorrents.LegacyRowsPlain | torrents.go:123-203 | Every snake_case tag name of the root `Torrent` is plain. |
| LegacyTorrents.LegacyAllTorrentFieldsValue | torrents.go:290 | `allTorrentFields` is the snake_case tag names in declaration order: 79 entries, from "activity_date" to "webseeds_sending_to_us". |
| LegacyTorrents.CopiesDisagreeOnSpelling | torrents.go:124-202 | The two field lists have the same length but differ. |
| LegacyTorrents.TorrentGet | torrents.go:292-299 | Every request is a "torrent-get" call asking for `allTorrentFields` in format "object". It has an "ids" key exactly when a selection is given, and that key holds the marshalled selection. |
| Buckets.BucketLabelsDistinct | internal/exporter/exporter.go:245-252 | The eight bucket keys are distinct, and "unknown" is last. |
| Buckets.StatusHasBucket | internal/exporter/exporter.go:121 | Every label a status can produce names a bucket. |
| Buckets.NewTorrentCountByStatus | internal/exporter/exporter.go:245-252 | The initial map has exactly the seven status labels plus "unknown", all at zero. |
| Buckets.Increment | internal/exporter/exporter.go:121 | A torrent adds one to the bucket its status names, starting from zero when the key is missing, and changes no other bucket. |
| Buckets.CountByStatus | internal/exporter/exporter.go:118-121 | The loop never adds or drops a key. |
| Buckets.CountByStatusIsCount | internal/exporter/exporter.go:118-121 | Each bucket ends up holding the number of torrents with that label. |
| Buckets.BucketsSumToTotal | internal/exporter/exporter.go:118-121 | The bucket counts add up to the number of torrents. |
| Buckets.SumOverPermutation | internal/exporter/exporter.go:239-241 | Summing the buckets in any iteration order gives the same total. |
| Buckets.Tally | internal/exporter/exporter.go:118-121 | The counting loop, written as a loop, ends with exactly the bucket keys, each holding the number of torrents with that label. |
| Metrics.StatsSamples | internal/exporter/exporter.go:54-94 | Seven unlabelled global samples carry the five cumulative counters and then the two speeds, in that order. |
| Metrics.StatsSamplesFields | internal/exporter/exporter.go:54-94 | Sample i belongs to family `StatsFamilies[i]`: downloaded bytes, uploaded bytes, torrents added, seconds active, sessions, upload speed, download speed. Together with `StatsSamples`' values, this fixes which statistic feeds which family. |
| Metrics.StatsSamplesGlobal | internal/exporter/exporter.go:54-94 | The statistics samples include neither the version nor a status. |
| Metrics.RateSamples | internal/exporter/exporter.go:124-221 | Each of a torrent's fourteen rate and size samples is torrent-level and labelled with its hash. |
| Metrics.RateSamplesFields | internal/exporter/exporter.go:124-221 | Sample i has family `RateFamilies[i]` and carries torrent field `RateFields(t)[i]`, from download rate through seconds seeding. The five cumulative samples are counters and the rest are gauges. |
| Metrics.SampleFamiliesDistinct | internal/exporter/exporter.go:54-221 | No family repeats among the seven statistics samples or among a torrent's fourteen rate samples. |
| Metrics.FamilyTablesDistinct | internal/exporter/exporter.go:54-221 | The statistics family table and the rate family table each name every family once. |
| Metrics.TorrentSamplesShape | internal/exporter/exporter.go:124-235 | Every sample of a torrent's block is led by its hash. The info sample comes last, with value 1 and labels hash and name. The status sample holds the raw status when present and is otherwise absent. |
| Metrics.PerTorrent | internal/exporter/exporter.go:120-123 | The loop emits one block per torrent when switched on, and nothing otherwise. |
| Metrics.PerTorrentIsTorrentLevel | internal/exporter/exporter.go:123-236 | The loop emits torrent-level samples only. |
| Metrics.PerTorrentNoStatus | pkg/exporter/exporter.go:126-232 | Without the status family, the loop emits no status sample. |
| Metrics.PerTorrentBlock | internal/exporter/exporter.go:120-236 | Block j of the loop's output is exactly torrent j's samples. |
| Metrics.BlockOfTorrent | internal/exporter/exporter.go:229-235 | Wherever a torrent's block sits, its last sample is the info sample and each sample's first label is the hash. |
| Metrics.BucketSamples | internal/exporter/exporter.go:239-241 | There is one sample per key, in iteration order, labelled with the key and valued with its count. |
| Metrics.BucketSamplesCoverLabels | internal/exporter/exporter.go:239-241 | Exactly eight bucket samples: each label appears once with its count, empty buckets included. Together they count every torrent. |
| Metrics.TotalIsSumOver | internal/exporter/exporter.go:239-241 | The bucket samples' values are the map's counts. |
| Exporter.Args | internal/exporter/exporter.go:109-112 | Of the three calls, only the torrent call takes arguments. |
| Exporter.QueryAsksForEverything | internal/exporter/exporter.go:109-112 | The torrent query leaves out "ids", so every torrent is returned. It asks for all 79 fields of `Torrent`. |
| Exporter.Describe | internal/exporter/exporter.go:29-39 | Torrent-level descriptors are announced only when the setting is on. |
| Exporter.DescribeComplete | internal/exporter/exporter.go:29-39 | A family is announced if and only if it is global or the setting is on. |
| Exporter.VersionSample | internal/exporter/exporter.go:102-107 | The version sample has value 1 and the version as its only label. |
| Exporter.Collect | internal/exporter/exporter.go:41-243 | The calls go stats, session, torrents. A stats failure emits nothing. A session failure emits only the seven statistics. A torrents failure emits the statistics and the version. A full scrape emits 8 global samples, 16 per torrent when switched on, and 8 bucket samples. |
| Exporter.CollectWithoutTorrentLevel | internal/exporter/exporter.go:123 | With the setting off, no torrent-level sample is emitted, whatever the replies. |
| Exporter.CollectIsDescribed | internal/exporter/exporter.go:29-243 | Every emitted sample belongs to a family `Describe` announced under the same setting. |
| Exporter.CollectBuckets | internal/exporter/exporter.go:239-241 | A full scrape ends with eight bucket samples, one per label, each holding that label's count. They sum to the number of torrents. |
| Exporter.CollectTorrentBlock | internal/exporter/exporter.go:123-236 | With the setting on, torrent j owns the 16 samples after the 8 global ones. Each is led by its hash, and the last is the info sample with value 1 and labels hash and name. |
| Exporter.SuccessfulSamples | internal/exporter/exporter.go:54-241 | A full scrape emits the eight global samples, then the per-torrent loop, then the buckets. |
| LegacyExporter.Describe | pkg/exporter/exporter.go:28-55 | 8 global descriptors, plus 15 torrent-level ones when switched on, are sent in a fixed order with torrent-level ones after the globals. None is sent twice. |
| LegacyExporter.DescribeComplete | pkg/exporter/exporter.go:28-55 | Every family but the version and the status is announced, torrent-level ones exactly when switched on. |
| LegacyExporter.GlobalsComplete | pkg/exporter/exporter.go:29-36 | The global descriptors are every global family but the version. |
| LegacyExporter.TorrentLevelComplete | pkg/exporter/exporter.go:38-54 | The torrent-level descriptors are every torrent-level family but the status. |
| LegacyExporter.DescribeWithinCurrent | pkg/exporter/exporter.go:28-55 | The earlier exporter announces a subset of what the current one does under the same setting. It lacks the version. |
| LegacyExporter.Collect | pkg/exporter/exporter.go:57-239 | The calls go stats, then torrents. There is no session call. A stats failure emits nothing. A torrents failure emits only the seven statistics. A full scrape emits 7, plus 15 per torrent when switched on, plus 8 samples. |
| LegacyExporter.Scrape | pkg/exporter/exporter.go:70-237 | A full scrape has the expected length and starts with the seven statistics samples. |
| LegacyExporter.ScrapeWithoutTorrentLevel | pkg/exporter/exporter.go:126 | With the setting off, a full scrape holds only global samples. |
| LegacyExporter.ScrapeLacksVersionAndStatus | pkg/exporter/exporter.go:70-237 | A full scrape holds no version and no status sample. |
| LegacyExporter.CollectWithoutTorrentLevel | pkg/exporter/exporter.go:126 | With the setting off, no torrent-level sample is emitted, whatever the replies. |
| LegacyExporter.CollectLacksVersionAndStatus | pkg/exporter/exporter.go:57-239 | The earlier exporter never emits the version or a status sample. |
| LegacyExporter.CollectIsDescribed | pkg/exporter/exporter.go:28-239 | Every emitted sample belongs to a family `Describe` announced under the same setting. |
| LegacyExporter.SuccessfulSamples | pkg/exporter/exporter.go:70-237 | A full scrape emits the statistics, then the per-torrent loop, then the buckets. |
| LegacyExporter.CollectBuckets | pkg/exporter/exporter.go:121-124 | A full scrape ends with eight bucket samples, one per label, each holding that label's count. They sum to the number of torrents. |
| LegacyExporter.CollectTorrentBlock | pkg/exporter/exporter.go:123-233 | With the setting on, torrent j owns the 15 samples after the 7 statistics. Each is led by its hash, and the last is the info sample with value 1 and labels hash and name. |

## Left out

- HTTP plumbing is replaced by the reply oracle: `http.Client`, building requests, basic-auth encoding, closing bodies, and the 30-second context timeout.
- The `sync.RWMutex` around the token, and the unguarded read of the token at pkg/transmission/client.go:91, are concurrency. The token is modelled as sequential state.
- `url.Parse` is an oracle (a `Result` parameter of `Client.New`).
- Client.ResolveEndpoint: does not remove dot segments from the merged path. Paths containing "." or ".." segments are resolved without that step. The path is taken as already escaped (Go merges `EscapedPath()`); percent-decoding is not modelled.
- `json.Marshal` and `json.Decoder` work on bytes. The model uses a JSON value tree, and decoding is a function parameter.
- `ResponseError` and its `Error` method (pkg/transmission/client.go:39-52) are never produced by the client core.
- The per-method wrappers in both torrents files (start, stop, verify, reannounce, set, add, remove, set-location, rename-path) are one-line calls to `postWithArgs` with a method name. `Client.CallWithArgs` and `Torrents.IdsArgs` cover them.
- The record types (`TorrentSetArgs`, `Peer`, `TrackerStat`, …) are left out. `Torrent` is modelled only as the table of tag names behind the field list, and as the fields the exporters read.
- `TorrentBase64` (pkg/transmission/util.go:68-74) is file I/O plus a library base64 call.
- pkg/transmission/queue.go, `cmd/`, the root client.go and the root sessions.go are not part of this model.
- Prometheus descriptors, metric names, help texts and label names are left out. Samples carry a family, a kind, an integer value and label values.
- Metrics.StatsSamples: values are integers. The `float64` conversion, and the rounding it applies above 2^53, are not modelled.
- Exporter.VersionSample: `Version.Sem()` is an oracle. The session carries the string it returns.
- Exporter.Describe: a set. The descriptor tables are Go maps, so the order in which they are sent is not modelled.
- The exporters' logger and their constructors `New` are left out. Error logging has no effect on what is emitted.
- The order in which Go ranges over the bucket map is a parameter of `Collect`. Any enumeration of the eight keys is allowed.
- Fields.StructJSONFields: the panic is modelled as a `Failure` carrying the panic text. Interface type arguments are not modelled. For those, `reflect.TypeOf` of the zero value is nil, so Go fails with a nil-pointer runtime panic rather than with that text. The model's `Other` kinds stand for concrete non-struct types only.
- Torrents.NewTorrentIds: only integer IDs and hash strings are modelled, the two kinds its doc comment names, although the Go signature accepts `...any`. An unmarshallable value, such as `math.NaN()` or a channel, would reach the "error marshalling body" failure of `post`. That path therefore never arises in the model and is not modelled.
