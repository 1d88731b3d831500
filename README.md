# pygnmi core, modelled in Dafny

This project models the parts of the pygnmi gNMI client that do not talk to the
network. Each part follows its code branch for branch, and properties of each
are proved. Where the code is evidently wrong (see "## Findings") the model
keeps an as-written version of that helper beside a corrected one. The
operations built on the helper use the corrected version.

- **The path codec.** `gnmi_path_generator` turns an XPath-like text into a gNMI
  `Path`:
  - the bracket predicates are first pulled into a side table;
  - the text is then cut at `/`;
  - the first segment may name the origin;
  - indexed segments look their keys up in the side table.

  `gnmi_path_degenerator` renders a `Path` back as `name[k=v]/...` with the keys
  in sorted order.
- **Request building and response decoding in the client.**
  - `_build_subscriptionrequest` fills in defaults and checks settings.
  - `convert_encoding`, the encoding preference of `connect`, and the
    capability and Set-operation enumeration maps handle encodings and
    operations.
  - `construct_update_message` and `process_potentially_json_value` build
    and read values.
  - `telemetryParser` flattens a `SubscribeResponse`.
  - Also covered: the normalisation of the target address and the
    one-request-kind guard of `subscribe`.
- **The subscription objects.** `StreamSubscriber`, `OnceSubscriber` and
  `PollSubscriber` become one Dafny class. It holds the control queue `_msgs`,
  the inbound queue `_updates` and the two flags. It also has the client
  stream that turns control tokens into frames.
- **The History extension.** `get_gnmi_extension` and `_get_time_ns_epoch`.
- **The dictionary flattener.** `_dict_to_xpath` and `_get_unique_id`.

Python values are the datatype `PyValue.Py`, and exceptions are the
`Wrappers.Exc` cases carried by `Result`. Four things are not modelled and
become function parameters instead: JSON decoding and encoding, `strptime`,
`str()` of containers, and the message parser as the subscription sees it.

Procedures that work step by step are methods, each proved equal to a
specification function. This covers:

- the generator's loops;
- `telemetryParser`'s loops;
- `construct_update_message`;
- `_build_subscriptionrequest`;
- `_get_unique_id`;
- the subscription object.

The properties the code promises are lemmas about those functions.

Files, one module each:

| file | module | content |
|---|---|---|
| `wrappers.dfy` | `Wrappers` | `Option` and `Result` |
| `strings.dfy` | `Strings` | the string helpers: `find`, `split`, `join`, `replace`, `lower`/`upper`, `int()`, `sorted` |
| `pyvalue.dfy` | `PyValue` | Python values |
| `path_codec.dfy` | `PathCodec` | the generator and the degenerator |
| `path_keys.dfy` | `PathKeys` | the key side table |
| `path_layout.dfy` | `PathLayout` | well-formed path texts |
| `path_theory.dfy` | `PathTheory` | the generator on them |
| `path_roundtrip.dfy` | `PathRoundTrip` | both round trips |
| `path_examples.dfy` | `PathExamples` | the XPath test table |
| `messages.dfy` | `GnmiMessages` | gNMI messages |
| `encodings.dfy` | `Encodings` | encodings and operations |
| `extension.dfy` | `GnmiExtension` | the History extension |
| `traverse.dfy` | `Traverse` | the first-failure-wins loop over a list |
| `subscribe_request.dfy` | `SubscribeRequestBuilder` | building the subscription request |
| `update_message.dfy` | `UpdateMessage` | building and reading values |
| `telemetry.dfy` | `Telemetry`, `TelemetryPaths` | `telemetryParser` |
| `subscriber.dfy` | `Subscription` | the subscription objects |
| `client_target.dfy` | `ClientTarget` | the target address |
| `xpath_tools.dfy` | `XPathTools` | the flattener |

## Model

| member | source | states |
|---|---|---|
| PathCodec.MatchEnd | pygnmi/path_generator.py:38 | the lazy pattern `.*?\[.+?=.+?\].*?` matches at the start of the text only within it, at length 5 or more |
| PathCodec.MatchEndFindsPredicate | pygnmi/path_generator.py:38 | the pattern matches exactly when a `[`, a non-empty key, `=`, a non-empty value and `]` follow one another |
| PathCodec.FindAllShape | pygnmi/path_generator.py:39 | `re.findall` finds matches exactly when the pattern matches at the start; every match is non-empty, and together they spell a prefix of the text |
| PathCodec.RewriteMatches | pygnmi/path_generator.py:41-46 | each match adds exactly one side-table entry after the existing ones; a bracket body that does not split into exactly two parts at `=` raises `ValueError` |
| PathCodec.KeyStage | pygnmi/path_generator.py:37-51 | a text without a predicate is left unchanged with an empty side table; the only failure is `ValueError` |
| PathCodec.Segments | pygnmi/path_generator.py:53-54 | the kept segments are non-empty and hold no `/` |
| PathCodec.OriginSplit | pygnmi/path_generator.py:57-65 | only the first segment can name the origin; the text before its first `:` is the origin; the rest replaces the segment when non-empty, else the segment is dropped |
| PathCodec.StripCloses | pygnmi/path_generator.py:70 | each part has its `]` removed, with the count kept |
| PathCodec.MergeKeys | pygnmi/path_generator.py:73-74 | an index text that `int()` rejects raises `ValueError`; an index outside the side table raises `IndexError`; merging only adds keys |
| PathCodec.ParseElem | pygnmi/path_generator.py:68-79 | a segment without `[digits]` is a name with no keys; an indexed one fails only with `ValueError` or `IndexError` |
| PathCodec.ParseElems | pygnmi/path_generator.py:67-79 | one element per segment, appended in order; the first failure wins |
| PathCodec.Generate | pygnmi/path_generator.py:10-81 | a successful path carries the target it was given; the only failures are `ValueError` and `IndexError` |
| PathCodec.GnmiPathGenerator | pygnmi/path_generator.py:10-81 | the step-by-step generator returns exactly `Generate` |
| PathCodec.ExtractKeys | pygnmi/path_generator.py:37-51 | the key-extraction loops give exactly `KeyStage` |
| PathCodec.RewriteLoop | pygnmi/path_generator.py:41-46 | the match loop gives `RewriteMatches`, and the untouched text it accumulates is the concatenation of the matches |
| PathCodec.SplitOrigin | pygnmi/path_generator.py:57-65 | the in-place origin handling, assigning an index or deleting one, gives `OriginSplit` |
| PathCodec.BuildElements | pygnmi/path_generator.py:67-79 | the element loop gives `ParseElems` |
| PathCodec.ElementKeys | pygnmi/path_generator.py:69-74 | the key loop gives `MergeKeys` from an empty dictionary |
| PathCodec.ElemTexts | pygnmi/path_generator.py:90-99 | one text per element, in order |
| PathCodec.Degenerate | pygnmi/path_generator.py:84-103 | the result is `None` exactly when the path has no elements |
| PathKeys.KeyStageParts | pygnmi/path_generator.py:37-51 | when the matches and a tail without `[` make up the text, the key stage gives the rewritten matches followed by that tail |
| PathKeys.FindAllPred | pygnmi/path_generator.py:39 | a predicate after text without `[` is the first match, and the search resumes after it |
| PathKeys.ExtraEqualsRejected | pygnmi/path_generator.py:43 | a bracket body with a second `=` makes the whole generator raise `ValueError`, whatever well-formed text comes before it or after it |
| PathKeys.KeyStageRejects | pygnmi/path_generator.py:37-51 | a failing unpacking in any match makes the generator raise `ValueError` for every target |
| PathLayout.KeyStageLayout | pygnmi/path_generator.py:37-51 | for a well-formed text, the side table holds every predicate in order, and the text has each predicate replaced by its index |
| PathLayout.OriginLayout | pygnmi/path_generator.py:53-65 | leading, doubled and trailing slashes vanish; the origin and the indexed element texts come out as written |
| PathTheory.MergeDigits | pygnmi/path_generator.py:73-74 | the index texts of consecutive side-table entries merge exactly those entries, in order, with a later key winning |
| PathTheory.ParseElemIdx | pygnmi/path_generator.py:68-76 | an indexed element reads back as its name with its predicates merged in order, so compound keys give several keys |
| PathTheory.ParseElemsIdx | pygnmi/path_generator.py:67-79 | all indexed elements read back as written, in order |
| PathTheory.GenerateLayout | pygnmi/path_generator.py:10-81 | every well-formed text yields its origin, the given target, and its elements, each a name with its predicates merged; slashes are ignored, and key values may hold `/` and `:` |
| PathTheory.EmptyLayout | pygnmi/path_generator.py:37-54 | only the layout with no origin and no elements is the empty text |
| PathRoundTrip.KeyMapLookup | pygnmi/path_generator.py:73-74 | merging distinct keys gives each key its own value and keeps every other key |
| PathRoundTrip.SortedKeys | pygnmi/path_generator.py:96 | the degenerator's `sorted` key order is the order in which sorted predicates were written |
| PathRoundTrip.ElemTextDecoded | pygnmi/path_generator.py:90-99 | the degenerator writes a decoded element back exactly as it was written |
| PathRoundTrip.DegenerateGenerate | pygnmi/path_generator.py:84-103 | a text written the degenerator's way (single slashes, sorted keys, no origin) comes back unchanged through generator and degenerator |
| PathRoundTrip.KeyMapSortedPairs | pygnmi/path_generator.py:96 | merging the sorted pairs of a key map gives that map back |
| PathRoundTrip.GenerateDegenerate | pygnmi/path_generator.py:10-103 | an origin-free path whose names and keys the generator can denote survives degenerator then generator, with the target being the generator's argument |
| PathExamples.EmptyPath | tests/test_00_xpath.py:24 | `""` gives no origin and no elements |
| PathExamples.SlashPath | tests/test_00_xpath.py:25 | `"/"` gives no origin and no elements |
| PathExamples.OriginOnlyPath | tests/test_00_xpath.py:26-27 | `origin:` with any slashes before or after gives that origin and no elements |
| PathExamples.OriginKeyedPath | tests/test_00_xpath.py:44-103 | `origin:a/b[k=v]`, with or without a leading `/`: the first name may hold further colons, and the value may hold `:` and `/` |
| PathExamples.CompoundKeyPath | tests/test_00_xpath.py:74-90 | two predicates on one element give two keys |
| GnmiMessages.GeneratePy | pygnmi/path_generator.py:33-38 | the generator on any Python value: a text is parsed, a falsy value gives the empty path, and anything else raises `TypeError` in the first pattern match |
| Encodings.EncodingValue | pygnmi/client.py:409 | `Encoding.Value` accepts exactly the five enumeration names, as 0 to 4; otherwise `ValueError` |
| Encodings.EncodingName | pygnmi/client.py:367-379 | every reported name is one of the preference order's names |
| Encodings.EncodingNames | pygnmi/client.py:364-379 | one name per encoding number, in order |
| Encodings.EncodingNameValue | pygnmi/client.py:367-379 | a reported name, upper-cased, maps back to its number; every unknown number reads back as `JSON_IETF` |
| Encodings.PickEncoding | pygnmi/client.py:301-310 | the first preferred encoding the target supports; the current one when it supports none |
| Encodings.ConvertEncoding | pygnmi/client.py:397-409 | an implicit, non-empty request that is not in a known non-empty supported list raises `ValueError`; otherwise the result is the request, or else the default, upper-cased and looked up |
| Encodings.EncodingOf | pygnmi/client.py:409 | a text is looked up upper-cased; a non-text has no `upper` and raises `AttributeError` |
| Encodings.ConvertCaseInsensitive | pygnmi/client.py:397-409 | requests that differ only in case convert alike |
| Encodings.ConvertReported | pygnmi/client.py:364-409 | a name `capabilities` reported is accepted in either case and converts to the number it came from |
| Encodings.OpName | pygnmi/client.py:785-795 | operation 0 gives no `op` entry |
| Encodings.OpNameValue | pygnmi/client.py:785-795 | operations 1 to 3 are named `DELETE`, `REPLACE` and `UPDATE`, which read back as their numbers; any other non-zero number is `UNDEFINED`, which is no operation name |
| ClientTarget.NormaliseAsWritten | pygnmi/client.py:100-107 | the kept target is bracketed exactly for a non-`unix:` host with a colon; the dialled address is always `target:port` |
| ClientTarget.Normalise | pygnmi/client.py:100-107 | as intended: a `unix:` host is dialled as it is, and every other host as `host:port`, with an IPv6 host in brackets |
| ClientTarget.AddressSplits | pygnmi/client.py:103-107 | splitting the dialled address at its last colon gives back the kept host and the port; brackets appear exactly around hosts that contain a colon |
| ClientTarget.UnixAddressOverwritten | pygnmi/client.py:100-107 | as written, a `unix:` host is dialled as `host:port` and never as the socket address |
| ClientTarget.NormaliseAgrees | pygnmi/client.py:103-107 | away from `unix:` hosts, both versions agree |
| GnmiExtension.ParseTime | pygnmi/create_gnmi_extension.py:46-48 | `strptime` on a non-text raises `TypeError`; on text it succeeds exactly when the format matches |
| GnmiExtension.TimeNsEpochAsWritten | pygnmi/create_gnmi_extension.py:39-54 | an `int` is returned unchanged; every failure surfaces as `TypeError` |
| GnmiExtension.TimeNsEpoch | pygnmi/create_gnmi_extension.py:39-54 | an `int` is returned unchanged; anything else gets the parse result, with the parse error's own class |
| GnmiExtension.SetInt64 | pygnmi/create_gnmi_extension.py:25 | an `int64` field stores exactly the values in range, unchanged; otherwise `ValueError` |
| GnmiExtension.RangeRequest | pygnmi/create_gnmi_extension.py:28-34 | a successful range branch gives a time range |
| GnmiExtension.GetGnmiExtension | pygnmi/create_gnmi_extension.py:9-36 | a falsy `ext`, or a dictionary without `history`, gives an empty extension; time texts are read by the corrected `TimeNsEpoch` |
| GnmiExtension.BothRejected | pygnmi/create_gnmi_extension.py:20-21 | `snapshot_time` and `range` together raise |
| GnmiExtension.RangeNeedsBoth | pygnmi/create_gnmi_extension.py:28-30 | a range without `start` or without `end` raises |
| GnmiExtension.IntSnapshotCopied | pygnmi/create_gnmi_extension.py:24-25 | an integer snapshot time is copied unchanged |
| GnmiExtension.IntRangeCopied | pygnmi/create_gnmi_extension.py:32-34 | integer range ends are copied unchanged |
| GnmiExtension.BadTimeText | pygnmi/create_gnmi_extension.py:45-52 | a malformed time text: as intended, the parse error `ValueError` is re-raised; as written, `TypeError` |
| GnmiExtension.TimeNsEpochVersions | pygnmi/create_gnmi_extension.py:45-52 | both versions succeed on the same inputs with the same value; as written, every failure is `TypeError` |
| SubscribeRequestBuilder.Setting | pygnmi/client.py:860-925 | a present key keeps the caller's value; a missing one gets the default |
| SubscribeRequestBuilder.QosSetting | pygnmi/client.py:902-906 | `qos` becomes `None` under `no_qos_marking`, and `{"marking": 0}` when absent or falsy; otherwise it is the caller's |
| SubscribeRequestBuilder.DefaultsRule | pygnmi/client.py:860-925 | the caller's dictionary afterwards: its own entries apart from `qos`, plus each missing filled key with its default, plus `qos` from the QoS step |
| SubscribeRequestBuilder.FilledKey | pygnmi/client.py:860-925 | after any number of steps, each filled key holds its value |
| SubscribeRequestBuilder.NotFilled | pygnmi/client.py:860-925 | keys the builder never fills are left as the caller's |
| SubscribeRequestBuilder.BoolField | pygnmi/client.py:863-892 | a flag must be a `bool`, else `ValueError` |
| SubscribeRequestBuilder.ListMode | pygnmi/client.py:870-878 | `stream`, `once` and `poll` are 0, 1 and 2; anything else raises `ValueError` |
| SubscribeRequestBuilder.SubscriptionModeValue | pygnmi/client.py:954 | `SubscriptionMode.Value` accepts exactly the three names, as 0 to 2 |
| SubscribeRequestBuilder.QosMarkingAsWritten | pygnmi/client.py:908-914 | accepts exactly a dictionary whose `int` marking is 0..64; otherwise raises `TypeError` for a non-dictionary and `KeyError` when `marking` is missing |
| SubscribeRequestBuilder.QosMarking | pygnmi/client.py:908-914 | accepts exactly a dictionary whose `int` marking is 0..64, and returns that marking; otherwise `ValueError` |
| SubscribeRequestBuilder.QosOf | pygnmi/client.py:902-914 | the QoS step's marking: none under `no_qos_marking`, 0 when absent or falsy, and always within 0..64; the step does not look at other keys, which `QosAccepted` refuses later |
| SubscribeRequestBuilder.QosAccepted | pygnmi/client.py:928-937 | the message constructor accepts `qos` only as `None` or as a dictionary whose only key is `marking`; another key raises `ValueError` |
| SubscribeRequestBuilder.ModelsImplemented | pygnmi/client.py:917-921 | a non-empty `use_models` list raises `NotImplementedError` |
| SubscribeRequestBuilder.ModelsAccepted | pygnmi/client.py:928-937 | the message constructor accepts `use_models` only when it is empty or `None` |
| SubscribeRequestBuilder.Header | pygnmi/client.py:859-937 | the settings part succeeds exactly when every check passes: flags, encoding, QoS, `use_models`, the prefix, and the constructor's `qos` and `use_models` checks. It carries the flags, the converted encoding, the QoS marking and the generator's reading of the prefix under the target, with no subscriptions yet |
| SubscribeRequestBuilder.Iterate | pygnmi/client.py:943 | iterating a list or tuple gives its items; a text gives one item per character |
| SubscribeRequestBuilder.EntryFields | pygnmi/client.py:949-979 | an entry's mode is 0 unless the list mode is stream; then it must name a known mode, and a missing one raises `ValueError` |
| SubscribeRequestBuilder.EntryOf | pygnmi/client.py:943-979 | an entry without `path` raises `ValueError`; an accepted entry's path is the generator's reading of its `path`, with no target |
| SubscribeRequestBuilder.BuildSubscriptionRequest | pygnmi/client.py:853-985 | the step-by-step builder returns `SubscribeRequestOf`, which uses the corrected `QosMarking` and `TimeNsEpoch`; the caller's dictionary is left with the first n defaults filled, and with all of them after success |
| SubscribeRequestBuilder.AddSubscriptions | pygnmi/client.py:943-979 | the entry loop gives one subscription per entry, and the first failure wins |
| SubscribeRequestBuilder.FillHeader | pygnmi/client.py:859-937 | the settings steps give `Header`, with the dictionary filled up to the step reached |
| SubscribeRequestBuilder.QosStep | pygnmi/client.py:902-914 | the QoS step gives `QosOf` and stores the QoS setting |
| SubscribeRequestBuilder.RequestParts | pygnmi/client.py:853-985 | a successful request is the settings part with the entries' subscriptions and the extension |
| SubscribeRequestBuilder.FlagsMode | pygnmi/client.py:866-878 | the list mode is `stream` when absent, and is read case-insensitively |
| SubscribeRequestBuilder.ModeRule | pygnmi/client.py:866-878 | a successful request's mode is the case-insensitive reading of the given mode, or of `stream`; any other name fails |
| SubscribeRequestBuilder.SubscriptionRequired | pygnmi/client.py:940-941 | a missing or falsy `subscription` raises `ValueError` |
| SubscribeRequestBuilder.EntriesRule | pygnmi/client.py:940-979 | one subscription per entry, in order; each entry is a dictionary with a `path` that is read by the generator; its mode is 0 unless in stream mode, where it is the entry's named mode |
| SubscribeRequestBuilder.MissingPath | pygnmi/client.py:945-946 | an entry without `path`, after accepted entries, raises `ValueError` |
| SubscribeRequestBuilder.QosRule | pygnmi/client.py:902-937 | a successful request's marking is none under `no_qos_marking`, and 0 when absent or falsy; otherwise it is the caller's valid marking, and `marking` is the only key of the caller's `qos` |
| SubscribeRequestBuilder.QosVersions | pygnmi/client.py:908-914 | both QoS readings accept the same values with the same marking; where `ValueError` is intended, the code as written raises `TypeError` or `KeyError` |
| SubscribeRequestBuilder.OneRequestKind | pygnmi/client.py:999-1000 | two or more truthy arguments among `subscribe`, `poll` and `aliases` raise `gNMIException` |
| UpdateMessage.EncodedValue | pygnmi/client.py:1512-1524 | exactly the five lower-case encoding names choose a member; otherwise `ValueError` |
| UpdateMessage.UpdateOf | pygnmi/client.py:1507-1528 | a non-tuple raises `gNMIException`; an update's path is the generator's reading of item 0, and its value is the member the lower-cased encoding chooses for the dumped item 1 |
| UpdateMessage.ConstructUpdateMessage | pygnmi/client.py:1502-1534 | the loop, which lower-cases the encoding in place, gives `Updates` |
| UpdateMessage.BuildUpdate | pygnmi/client.py:1508-1528 | one pass of the loop gives `UpdateOf`, whatever case the previous passes left |
| UpdateMessage.ConstructUpdatesOk | pygnmi/client.py:1502-1534 | on a list of good tuples with a known encoding in any case: one update per tuple, in order, each with its path and the chosen member |
| UpdateMessage.EmptyAndNonTuple | pygnmi/client.py:1506-1528 | an empty list gives no updates; a first element that is not a tuple raises `gNMIException` |
| UpdateMessage.UnknownEncoding | pygnmi/client.py:1523-1524 | an unknown encoding raises `ValueError` |
| UpdateMessage.ProcessPotentiallyJsonValue | pygnmi/client.py:1487-1499 | an empty text gives `None`; JSON text gives its value; any other text is returned as itself |
| Telemetry.PathText | pygnmi/client.py:1347-1361 | a rendered prefix or deleted path is the degenerator's text, or `""` for a path without elements |
| Telemetry.PathTexts | pygnmi/client.py:1438-1457 | one text per deleted path, in order |
| Telemetry.UpdatePath | pygnmi/client.py:1367-1371 | an update's path is the degenerator's text, and `None` when the path has no elements |
| Telemetry.JsonOf | pygnmi/client.py:1375-1378 | `json.loads` succeeds exactly when the decoder gives a value |
| Telemetry.FloatBits | pygnmi/client.py:1410-1413 | empty bytes raise `ValueError`, and a number of 2^32 or more raises; otherwise the value is the big-endian number as float bits |
| Telemetry.FloatBitsRoundTrip | pygnmi/client.py:1410-1413 | a float sent as its four bytes comes back as the same bits; 1 to 4 bytes always decode |
| Telemetry.UpdatePair | pygnmi/client.py:1422-1424 | an item handed to `dict.update` is a pair exactly when it is a two-item list or tuple with a text key, or a two-character text; an item of another length raises `ValueError`, and anything else raises `TypeError` |
| Telemetry.PairsUpdateRule | pygnmi/client.py:1422-1424 | `dict.update` over an iterable of items succeeds exactly when every item is a pair; otherwise it raises the error of the first item that is not |
| Telemetry.PairsUpdateLastWins | pygnmi/client.py:1422-1424 | after `dict.update` over pairs, a key holds the value of its last pair |
| Telemetry.PairsUpdateKeeps | pygnmi/client.py:1422-1424 | after `dict.update` over pairs, a key that no pair names keeps what it had, and no other key appears |
| Telemetry.DictUpdate | pygnmi/client.py:1422-1424 | `dict.update(v)`: a dictionary is merged in with its keys winning; a list or tuple is read as pairs; a non-empty text or byte string raises; a value that is not iterable raises `TypeError` |
| Telemetry.PairListMerged | pygnmi/client.py:1415-1434 | a leaf-list element decoding to `[["a", 1]]` gives `{"a": 1}`, and one decoding to `["ab"]` gives `{"a": "b"}` |
| Telemetry.ElementJsonAsWritten | pygnmi/client.py:1421-1426 | as written, `json_val` is always read: an element's own JSON for `json_val`, and empty bytes otherwise |
| Telemetry.ElementJson | pygnmi/client.py:1421-1426 | as intended: `json_val`, else `json_ietf_val`, else `TypeError` |
| Telemetry.ValueOf | pygnmi/client.py:1373-1434 | an unset value gives no `val`; JSON members decode exactly when the decoder accepts them; text, integer, bool and ASCII members are copied |
| Telemetry.UpdateEntryOf | pygnmi/client.py:1363-1436 | an update converts exactly when its value does, to the degenerator's path and that value |
| Telemetry.TelemetryParser | pygnmi/client.py:1330-1469 | the looping parser returns the corrected `Parse`, which differs from the code as written only as `ZeroTimestamp` and `LeafListIetf` state |
| Telemetry.ConvertUpdates | pygnmi/client.py:1363-1436 | the update loop converts each update, and the first failure wins |
| Telemetry.ConvertValue | pygnmi/client.py:1373-1434 | the branch on the member that is set gives `ValueOf` |
| Telemetry.MergeLeafList | pygnmi/client.py:1415-1434 | the leaf-list loop gives the intended `LeafList` |
| Telemetry.RenderPaths | pygnmi/client.py:1438-1457 | the deleted-path loop gives `PathTexts` |
| Telemetry.RenderPath | pygnmi/client.py:1347-1361 | the element loop and the join give `PathText` |
| Telemetry.RenderElem | pygnmi/client.py:1350-1359 | one element is its name followed by `[k=v]` for each key, in sorted order |
| Telemetry.AppendKeys | pygnmi/client.py:1356-1357 | the sorted-key loop appends `[k=v]` per key |
| Telemetry.SyncAndEmpty | pygnmi/client.py:1338-1469 | a sync response gives its flag; an error response or an empty message gives `None` |
| Telemetry.UpdatesFlattened | pygnmi/client.py:1338-1459 | a notification is flattened exactly when every value decodes: one entry per update, in order, with its timestamp, the prefix text, and deletes present exactly when there are any |
| Telemetry.MixedLeafList | pygnmi/client.py:1415-1434 | a leaf-list element that decodes to a scalar, or to a list holding an item that is not a pair, makes the whole message `None` |
| Telemetry.UndecodableValue | pygnmi/client.py:1466-1469 | any value that does not decode makes the whole message `None` |
| Telemetry.ZeroTimestamp | pygnmi/client.py:1341-1345 | as written, a zero timestamp always gives `None`; as intended it is kept; all other messages read the same both ways |
| Telemetry.LeafListIetf | pygnmi/client.py:1421-1424 | as written, a `json_ietf_val` leaf-list never decodes; as intended, its object is merged |
| Telemetry.LeafListJsonAgree | pygnmi/client.py:1421-1422 | both readings agree on `json_val` leaf-lists |
| TelemetryPaths.RenderedPathParses | pygnmi/client.py:1347-1361 | a rendered prefix or deleted path parses back to the same path through the generator |
| Subscription.Merge | pygnmi/client.py:1188-1198 | the merge succeeds exactly when the parser gave a result; a `None` cannot be searched and raises `TypeError` |
| Subscription.MergeAllSnoc | pygnmi/client.py:1183-1185 | merging one more message merges it into what the earlier ones gave |
| Subscription.MergeAllContents | pygnmi/client.py:1188-1198 | update and delete lists are concatenated in arrival order; timestamp, prefix and `sync_response` are the last message's |
| Subscription.GetOneSpec | pygnmi/client.py:1172-1173 | a negative timeout raises `ValueError`; an empty queue blocks without a timeout and raises `queue.Empty` with one; otherwise the oldest response is parsed and removed |
| Subscription.ParsedAll | pygnmi/client.py:1173 | each queued response parsed, in order |
| Subscription.TillSyncFirstSync | pygnmi/client.py:1175-1186 | coalescing returns the merge of every message up to and including the first sync, and leaves the rest queued |
| Subscription.TillSyncRejected | pygnmi/client.py:1183-1185 | a rejected message before any sync raises `TypeError`, with that message consumed |
| Subscription.TillSyncRunsDry | pygnmi/client.py:1175-1186 | with no sync queued, coalescing empties the queue, then blocks or raises `queue.Empty` |
| Subscription.Subscriber.constructor | pygnmi/client.py:1104-1152 | both queues start empty and both flags clear |
| Subscription.Subscriber.Deliver | pygnmi/client.py:1135-1136 | a received response is appended to `_updates` |
| Subscription.Subscriber.GetOne | pygnmi/client.py:1172-1173 | reads one response as `GetOneSpec` says, and changes nothing else |
| Subscription.Subscriber.TillSync | pygnmi/client.py:1175-1186 | the read-and-merge loop gives `TillSyncFrom`, and changes nothing else |
| Subscription.Subscriber.NextUpdate | pygnmi/client.py:1270-1275 | each kind's `_next_update` (Stream 1270-1275, Once 1296-1297, Poll 1310-1312) gives `NextUpdateSpec` |
| Subscription.Subscriber.Coalesce | pygnmi/client.py:1273 | coalescing from `{"update": {}}` |
| Subscription.Subscriber.Next | pygnmi/client.py:1216-1220 | `next()` is `_next_update` without a timeout |
| Subscription.Subscriber.IterNext | pygnmi/client.py:1203-1214 | `__next__` gives `IterNextSpec` |
| Subscription.Subscriber.GetUpdate | pygnmi/client.py:1228-1237 | `get_update` gives `GetUpdateSpec`, with `queue.Empty` turned into `TimeoutError` |
| Subscription.Subscriber.Peek | pygnmi/client.py:1239-1243 | reports whether a response is waiting |
| Subscription.Subscriber.Close | pygnmi/client.py:1245-1252 | appends `STOP` to `_msgs` |
| Subscription.StreamFirstThenSingle | pygnmi/client.py:1266-1275 | Stream sets the flag before its first call, which coalesces; every later call returns exactly one parsed message |
| Subscription.StreamFirstTimeout | pygnmi/client.py:1228-1237 | a timed-out first wait raises `TimeoutError` and discards what it read |
| Subscription.OnceStopsAfterSync | pygnmi/client.py:1203-1214 | Once never coalesces and its `_next_update` ignores `_once_end`; a returned sync ends the iteration, after which `__next__` raises `StopIteration` and leaves the queue alone |
| Subscription.OnceRejectedMessage | pygnmi/client.py:1211 | for Once, `__next__` on a rejected message raises `TypeError`; Stream hands back the `None` |
| Subscription.PollEnqueuesOne | pygnmi/client.py:1310-1312 | Poll puts exactly one `POLL` token per call; Stream and Once put none |
| Subscription.PollAnswer | pygnmi/client.py:1310-1312 | a queued poll answer yields the merge up to the sync, with updates in order and the rest left queued |
| Subscription.BeforeStop | pygnmi/client.py:1163-1168 | the tokens read before the first `STOP`, which contain no `STOP` |
| Subscription.ClientStreamFrames | pygnmi/client.py:1154-1170 | the stream sends the request first, then one poll frame per `POLL` before the first `STOP`, and ends exactly when a `STOP` was queued |
| Subscription.PollsThenClose | pygnmi/client.py:1161-1168 | n polls then `close()` give the request, n poll frames, and the end of the stream |
| XPathTools.LastSelectable | pygnmi/tools.py:198-199 | the last entry the selector loop is left with, as a position |
| XPathTools.Prepend | pygnmi/tools.py:186-195 | a prefix is put in front of every path, with values unchanged |
| XPathTools.XPathOf | pygnmi/tools.py:177-206 | a non-dictionary gives nothing; every value is a scalar; every path starts with the selector and then `/` |
| XPathTools.EntriesFrom | pygnmi/tools.py:182-201 | every path of the entries starts with `/` |
| XPathTools.EntryPart | pygnmi/tools.py:182-201 | every pair of entry k has a path starting with `/k` |
| XPathTools.ListItems | pygnmi/tools.py:189-195 | every pair of a list under k has a path starting with `/k` |
| XPathTools.ScalarsInOrder | pygnmi/tools.py:181-201 | a dictionary of scalars gives one `(/k, v)` per entry, in iteration order |
| XPathTools.ListWithoutDicts | pygnmi/tools.py:189-195 | a list without dictionaries gives nothing |
| XPathTools.ListElements | pygnmi/tools.py:189-195 | a list of dictionaries gives their pairs element by element, each behind `/k` and that element's selector |
| XPathTools.TopLevelNoSelector | pygnmi/tools.py:177-204 | no selector at the top level |
| XPathTools.LastScalarSelects | pygnmi/tools.py:198-204 | a list element made of scalars puts the selector of its last entry in front of every path |
| XPathTools.Find | pygnmi/tools.py:213 | the first entry for a key, with no earlier entry for that key, or none at all |
| XPathTools.Subscript | pygnmi/tools.py:213 | a dictionary subscripted by a key gives the value of that key's entry, else `KeyError`; a list subscripted by an integer gives the element at the Python index, else `IndexError`; every other combination raises (`KeyError` for a dictionary, `TypeError` otherwise); the result is part of the value subscripted |
| XPathTools.UniqueId | pygnmi/tools.py:209-219 | succeeds exactly when the walk reaches a dictionary; gives `""` exactly when every entry is a dictionary, and otherwise `[k=v]` for the last entry whose value is not a dictionary |
| XPathTools.GetUniqueId | pygnmi/tools.py:209-219 | the walk and the reassigning loop give `UniqueId` |
| XPathTools.FollowCompose | pygnmi/tools.py:212-213 | walking a path in two parts equals walking it at once |
| XPathTools.SelectorsAgree | pygnmi/tools.py:198-219 | without list values, `_dict_to_xpath`'s selector equals `_get_unique_id`'s |
| Strings.SortedSet | pygnmi/path_generator.py:96 | `sorted` gives every key once, in strictly increasing order |
| Strings.DecimalRoundTrip | pygnmi/path_generator.py:45-74 | `int(str(n))` is n, so the written index reads back |
| Strings.PyIndex | pygnmi/path_generator.py:74 | Python list indexing: negative indices count from the end; out of range gives none |
| Traverse.MapAllShape | pygnmi/client.py:1507-1528 | the first-failure loop's result holds one converted item per input, in order |

## Left out

- Regular expressions are written out for the patterns used. `.` is taken to match every character; a newline in a path is not treated specially.
- `str.lower`, `str.upper`, `int()` and whitespace follow ASCII only. Unicode case mapping is not modelled.
- Protobuf messages are values. A message is truthy when one of its fields is set. The checks that constructors make on field types are approximated by `ModelsAccepted`, `QosAccepted`, `SetInt64` and `SetUInt64`.
- JSON decoding and encoding, `str()` of containers, and `strptime(...).timestamp()` are function parameters. Their results depend on library code, the clock and the time zone.
- Floats are opaque values. `struct.pack("I")` failing on a value of 2^32 or more is reported as a generic exception, and the float's bits are kept rather than its value.
- The receiving thread in `_Subscriber.__init__`, its `error` slot, and `join(1)` in `close` are concurrency, so they are left out. Responses arrive through `Deliver`.
- Subscription.GetOneSpec: a timed wait on an empty queue always raises `queue.Empty`; a response arriving during the wait is not modelled.
- Subscription.Outcome: a call that would wait without a timeout reports `Blocked`; its later resumption is not modelled.
- Subscription.Merge: `_merge_updates` changes its dictionary in place; the model returns the new dictionary. Deleted paths are kept as their texts, not as `{"path": ...}` dictionaries.
- Subscription.ClientStream: the generator is a function of the tokens read, not a lazy iterator.
- Subscription.Subscriber: the parser is a fixed function of the response; the debug flag and the logging are left out.
- UpdateMessage.ProcessPotentiallyJsonValue: starts from the decoded text; `bytes.decode("utf-8")` failing on invalid UTF-8 is not modelled.
- GnmiExtension.GetGnmiExtension: the fresh `Extension` object that is filled field by field is modelled as a returned value.
- GnmiExtension.GetGnmiExtension: reads time texts with the corrected `TimeNsEpoch`, so a malformed text raises `ValueError` where the code as written raises `TypeError` (see "## Findings").
- SubscribeRequestBuilder.BuildSubscriptionRequest: `SubscribeRequestOf` uses the corrected `QosMarking` and `TimeNsEpoch`. So a refused `qos` raises `ValueError` where the code as written raises `KeyError` or `TypeError`, and a malformed time text raises `ValueError` where it raises `TypeError` (see "## Findings").
- Telemetry.TelemetryParser: returns the corrected `Parse`. So a zero timestamp is kept, and a `json_ietf_val` leaf-list is merged, where the code as written reads both messages as `None` (see "## Findings").
- Telemetry.DictUpdate: a pair whose key is not a text (a number, `None` or a bool, which Python would store) is refused with `TypeError`, because dictionaries here are keyed by texts; a two-key dictionary used as a pair is refused with `TypeError`, because dictionaries here have no key order.
- SubscribeRequestBuilder.QosAccepted: the type checks the constructor makes on the `marking` value itself (for instance on a `bool`) are not modelled.
- The client imports the path functions from `pygnmi.create_gnmi_path`, which is not part of this model; `pygnmi/path_generator.py` is modelled.
- `capabilities` is modelled only through its encoding-name map. The other fields of the reply, and the RPC itself, are left out.
- ClientTarget.Normalise: the target tuple is two strings; a port given as an `int` is not modelled.
- Telemetry.LeafList: a leaf-list whose elements are `str` cannot be built from protobuf `TypedValue` elements, so only `TypedValue` elements are modelled.
- Telemetry.ValueOf: `float_val`, `double_val`, `decimal_val`, `any_val` and `proto_bytes` are passed through as opaque values.
- SubscribeRequestBuilder.ListMode: a `mode` that is not text (no `lower()`) raises `AttributeError`; `bytes` modes are not modelled.
- SubscribeRequestBuilder.ModelsAccepted: `use_models` values other than an empty list or tuple, or `None`, are refused as a whole; per-model checks are not modelled.
- SubscribeRequestBuilder.Iterate: iterating a dictionary `subscription` (over its keys) is reported as `TypeError`.
- XPathTools.Subscript: indexing a text leaf with an integer is approximated as `TypeError`.
- XPathTools.Val: subclasses of `dict` and `list` are not told apart from the base classes. Dictionaries are entry sequences in iteration order, assumed to have distinct keys.
- `openconfig_diff` in `pygnmi/tools.py` depends on an external diff library, so it is left out.
- Channel setup, the RPC calls, `set_with_retry`, the command-line tools and packaging are gRPC, TLS and process I/O, so they are left out.

## Findings

| source | as written | input that shows it | evidently intended | confidence | as-written member | corrected member |
|---|---|---|---|---|---|---|
| pygnmi/client.py:1341-1345 | for a zero timestamp it calls the message object, which raises `TypeError`, so the whole message reads as `None` | an update notification with `timestamp == 0` | set `timestamp` to 0 in the result | not executed | Telemetry.ParseAsWritten (shown by Telemetry.ZeroTimestamp) | Telemetry.Parse |
| pygnmi/create_gnmi_extension.py:45-52 | `err.args += (f"...")` adds a `str` to a tuple, which raises `TypeError` in place of the parse error | `{"history": {"snapshot_time": "yesterday"}}` | re-raise the parse error with an explanatory argument | not executed | GnmiExtension.TimeNsEpochAsWritten (shown by GnmiExtension.BadTimeText) | GnmiExtension.TimeNsEpoch |
| pygnmi/client.py:908-914 | the error message reads `qos["marking"]`, which raises `TypeError` or `KeyError` before the `ValueError` | `qos = {"priority": 1}` gives `KeyError`; `qos = 5` gives `TypeError` | `ValueError` for every refused `qos` | not executed | SubscribeRequestBuilder.QosMarkingAsWritten (shown by SubscribeRequestBuilder.QosVersions) | SubscribeRequestBuilder.QosMarking |
| pygnmi/client.py:100-107 | line 107 overwrites the channel address of a `unix:` target | target `("unix:/tmp/gnmi.sock", "0")` dials `unix:/tmp/gnmi.sock:0` | dial the socket address itself | not executed | ClientTarget.NormaliseAsWritten (shown by ClientTarget.UnixAddressOverwritten) | ClientTarget.Normalise |
| pygnmi/client.py:1421-1424 | `hasattr(e, "json_val")` holds for every `TypedValue`, so a `json_ietf_val` element has its empty `json_val` decoded, which fails | a leaf-list with one `json_ietf_val` element | decode the member that is set | not executed | Telemetry.LeafListAsWritten (shown by Telemetry.LeafListIetf) | Telemetry.LeafList |
