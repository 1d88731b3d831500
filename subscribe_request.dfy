/** `_build_subscriptionrequest`: the checks and defaults that turn the
    caller's `subscribe` dictionary into a `SubscribeRequest`, and the
    one-kind-of-request rule of `subscribe`. */
module SubscribeRequestBuilder {
  import opened Wrappers
  import opened Strings
  import opened PyValue
  import opened PathCodec
  import opened GnmiMessages
  import opened GnmiExtension
  import opened Encodings
  import opened Traverse

  /** One `Subscription` of the list. */
  datatype SubscriptionEntry = SubscriptionEntry(
    path: Path, mode: int, sampleInterval: int, suppressRedundant: bool, heartbeatInterval: int)

  /** `SubscriptionList`; `qos` is the QoS marking, `None` when not sent. */
  datatype SubscriptionList = SubscriptionList(
    prefix: Path, useAliases: bool, qos: Option<int>, mode: int, allowAggregation: bool,
    encoding: int, updatesOnly: bool, subscription: seq<SubscriptionEntry>)

  datatype SubscribeRequest = SubscribeRequest(subscribe: SubscriptionList, extension: seq<Extension>)

  /** What the client contributes: its current encoding, the encodings the
      target reported (`None` when `connect` never set them) and its
      `no_qos_marking` flag. */
  datatype ClientSettings = ClientSettings(encoding: string, supported: Option<seq<string>>, noQosMarking: bool)

  const UInt64Limit: int := 0x1_0000_0000_0000_0000

  // ---------------------------------------------------------------------------
  // Defaults

  /** `subscribe[k]` once the builder has set a missing `k` to `default`. */
  function Setting(m: map<string, Py>, k: string, default: Py): (v: Py)
    ensures k in m ==> v == m[k]
    ensures k !in m ==> v == default
  {
    if k in m then m[k] else default
  }

  /** `subscribe["qos"]` after the QoS step: `None` under `no_qos_marking`,
      marking 0 in place of an absent or falsy one, else the caller's. */
  function QosSetting(m: map<string, Py>, s: ClientSettings): (v: Py)
    ensures s.noQosMarking ==> v == PNone
    ensures !s.noQosMarking && ("qos" !in m || !Truthy(m["qos"])) ==> v == PDict(map["marking" := PInt(0)])
    ensures !s.noQosMarking && "qos" in m && Truthy(m["qos"]) ==> v == m["qos"]
  {
    if s.noQosMarking then PNone
    else if "qos" !in m || !Truthy(m["qos"]) then PDict(map["marking" := PInt(0)])
    else m["qos"]
  }

  /** The keys the builder fills in, in its order. */
  const FillOrder: seq<string> :=
    ["use_aliases", "mode", "allow_aggregation", "updates_only", "encoding", "qos", "use_models", "prefix"]

  /** The lengths of the filled keys, all different. */
  const FillLengths: seq<nat> := [11, 4, 17, 12, 8, 3, 10, 6]

  /** The default the builder stores under the `i`-th filled key when it is
      missing. */
  function DefaultAt(i: nat, s: ClientSettings): Py
  {
    if i == 1 then PStr("stream")
    else if i == 4 then PStr(s.encoding)
    else if i == 6 then PList([])
    else if i == 7 then PStr("")
    else PBool(false)
  }

  /** The value the `i`-th filled key holds once its step is done. */
  function Defaulted(m: map<string, Py>, s: ClientSettings, i: nat): Py
    requires i < |FillOrder|
  {
    if i == 5 then QosSetting(m, s) else Setting(m, FillOrder[i], DefaultAt(i, s))
  }

  /** `subscribe.update({k: v})` when `k` is missing. */
  function SetDefault(m: map<string, Py>, k: string, v: Py): (r: map<string, Py>)
    ensures k in r && r[k] == Setting(m, k, v)
  {
    if k in m then m else m[k := v]
  }

  /** Step `i` of the builder on the dictionary: the QoS step sets `qos`
      outright, the others only fill a missing key. */
  function FillStep(d: map<string, Py>, m: map<string, Py>, s: ClientSettings, i: nat): map<string, Py>
    requires i < |FillOrder|
  {
    if i == 5 then d["qos" := QosSetting(m, s)] else SetDefault(d, FillOrder[i], DefaultAt(i, s))
  }

  /** The caller's dictionary after the first `n` steps. */
  function FilledUpTo(m: map<string, Py>, s: ClientSettings, n: nat): map<string, Py>
    requires n <= |FillOrder|
  {
    if n == 0 then m else FillStep(FilledUpTo(m, s, n - 1), m, s, n - 1)
  }

  /** The caller's dictionary once every default has been filled in. */
  function WithDefaults(m: map<string, Py>, s: ClientSettings): map<string, Py>
  {
    FilledUpTo(m, s, |FillOrder|)
  }

  lemma FillOrderDistinct(i: nat, j: nat)
    requires i < j < |FillOrder|
    ensures FillOrder[i] != FillOrder[j]
  {
    assert forall k :: 0 <= k < |FillOrder| ==> |FillOrder[k]| == FillLengths[k];
  }

  /** After `n` steps each of the first `n` filled keys holds its value. */
  lemma {:induction false} FilledKey(m: map<string, Py>, s: ClientSettings, n: nat, i: nat)
    requires i < n <= |FillOrder|
    ensures FillOrder[i] in FilledUpTo(m, s, n) && FilledUpTo(m, s, n)[FillOrder[i]] == Defaulted(m, s, i)
  {
    if i < n - 1 {
      FilledKey(m, s, n - 1, i);
      FillOrderDistinct(i, n - 1);
    } else if i != 5 {
      FilledOther(m, s, i, FillOrder[i]);
    }
  }

  /** After `n` steps every other key is the caller's, as it was. */
  lemma {:induction false} FilledOther(m: map<string, Py>, s: ClientSettings, n: nat, k: string)
    requires n <= |FillOrder| && k !in FillOrder[..n]
    ensures k in FilledUpTo(m, s, n) <==> k in m
    ensures k in m ==> FilledUpTo(m, s, n)[k] == m[k]
  {
    if n > 0 {
      assert FillOrder[n - 1] in FillOrder[..n];
      assert FillOrder[..n - 1] <= FillOrder[..n];
      FilledOther(m, s, n - 1, k);
    }
  }

  /** A key the builder never fills is the caller's after every step. */
  lemma NotFilled(m: map<string, Py>, s: ClientSettings, k: string)
    requires k !in FillOrder
    ensures k in WithDefaults(m, s) <==> k in m
    ensures k in m ==> WithDefaults(m, s)[k] == m[k]
  {
    assert FillOrder[..|FillOrder|] == FillOrder;
    FilledOther(m, s, |FillOrder|, k);
  }

  /** The caller's dictionary after the builder: its own entries, except for
      `qos`, and each filled key with its default where it was missing;
      `qos` holds the QoS step's value. */
  lemma DefaultsRule(m: map<string, Py>, s: ClientSettings, k: string)
    ensures k in WithDefaults(m, s) <==> k in m || k in FillOrder
    ensures k in m && k != "qos" ==> WithDefaults(m, s)[k] == m[k]
    ensures k in FillOrder && k !in m && k != "qos" ==> exists i :: 0 <= i < |FillOrder| && k == FillOrder[i] && WithDefaults(m, s)[k] == DefaultAt(i, s)
    ensures "qos" in WithDefaults(m, s) && WithDefaults(m, s)["qos"] == QosSetting(m, s)
  {
    assert FillOrder[..|FillOrder|] == FillOrder;
    FilledKey(m, s, |FillOrder|, 5);
    if k in FillOrder {
      var i :| 0 <= i < |FillOrder| && k == FillOrder[i];
      FilledKey(m, s, |FillOrder|, i);
    } else {
      FilledOther(m, s, |FillOrder|, k);
    }
  }

  // ---------------------------------------------------------------------------
  // The checks

  /** A flag that must be a `bool`. */
  function BoolField(v: Py): (r: Result<bool>)
    ensures r.Ok? <==> v.PBool?
    ensures r.Ok? ==> r.value == v.b
    ensures r.Err? ==> r.error == ValueError
  {
    if v.PBool? then Ok(v.b) else Err(ValueError)
  }

  /** `SubscriptionList.Mode`, from the lower-cased mode name. */
  function ListMode(lower: string): (r: Result<int>)
    ensures r.Ok? <==> lower in ["stream", "once", "poll"]
    ensures r.Ok? ==> 0 <= r.value <= 2 && ["stream", "once", "poll"][r.value] == lower
    ensures r.Err? ==> r.error == ValueError
  {
    if lower == "stream" then Ok(0)
    else if lower == "once" then Ok(1)
    else if lower == "poll" then Ok(2)
    else Err(ValueError)
  }

  /** `SubscriptionMode.Value(name)`. */
  function SubscriptionModeValue(name: string): (r: Result<int>)
    ensures r.Ok? <==> name in ["TARGET_DEFINED", "ON_CHANGE", "SAMPLE"]
    ensures r.Ok? ==> 0 <= r.value <= 2 && ["TARGET_DEFINED", "ON_CHANGE", "SAMPLE"][r.value] == name
    ensures r.Err? ==> r.error == ValueError
  {
    if name == "TARGET_DEFINED" then Ok(0)
    else if name == "ON_CHANGE" then Ok(1)
    else if name == "SAMPLE" then Ok(2)
    else Err(ValueError)
  }

  /** The QoS test: a dictionary whose `marking` is an `int` from 0 to 64. */
  predicate QosValid(q: Py)
  {
    q.PDict? && "marking" in q.entries && IsInt(q.entries["marking"])
    && 0 <= IntValue(q.entries["marking"]) <= 64
  }

  /** The QoS step as written: when the test fails, the error message itself
      reads `qos["marking"]`, which raises `TypeError` for a value that is not
      a dictionary and `KeyError` for one without `marking`, before the
      intended `ValueError` can be raised. */
  function QosMarkingAsWritten(q: Py): (r: Result<int>)
    ensures r.Ok? <==> QosValid(q)
    ensures !q.PDict? ==> r == Err(TypeError)
    ensures q.PDict? && "marking" !in q.entries ==> r == Err(KeyError)
  {
    if QosValid(q) then Ok(IntValue(q.entries["marking"]))
    else
      var _ :- GetItem(q, "marking");
      Err(ValueError)
  }

  /** The QoS step as intended: every value failing the test is refused with
      `ValueError`. */
  function QosMarking(q: Py): (r: Result<int>)
    ensures r.Ok? <==> QosValid(q)
    ensures r.Ok? ==> 0 <= r.value <= 64 && r.value == IntValue(q.entries["marking"])
    ensures r.Err? ==> r.error == ValueError
  {
    if QosValid(q) then Ok(IntValue(q.entries["marking"])) else Err(ValueError)
  }

  /** The QoS marking sent: none under `no_qos_marking`, 0 for an absent or
      falsy `qos`, else the caller's checked marking. */
  function QosOf(m: map<string, Py>, s: ClientSettings): (r: Result<Option<int>>)
    ensures s.noQosMarking ==> r == Ok(None)
    ensures !s.noQosMarking && ("qos" !in m || !Truthy(m["qos"])) ==> r == Ok(Some(0))
    ensures r.Ok? && r.value.Some? ==> 0 <= r.value.value <= 64
  {
    if s.noQosMarking then Ok(None)
    else if "qos" !in m || !Truthy(m["qos"]) then Ok(Some(0))
    else
      var marking :- QosMarking(m["qos"]);
      Ok(Some(marking))
  }

  /** The `qos` argument of the `SubscriptionList` constructor: `None`, or a
      dictionary naming only the message's one field, `marking`. A dictionary
      naming any other field is refused with `ValueError`, and any other value
      with `TypeError`. */
  function QosAccepted(q: Py): (r: Result<()>)
    ensures r.Ok? <==> q == PNone || (q.PDict? && q.entries.Keys <= {"marking"})
    ensures q.PDict? && r.Err? ==> r.error == ValueError
    ensures !q.PDict? && r.Err? ==> r.error == TypeError
  {
    if q == PNone then Ok(())
    else if !q.PDict? then Err(TypeError)
    else if q.entries.Keys <= {"marking"} then Ok(())
    else Err(ValueError)
  }

  /** `use_models`: a non-empty list is refused as not implemented, before
      the message is built. */
  function ModelsImplemented(v: Py): (r: Result<()>)
    ensures r.Err? <==> v.PList? && v.items != []
    ensures r.Err? ==> r.error == NotImplementedError
  {
    if v.PList? && v.items != [] then Err(NotImplementedError) else Ok(())
  }

  /** The message constructor, when it finally reads `use_models`, accepts an
      empty list or tuple, or `None`. */
  function ModelsAccepted(v: Py): (r: Result<()>)
    ensures r.Ok? <==> v == PList([]) || v == PTuple([]) || v == PNone
    ensures r.Err? ==> r.error == TypeError
  {
    if v == PList([]) || v == PTuple([]) || v == PNone then Ok(()) else Err(TypeError)
  }

  /** A value stored into a `uint64` field. */
  function SetUInt64(v: int): (r: Result<int>)
    ensures r.Ok? <==> 0 <= v < UInt64Limit
    ensures r.Ok? ==> r.value == v
  {
    if 0 <= v < UInt64Limit then Ok(v) else Err(ValueError)
  }

  /** An optional `int` setting: its value when present and an `int`, else 0. */
  function IntSetting(m: map<string, Py>, k: string): int
  {
    if k in m && IsInt(m[k]) then IntValue(m[k]) else 0
  }

  /** The four settings checked first: `use_aliases`, the list `mode`,
      `allow_aggregation` and `updates_only`. */
  datatype Flags = Flags(useAliases: bool, mode: int, allowAggregation: bool, updatesOnly: bool)

  function FlagsOf(m: map<string, Py>): (r: Result<Flags>)
  {
    var useAliases :- BoolField(Setting(m, "use_aliases", PBool(false)));
    var modeText :- LowerOf(Setting(m, "mode", PStr("stream")));
    var mode :- ListMode(modeText);
    var allowAggregation :- BoolField(Setting(m, "allow_aggregation", PBool(false)));
    var updatesOnly :- BoolField(Setting(m, "updates_only", PBool(false)));
    Ok(Flags(useAliases, mode, allowAggregation, updatesOnly))
  }

  /** Everything of the request but its subscriptions. */
  function Header(m: map<string, Py>, target: string, s: ClientSettings): (r: Result<SubscriptionList>)
    ensures r.Ok? <==>
              FlagsOf(m).Ok?
              && ConvertEncoding(Setting(m, "encoding", PStr(s.encoding)), "encoding" in m, s.supported, s.encoding).Ok?
              && QosOf(m, s).Ok?
              && ModelsImplemented(Setting(m, "use_models", PList([]))).Ok?
              && GeneratePy(Setting(m, "prefix", PStr("")), target).Ok?
              && QosAccepted(QosSetting(m, s)).Ok?
              && ModelsAccepted(Setting(m, "use_models", PList([]))).Ok?
    ensures r.Ok? ==>
              var f := FlagsOf(m).value;
              r.value.mode == f.mode && r.value.useAliases == f.useAliases
              && r.value.allowAggregation == f.allowAggregation && r.value.updatesOnly == f.updatesOnly
              && Ok(r.value.encoding) == ConvertEncoding(Setting(m, "encoding", PStr(s.encoding)), "encoding" in m, s.supported, s.encoding)
              && Ok(r.value.qos) == QosOf(m, s)
              && Ok(r.value.prefix) == GeneratePy(Setting(m, "prefix", PStr("")), target)
              && r.value.subscription == []
  {
    var f :- FlagsOf(m);
    EncodingAndQos(m, target, s, f)
  }

  /** The encoding and QoS steps, once the flags passed. */
  function EncodingAndQos(m: map<string, Py>, target: string, s: ClientSettings, f: Flags): (r: Result<SubscriptionList>)
    ensures r.Ok? ==> r.value.subscription == []
  {
    var encoding :- ConvertEncoding(Setting(m, "encoding", PStr(s.encoding)), "encoding" in m, s.supported, s.encoding);
    var qos :- QosOf(m, s);
    ModelsAndPrefix(m, target, s, f, encoding, qos)
  }

  /** The `use_models` and prefix steps, and the message built from the
      settings. */
  function ModelsAndPrefix(m: map<string, Py>, target: string, s: ClientSettings, f: Flags, encoding: int, qos: Option<int>): (r: Result<SubscriptionList>)
    ensures r.Ok? ==> r.value.subscription == []
  {
    var _ :- ModelsImplemented(Setting(m, "use_models", PList([])));
    var prefix :- GeneratePy(Setting(m, "prefix", PStr("")), target);
    var _ :- QosAccepted(QosSetting(m, s));
    var _ :- ModelsAccepted(Setting(m, "use_models", PList([])));
    Ok(SubscriptionList(prefix, f.useAliases, qos, f.mode, f.allowAggregation, encoding, f.updatesOnly, []))
  }

  /** `for se in subscription`: the items of a list or tuple, the characters
      of a text; other values are not iterable here. */
  function Iterate(v: Py): (r: Result<seq<Py>>)
    ensures v.PList? || v.PTuple? ==> r == Ok(v.items)
    ensures v.PStr? ==> r.Ok? && |r.value| == |v.s|
  {
    match v
    case PList(items) => Ok(items)
    case PTuple(items) => Ok(items)
    case PStr(s) => Ok(seq(|s|, i requires 0 <= i < |s| => PStr([s[i]])))
    case _ => Err(TypeError)
  }

  /** The fields of one subscription entry, after its path. */
  function EntryFields(m: map<string, Py>, path: Path, stream: bool): (r: Result<SubscriptionEntry>)
    ensures r.Ok? ==> r.value.path == path
    ensures r.Ok? && !stream ==> r.value.mode == 0
    ensures r.Ok? && stream ==> "mode" in m && m["mode"].PStr?
                                && SubscriptionModeValue(Upper(m["mode"].s)) == Ok(r.value.mode)
    ensures stream && "mode" !in m ==> r == Err(ValueError)
  {
    var mode :-
      if !stream then Ok(0)
      else if "mode" !in m then Err(ValueError)
      else
        var up :- UpperOf(m["mode"]);
        SubscriptionModeValue(up);
    var sample :- SetUInt64(IntSetting(m, "sample_interval"));
    var suppress := "suppress_redundant" in m && m["suppress_redundant"].PBool? && m["suppress_redundant"].b;
    var heartbeat :- SetUInt64(IntSetting(m, "heartbeat_interval"));
    Ok(SubscriptionEntry(path, mode, sample, suppress, heartbeat))
  }

  /** One subscription entry: it must name a `path`, which the generator
      reads without a target. */
  function EntryOf(se: Py, stream: bool): (r: Result<SubscriptionEntry>)
    ensures se.PDict? && "path" !in se.entries ==> r == Err(ValueError)
    ensures r.Ok? ==> se.PDict? && "path" in se.entries
                      && GeneratePy(se.entries["path"], "") == Ok(r.value.path)
                      && EntryFields(se.entries, r.value.path, stream) == r
  {
    var hasPath :- Contains(se, "path");
    if !hasPath then Err(ValueError)
    else
      var pathValue :- GetItem(se, "path");
      var path :- GeneratePy(pathValue, "");
      EntryFields(se.entries, path, stream)
  }

  /** `EntryOf` for a list whose mode is `stream` or not. */
  function EntryIn(stream: bool): Py -> Result<SubscriptionEntry>
  {
    se => EntryOf(se, stream)
  }

  /** The `SubscribeRequest` that `_build_subscriptionrequest(subscribe,
      target, extension)` returns, or the exception it raises. */
  function SubscribeRequestOf(sub: Py, target: string, ext: Py, s: ClientSettings, strptime: Strptime): Result<SubscribeRequest>
  {
    if !sub.PDict? then Err(ValueError)
    else
      var x :- GetGnmiExtension(ext, strptime);
      var header :- Header(sub.entries, target, s);
      SubscriptionsOf(sub.entries, header, x, s)
  }

  /** The last step: the subscription list, then the extension when it is
      truthy. */
  function SubscriptionsOf(m: map<string, Py>, header: SubscriptionList, x: Extension, s: ClientSettings): (r: Result<SubscribeRequest>)
  {
    if "subscription" !in m || !Truthy(m["subscription"]) then Err(ValueError)
    else
      var items :- Iterate(m["subscription"]);
      var entries :- MapAll(EntryIn(header.mode == 0), items, []);
      Ok(SubscribeRequest(header.(subscription := entries), if ExtensionTruthy(x) then [x] else []))
  }

  // ---------------------------------------------------------------------------
  // The method

  /** `_build_subscriptionrequest`: fills the defaults into the caller's
      dictionary (returned as `after`) step by step, checking each setting as
      it goes, then adds one subscription per entry. */
  method BuildSubscriptionRequest(sub: Py, target: string, ext: Py, s: ClientSettings, strptime: Strptime)
    returns (r: Result<SubscribeRequest>, after: Py, ghost n: nat)
    ensures r == SubscribeRequestOf(sub, target, ext, s, strptime)
    ensures !sub.PDict? ==> after == sub
    ensures sub.PDict? ==> n <= |FillOrder| && after == PDict(FilledUpTo(sub.entries, s, n))
    ensures r.Ok? ==> after == PDict(WithDefaults(sub.entries, s))
  {
    if !sub.PDict? {
      return Err(ValueError), sub, 0;
    }
    var m := sub.entries;
    var x := GetGnmiExtension(ext, strptime);
    if x.Err? {
      return Err(x.error), sub, 0;
    }
    var header, d;
    header, d, n := FillHeader(m, target, s);
    after := PDict(d);
    if header.Err? {
      return Err(header.error), after, n;
    }
    NotFilled(m, s, "subscription");
    if "subscription" !in d || !Truthy(d["subscription"]) {
      return Err(ValueError), after, n;
    }
    var items := Iterate(d["subscription"]);
    if items.Err? {
      return Err(items.error), after, n;
    }
    var stream := header.value.mode == 0;
    var entries := AddSubscriptions(items.value, stream);
    if entries.Err? {
      return Err(entries.error), after, n;
    }
    var request := header.value.(subscription := entries.value);
    if ExtensionTruthy(x.value) {
      r := Ok(SubscribeRequest(request, [x.value]));
    } else {
      r := Ok(SubscribeRequest(request, []));
    }
  }

  /** The loop over the entries: `request.subscription.add(...)` per entry. */
  method AddSubscriptions(items: seq<Py>, stream: bool) returns (r: Result<seq<SubscriptionEntry>>)
    ensures r == MapAll(EntryIn(stream), items, [])
  {
    var f := EntryIn(stream);
    var added: seq<SubscriptionEntry> := [];
    var i := 0;
    assert items[0..] == items;
    while i < |items|
      invariant 0 <= i <= |items|
      invariant MapAll(f, items, []) == MapAll(f, items[i..], added)
    {
      MapAllStep(f, items, i, added);
      var e := EntryOf(items[i], stream);
      if e.Err? {
        return Err(e.error);
      }
      added := added + [e.value];
      i := i + 1;
    }
    assert items[i..] == [];
    return Ok(added);
  }

  /** The first four settings, each default filled in just before its
      check; `n` counts the steps done. */
  method FillFlags(m: map<string, Py>, s: ClientSettings) returns (r: Result<Flags>, d: map<string, Py>, ghost n: nat)
    ensures r == FlagsOf(m)
    ensures n <= 4 && d == FilledUpTo(m, s, n) && (r.Ok? ==> n == 4)
  {
    d, n := SetDefault(m, "use_aliases", PBool(false)), 1;
    FilledKey(m, s, 1, 0);
    var useAliases := BoolField(d["use_aliases"]);
    if useAliases.Err? {
      return Err(useAliases.error), d, n;
    }
    d, n := SetDefault(d, "mode", PStr("stream")), 2;
    FilledKey(m, s, 2, 1);
    var modeText := LowerOf(d["mode"]);
    if modeText.Err? {
      return Err(modeText.error), d, n;
    }
    var mode := ListMode(modeText.value);
    if mode.Err? {
      return Err(mode.error), d, n;
    }
    d, n := SetDefault(d, "allow_aggregation", PBool(false)), 3;
    FilledKey(m, s, 3, 2);
    var allowAggregation := BoolField(d["allow_aggregation"]);
    if allowAggregation.Err? {
      return Err(allowAggregation.error), d, n;
    }
    d, n := SetDefault(d, "updates_only", PBool(false)), 4;
    FilledKey(m, s, 4, 3);
    var updatesOnly := BoolField(d["updates_only"]);
    if updatesOnly.Err? {
      return Err(updatesOnly.error), d, n;
    }
    r := Ok(Flags(useAliases.value, mode.value, allowAggregation.value, updatesOnly.value));
  }

  /** The settings part, in the order of the source: each default is filled
      in just before its check. */
  method FillHeader(m: map<string, Py>, target: string, s: ClientSettings) returns (r: Result<SubscriptionList>, d: map<string, Py>, ghost n: nat)
    ensures r == Header(m, target, s)
    ensures n <= |FillOrder| && d == FilledUpTo(m, s, n) && (r.Ok? ==> n == |FillOrder|)
  {
    var flags;
    flags, d, n := FillFlags(m, s);
    if flags.Err? {
      return Err(flags.error), d, n;
    }
    r, d, n := FillEncodingQos(m, d, target, s, flags.value);
  }

  /** The encoding step and the QoS step. */
  method FillEncodingQos(m: map<string, Py>, d: map<string, Py>, target: string, s: ClientSettings, f: Flags)
    returns (r: Result<SubscriptionList>, d': map<string, Py>, ghost n: nat)
    requires d == FilledUpTo(m, s, 4)
    ensures r == EncodingAndQos(m, target, s, f)
    ensures 4 < n <= |FillOrder| && d' == FilledUpTo(m, s, n) && (r.Ok? ==> n == |FillOrder|)
  {
    FilledOther(m, s, 4, "encoding");
    var explicit := "encoding" in d;
    d', n := SetDefault(d, "encoding", PStr(s.encoding)), 5;
    FilledKey(m, s, 5, 4);
    var encoding := ConvertEncoding(d'["encoding"], explicit, s.supported, s.encoding);
    if encoding.Err? {
      return Err(encoding.error), d', n;
    }
    var qos;
    qos, d' := QosStep(m, d', s);
    n := 6;
    if qos.Err? {
      return Err(qos.error), d', n;
    }
    r, d', n := FillModelsPrefix(m, d', target, s, f, encoding.value, qos.value);
  }

  /** The `use_models` step and the prefix step. */
  method FillModelsPrefix(m: map<string, Py>, d: map<string, Py>, target: string, s: ClientSettings, f: Flags, encoding: int, qos: Option<int>)
    returns (r: Result<SubscriptionList>, d': map<string, Py>, ghost n: nat)
    requires d == FilledUpTo(m, s, 6)
    ensures r == ModelsAndPrefix(m, target, s, f, encoding, qos)
    ensures 6 < n <= |FillOrder| && d' == FilledUpTo(m, s, n) && (r.Ok? ==> n == |FillOrder|)
  {
    d', n := SetDefault(d, "use_models", PList([])), 7;
    FilledKey(m, s, 7, 6);
    var implemented := ModelsImplemented(d'["use_models"]);
    if implemented.Err? {
      return Err(implemented.error), d', n;
    }
    d', n := SetDefault(d', "prefix", PStr("")), 8;
    FilledKey(m, s, 8, 7);
    FilledKey(m, s, 8, 6);
    var prefix := GeneratePy(d'["prefix"], target);
    if prefix.Err? {
      return Err(prefix.error), d', n;
    }
    FilledKey(m, s, 8, 5);
    var qosAccepted := QosAccepted(d'["qos"]);
    if qosAccepted.Err? {
      return Err(qosAccepted.error), d', n;
    }
    var accepted := ModelsAccepted(d'["use_models"]);
    if accepted.Err? {
      return Err(accepted.error), d', n;
    }
    r := Ok(SubscriptionList(prefix.value, f.useAliases, qos, f.mode, f.allowAggregation, encoding, f.updatesOnly, []));
  }

  /** The QoS step on the dictionary `d` left by the encoding step: the
      marking sent, or the refusal of a caller's `qos`. */
  method QosStep(m: map<string, Py>, d: map<string, Py>, s: ClientSettings) returns (r: Result<Option<int>>, d': map<string, Py>)
    requires d == FilledUpTo(m, s, 5)
    ensures r == QosOf(m, s)
    ensures d' == FilledUpTo(m, s, 6)
  {
    FilledOther(m, s, 5, "qos");
    if s.noQosMarking {
      d' := d["qos" := PNone];
      r := Ok(None);
    } else if "qos" !in d || !Truthy(d["qos"]) {
      d' := d["qos" := PDict(map["marking" := PInt(0)])];
      r := Ok(Some(0));
    } else {
      d' := d;
      assert d == d["qos" := QosSetting(m, s)];
      var marking := QosMarking(d["qos"]);
      if marking.Err? {
        return Err(marking.error), d';
      }
      r := Ok(Some(marking.value));
    }
  }

  // ---------------------------------------------------------------------------
  // What the builder promises

  /** A successful request is the header's settings with the entries'
      subscriptions. */
  lemma RequestParts(m: map<string, Py>, target: string, ext: Py, s: ClientSettings, strptime: Strptime)
    requires SubscribeRequestOf(PDict(m), target, ext, s, strptime).Ok?
    ensures GetGnmiExtension(ext, strptime).Ok? && Header(m, target, s).Ok?
    ensures SubscribeRequestOf(PDict(m), target, ext, s, strptime)
            == SubscriptionsOf(m, Header(m, target, s).value, GetGnmiExtension(ext, strptime).value, s)
  {
  }

  /** The subscriptions of a successful last step, one per entry. */
  lemma SubscriptionsParts(m: map<string, Py>, header: SubscriptionList, x: Extension, s: ClientSettings)
    requires SubscriptionsOf(m, header, x, s).Ok?
    ensures "subscription" in m && Truthy(m["subscription"]) && Iterate(m["subscription"]).Ok?
    ensures var entries := MapAll(EntryIn(header.mode == 0), Iterate(m["subscription"]).value, []);
            entries.Ok? && SubscriptionsOf(m, header, x, s).value.subscribe == header.(subscription := entries.value)
  {
  }

  /** The list mode read by the flags: `stream` when none is given, and
      `stream`, `once` and `poll` in any case as 0, 1 and 2. */
  lemma FlagsMode(m: map<string, Py>)
    requires FlagsOf(m).Ok?
    ensures var given := Setting(m, "mode", PStr("stream"));
            given.PStr? && ListMode(Lower(given.s)) == Ok(FlagsOf(m).value.mode)
  {
  }

  /** The list mode: `stream` when none is given, and `stream`, `once` and
      `poll` in any case as 0, 1 and 2; any other name is refused. */
  lemma ModeRule(m: map<string, Py>, target: string, ext: Py, s: ClientSettings, strptime: Strptime)
    ensures var r := SubscribeRequestOf(PDict(m), target, ext, s, strptime);
            var given := if "mode" in m then m["mode"] else PStr("stream");
            r.Ok? ==> given.PStr? && ListMode(Lower(given.s)) == Ok(r.value.subscribe.mode)
    ensures "mode" in m && m["mode"].PStr? && Lower(m["mode"].s) !in ["stream", "once", "poll"]
            ==> SubscribeRequestOf(PDict(m), target, ext, s, strptime).Err?
  {
    if SubscribeRequestOf(PDict(m), target, ext, s, strptime).Ok? {
      RequestParts(m, target, ext, s, strptime);
      var header := Header(m, target, s).value;
      SubscriptionsParts(m, header, GetGnmiExtension(ext, strptime).value, s);
      FlagsMode(m);
    }
  }

  /** A missing or empty `subscription` is refused once the settings pass. */
  lemma SubscriptionRequired(m: map<string, Py>, target: string, ext: Py, s: ClientSettings, strptime: Strptime)
    requires "subscription" !in m || !Truthy(m["subscription"])
    requires GetGnmiExtension(ext, strptime).Ok? && Header(m, target, s).Ok?
    ensures SubscribeRequestOf(PDict(m), target, ext, s, strptime) == Err(ValueError)
  {
  }

  /** A successful request holds one subscription per entry, in order; each
      entry is a dictionary with a `path`; its mode is 0 unless the list mode
      is `stream`, where the entry must name a known mode. */
  lemma EntriesRule(m: map<string, Py>, target: string, ext: Py, s: ClientSettings, strptime: Strptime)
    requires SubscribeRequestOf(PDict(m), target, ext, s, strptime).Ok?
    ensures "subscription" in m && Truthy(m["subscription"]) && Iterate(m["subscription"]).Ok?
    ensures var items := Iterate(m["subscription"]).value;
            var req := SubscribeRequestOf(PDict(m), target, ext, s, strptime).value.subscribe;
            |req.subscription| == |items| &&
            forall i :: 0 <= i < |items| ==>
              (items[i].PDict? && "path" in items[i].entries &&
               GeneratePy(items[i].entries["path"], "") == Ok(req.subscription[i].path) &&
               (req.mode != 0 ==> req.subscription[i].mode == 0) &&
               (req.mode == 0 ==>
                  "mode" in items[i].entries && items[i].entries["mode"].PStr? &&
                  SubscriptionModeValue(Upper(items[i].entries["mode"].s)) == Ok(req.subscription[i].mode)))
  {
    RequestParts(m, target, ext, s, strptime);
    var header := Header(m, target, s).value;
    SubscriptionsParts(m, header, GetGnmiExtension(ext, strptime).value, s);
    EntriesShape(Iterate(m["subscription"]).value, header.mode == 0);
  }

  /** The loop's result holds the conversion of each entry, in order. */
  lemma EntriesShape(items: seq<Py>, stream: bool)
    requires MapAll(EntryIn(stream), items, []).Ok?
    ensures var ys := MapAll(EntryIn(stream), items, []).value;
            |ys| == |items| && forall i :: 0 <= i < |items| ==> EntryOf(items[i], stream) == Ok(ys[i])
  {
    var f := EntryIn(stream);
    MapAllShape(f, items, []);
    var ys := MapAll(f, items, []).value;
    forall i | 0 <= i < |items|
      ensures EntryOf(items[i], stream) == Ok(ys[i])
    {
      assert f(items[i]) == Ok(ys[i]);
    }
  }

  /** An entry without `path` is refused with `ValueError` when every entry
      before it is accepted. */
  lemma MissingPath(m: map<string, Py>, target: string, ext: Py, s: ClientSettings, strptime: Strptime, k: nat)
    requires GetGnmiExtension(ext, strptime).Ok? && Header(m, target, s).Ok?
    requires "subscription" in m && m["subscription"].PList? && k < |m["subscription"].items|
    requires var items := m["subscription"].items;
             items[k].PDict? && "path" !in items[k].entries
             && forall i :: 0 <= i < k ==> EntryOf(items[i], Header(m, target, s).value.mode == 0).Ok?
    ensures SubscribeRequestOf(PDict(m), target, ext, s, strptime) == Err(ValueError)
  {
    var header := Header(m, target, s).value;
    var f := EntryIn(header.mode == 0);
    MapAllFirstErr(f, m["subscription"].items, [], k);
  }

  /** The QoS marking of a successful request. */
  lemma QosRule(m: map<string, Py>, target: string, ext: Py, s: ClientSettings, strptime: Strptime)
    requires SubscribeRequestOf(PDict(m), target, ext, s, strptime).Ok?
    ensures var q := SubscribeRequestOf(PDict(m), target, ext, s, strptime).value.subscribe.qos;
            && (s.noQosMarking ==> q == None)
            && (!s.noQosMarking && ("qos" !in m || !Truthy(m["qos"])) ==> q == Some(0))
            && (!s.noQosMarking && "qos" in m && Truthy(m["qos"]) ==>
                  QosValid(m["qos"]) && m["qos"].entries.Keys == {"marking"}
                  && q == Some(IntValue(m["qos"].entries["marking"])))
  {
    RequestParts(m, target, ext, s, strptime);
    SubscriptionsParts(m, Header(m, target, s).value, GetGnmiExtension(ext, strptime).value, s);
  }

  /** Finding: the two QoS steps accept the same values with the same
      marking; on a refused value the code as written raises the error of its
      own message (`TypeError`, `KeyError`) where `ValueError` was meant. */
  lemma QosVersions(q: Py)
    ensures QosMarkingAsWritten(q).Ok? <==> QosMarking(q).Ok?
    ensures QosMarking(q).Ok? ==> QosMarkingAsWritten(q) == QosMarking(q)
    ensures QosMarking(q).Err? ==> QosMarking(q) == Err(ValueError)
    ensures Truthy(q) && !q.PDict? ==> QosMarkingAsWritten(q) == Err(TypeError)
    ensures q == PDict(map["priority" := PInt(1)]) ==> QosMarkingAsWritten(q) == Err(KeyError)
  {
  }

  // ---------------------------------------------------------------------------
  // `subscribe`: one kind of request at a time

  /** How many of the three arguments are truthy. */
  function TruthyCount(subscribe: Py, poll: Py, aliases: Py): (n: nat)
    ensures n <= 3
  {
    (if Truthy(subscribe) then 1 else 0) + (if Truthy(poll) then 1 else 0) + (if Truthy(aliases) then 1 else 0)
  }

  /** The guard at the top of `subscribe`: any two of `subscribe`, `poll` and
      `aliases` together raise `gNMIException`. */
  function OneRequestKind(subscribe: Py, poll: Py, aliases: Py): (r: Result<()>)
    ensures r.Ok? <==> TruthyCount(subscribe, poll, aliases) <= 1
    ensures r.Err? ==> r.error == GnmiException
  {
    if (Truthy(subscribe) && Truthy(poll)) || (Truthy(subscribe) && Truthy(aliases)) || (Truthy(poll) && Truthy(aliases))
    then Err(GnmiException)
    else Ok(())
  }
}
