/** `telemetryParser`: the flattening of a `SubscribeResponse` into the
    dictionary the subscription iterators hand out. Every exception raised
    while decoding is caught and turns the whole result into `None`. */
module Telemetry {
  import opened Wrappers
  import opened Strings
  import opened PyValue
  import opened PathCodec
  import opened GnmiMessages
  import opened Traverse

  /** One entry of `response["update"]["update"]`: `path` is `None` for an
      empty path; `val` is absent when the value is unset. */
  datatype UpdateEntry = UpdateEntry(path: Option<string>, val: Option<Py>)

  /** The parser's dictionary: `{"update": {...}}` or `{"sync_response": b}`.
      `prefix` is absent without a prefix and `deletes` without deletions. */
  datatype Parsed =
    | ParsedUpdate(timestamp: int, prefix: Option<string>, updates: seq<UpdateEntry>, deletes: Option<seq<string>>)
    | ParsedSync(sync: bool)

  // ---------------------------------------------------------------------------
  // Paths

  /** A prefix or deleted path as the parser renders it: the element texts,
      keys in sorted order, joined by `/`; origin and target are dropped. */
  function PathText(p: Path): (r: string)
    ensures |p.elems| > 0 ==> Degenerate(p) == Some(r)
    ensures |p.elems| == 0 ==> r == ""
  {
    Join(ElemTexts(p.elems), "/")
  }

  /** The rendered deleted paths, in order. */
  function PathTexts(ps: seq<Path>): (r: seq<string>)
    ensures |r| == |ps| && forall i :: 0 <= i < |ps| ==> r[i] == PathText(ps[i])
  {
    seq(|ps|, i requires 0 <= i < |ps| => PathText(ps[i]))
  }

  /** An update's `path`: the degenerator's text, `None` for an unset path. */
  function UpdatePath(p: Path): (r: Option<string>)
    ensures r == Degenerate(p)
  {
    if PathTruthy(p) then Degenerate(p) else None
  }

  // ---------------------------------------------------------------------------
  // Values

  /** `json.loads(bytes)`, raising where the abstract decoder gives `None`. */
  function JsonOf(bytes: seq<Byte>, loads: Loads): (r: Result<Py>)
    ensures r.Ok? <==> loads(bytes).Some?
    ensures r.Ok? ==> r.value == loads(bytes).value
  {
    match loads(bytes)
    case Some(v) => Ok(v)
    case None => Err(ValueError)
  }

  function Pow256(k: nat): (r: nat)
    ensures r > 0
  {
    if k == 0 then 1 else 256 * Pow256(k - 1)
  }

  /** `int("".join(format(b, "08b") for b in bytes), 2)`: the bytes read as
      one big-endian number. */
  function BigEndian(bs: seq<Byte>): (n: nat)
    ensures n < Pow256(|bs|)
  {
    if |bs| == 0 then 0 else BigEndian(bs[..|bs| - 1]) * 256 + bs[|bs| - 1]
  }

  /** `bytes_val`: the 32 bits a `float` is unpacked from. No digits at all
      make `int` raise; a number of 2^32 or more makes `struct.pack("I")`
      raise. */
  function FloatBits(bs: seq<Byte>): (r: Result<Py>)
    ensures |bs| == 0 ==> r == Err(ValueError)
    ensures r.Ok? <==> |bs| > 0 && BigEndian(bs) < 0x1_0000_0000
    ensures r.Ok? ==> r.value == PFloatBits(BigEndian(bs))
  {
    if |bs| == 0 then Err(ValueError)
    else if BigEndian(bs) < 0x1_0000_0000 then Ok(PFloatBits(BigEndian(bs)))
    else Err(PlainException)
  }

  /** The four big-endian bytes of a 32-bit number. */
  function Be4(n: nat): (r: seq<Byte>)
    requires n < 0x1_0000_0000
    ensures |r| == 4
  {
    var m1 := n / 256;
    var m2 := m1 / 256;
    [m2 / 256, m2 % 256, m1 % 256, n % 256]
  }

  /** A float sent as its four bytes comes back as the same bits; any
      shorter non-empty byte string is a float as well. */
  lemma FloatBitsRoundTrip(n: nat, bs: seq<Byte>)
    requires n < 0x1_0000_0000
    ensures FloatBits(Be4(n)) == Ok(PFloatBits(n))
    ensures 0 < |bs| <= 4 ==> FloatBits(bs).Ok?
  {
    var b := Be4(n);
    var m1 := n / 256;
    var m2 := m1 / 256;
    assert b[..1][..0] == [] && b[..2][..1] == b[..1] && b[..3][..2] == b[..2] && b[..3] == b[..|b| - 1];
    assert BigEndian(b[..1]) == m2 / 256;
    assert BigEndian(b[..2]) == m2 / 256 * 256 + m2 % 256 == m2;
    assert BigEndian(b[..3]) == m2 * 256 + m1 % 256 == m1;
    assert BigEndian(b) == m1 * 256 + n % 256 == n;
    if 0 < |bs| <= 4 {
      assert Pow256(|bs|) <= Pow256(4) by {
        if |bs| < 4 {
          assert Pow256(|bs|) <= 256 * 256 * 256;
        }
      }
    }
  }

  /** `len(v)` for the sized values `dict.update` can iterate. */
  function SizeOf(v: Py): (r: Option<nat>)
    ensures r.Some? <==> v.PStr? || v.PBytes? || v.PList? || v.PTuple? || v.PDict?
  {
    match v
    case PStr(s) => Some(|s|)
    case PBytes(bs) => Some(|bs|)
    case PList(items) => Some(|items|)
    case PTuple(items) => Some(|items|)
    case PDict(m) => Some(|m|)
    case _ => None
  }

  /** One item of an iterable handed to `dict.update`: a sequence of exactly
      two items, the key and the value. A two-item list or tuple is its own
      pair, and a two-character text pairs its characters. An item of another
      length raises `ValueError`; one that is not iterable, or whose key is
      not a text, raises `TypeError`. */
  function UpdatePair(item: Py): (r: Result<(string, Py)>)
    ensures r.Ok? <==> ((item.PList? || item.PTuple?) && |item.items| == 2 && item.items[0].PStr?)
                       || (item.PStr? && |item.s| == 2)
    ensures r.Ok? && (item.PList? || item.PTuple?) ==> r.value == (item.items[0].s, item.items[1])
    ensures r.Ok? && item.PStr? ==> r.value == ([item.s[0]], PStr([item.s[1]]))
    ensures r.Err? ==> (r.error == ValueError <==> SizeOf(item).Some? && SizeOf(item).value != 2)
    ensures r.Err? ==> r.error == ValueError || r.error == TypeError
  {
    if SizeOf(item).Some? && SizeOf(item).value != 2 then Err(ValueError)
    else match item
      case PList(items) => if items[0].PStr? then Ok((items[0].s, items[1])) else Err(TypeError)
      case PTuple(items) => if items[0].PStr? then Ok((items[0].s, items[1])) else Err(TypeError)
      case PStr(s) => Ok(([s[0]], PStr([s[1]])))
      case _ => Err(TypeError)
  }

  /** `dict.update` over an iterable of pairs: each pair is stored in turn,
      and the first item that is no pair raises. */
  function PairsUpdate(acc: map<string, Py>, items: seq<Py>): Result<map<string, Py>>
    decreases |items|
  {
    if |items| == 0 then Ok(acc)
    else
      var p :- UpdatePair(items[0]);
      PairsUpdate(acc[p.0 := p.1], items[1..])
  }

  /** `dict.update` over pairs succeeds exactly when every item is a pair,
      and otherwise raises the error of the first item that is not one. */
  lemma {:induction false} PairsUpdateRule(acc: map<string, Py>, items: seq<Py>)
    ensures PairsUpdate(acc, items).Ok? <==> forall i :: 0 <= i < |items| ==> UpdatePair(items[i]).Ok?
    ensures PairsUpdate(acc, items).Err? ==>
              exists i :: 0 <= i < |items| && UpdatePair(items[i]).Err?
                          && PairsUpdate(acc, items).error == UpdatePair(items[i]).error
                          && forall j :: 0 <= j < i ==> UpdatePair(items[j]).Ok?
    decreases |items|
  {
    if |items| > 0 {
      var rest := items[1..];
      assert forall i :: 0 < i < |items| ==> items[i] == rest[i - 1];
      var p := UpdatePair(items[0]);
      if p.Ok? {
        var acc' := acc[p.value.0 := p.value.1];
        PairsUpdateRule(acc', rest);
        assert PairsUpdate(acc, items) == PairsUpdate(acc', rest);
        if PairsUpdate(acc', rest).Err? {
          var i :| 0 <= i < |rest| && UpdatePair(rest[i]).Err?
                   && PairsUpdate(acc', rest).error == UpdatePair(rest[i]).error
                   && forall j :: 0 <= j < i ==> UpdatePair(rest[j]).Ok?;
          assert items[i + 1] == rest[i];
        }
      }
    }
  }

  /** After `dict.update` over pairs, a key that no pair names keeps what it
      had. */
  lemma {:induction false} PairsUpdateKeeps(acc: map<string, Py>, items: seq<Py>, k: string)
    requires forall i :: 0 <= i < |items| ==> UpdatePair(items[i]).Ok? && UpdatePair(items[i]).value.0 != k
    ensures PairsUpdate(acc, items).Ok?
    ensures k in PairsUpdate(acc, items).value <==> k in acc
    ensures k in acc ==> PairsUpdate(acc, items).value[k] == acc[k]
    decreases |items|
  {
    if |items| > 0 {
      var rest := items[1..];
      assert forall m :: 0 <= m < |rest| ==> rest[m] == items[m + 1];
      var p := UpdatePair(items[0]).value;
      PairsUpdateKeeps(acc[p.0 := p.1], rest, k);
    }
  }

  /** After `dict.update` over pairs, the key of a pair that no later pair
      names holds that pair's value: the last pair for a key wins. */
  lemma {:induction false} PairsUpdateLastWins(acc: map<string, Py>, items: seq<Py>, i: nat)
    requires forall j :: 0 <= j < |items| ==> UpdatePair(items[j]).Ok?
    requires i < |items|
    requires forall j :: i < j < |items| ==> UpdatePair(items[j]).value.0 != UpdatePair(items[i]).value.0
    ensures PairsUpdate(acc, items).Ok?
    ensures UpdatePair(items[i]).value.0 in PairsUpdate(acc, items).value
    ensures PairsUpdate(acc, items).value[UpdatePair(items[i]).value.0] == UpdatePair(items[i]).value.1
    decreases |items|
  {
    var rest := items[1..];
    assert forall m :: 0 <= m < |rest| ==> rest[m] == items[m + 1];
    var p := UpdatePair(items[0]).value;
    var acc' := acc[p.0 := p.1];
    if i == 0 {
      PairsUpdateKeeps(acc', rest, p.0);
    } else {
      PairsUpdateLastWins(acc', rest, i - 1);
    }
  }

  /** `dict.update(v)` on the accumulated leaf-list value: a dictionary is
      merged in, later keys winning; a list or tuple is read as pairs; a
      text iterates one-character items and a byte string integers, so only
      an empty one is accepted; anything not iterable raises `TypeError`. */
  function DictUpdate(acc: map<string, Py>, v: Py): (r: Result<map<string, Py>>)
    ensures v.PDict? ==> r == Ok(acc + v.entries)
    ensures (v.PList? || v.PTuple?) ==> r == PairsUpdate(acc, v.items)
    ensures (v.PStr? || v.PBytes?) ==> (r.Ok? <==> SizeOf(v) == Some(0)) && (r.Ok? ==> r.value == acc)
    ensures SizeOf(v).None? ==> r == Err(TypeError)
  {
    match v
    case PDict(m) => Ok(acc + m)
    case PList(items) => PairsUpdate(acc, items)
    case PTuple(items) => PairsUpdate(acc, items)
    case PStr(s) => if s == "" then Ok(acc) else Err(ValueError)
    case PBytes(bs) => if bs == [] then Ok(acc) else Err(TypeError)
    case _ => Err(TypeError)
  }

  /** The JSON bytes read from one leaf-list element, as written:
      `hasattr(e, "json_val")` holds for every `TypedValue`, so the
      `json_val` field is read, empty when another member is set. */
  function ElementJsonAsWritten(e: TypedValue): (r: Result<seq<Byte>>)
    ensures r.Ok? && (e.JsonVal? ==> r.value == e.json) && (!e.JsonVal? ==> r.value == [])
  {
    Ok(if e.JsonVal? then e.json else [])
  }

  /** The JSON bytes read from one leaf-list element, as intended: the
      `json_val` member when it is set, else the `json_ietf_val` member, else
      the element is refused with `TypeError`. */
  function ElementJson(e: TypedValue): (r: Result<seq<Byte>>)
    ensures r.Ok? <==> e.JsonVal? || e.JsonIetfVal?
    ensures e.JsonVal? ==> r == Ok(e.json)
    ensures e.JsonIetfVal? ==> r == Ok(e.jsonIetf)
    ensures r.Err? ==> r.error == TypeError
  {
    if e.JsonVal? then Ok(e.json)
    else if e.JsonIetfVal? then Ok(e.jsonIetf)
    else Err(TypeError)
  }

  /** Merges the JSON objects of the elements, in order, into `acc`; `pick`
      says which bytes of an element are decoded. */
  function LeafMerge(pick: TypedValue -> Result<seq<Byte>>, es: seq<TypedValue>, acc: map<string, Py>, loads: Loads): Result<map<string, Py>>
    decreases |es|
  {
    if |es| == 0 then Ok(acc)
    else
      var bytes :- pick(es[0]);
      var v :- JsonOf(bytes, loads);
      var acc' :- DictUpdate(acc, v);
      LeafMerge(pick, es[1..], acc', loads)
  }

  /** `leaflist_val` as written. */
  function LeafListAsWritten(es: seq<TypedValue>, loads: Loads): Result<Py>
  {
    var m :- LeafMerge(ElementJsonAsWritten, es, map[], loads);
    Ok(PDict(m))
  }

  /** `leaflist_val` as intended. */
  function LeafList(es: seq<TypedValue>, loads: Loads): Result<Py>
  {
    var m :- LeafMerge(ElementJson, es, map[], loads);
    Ok(PDict(m))
  }

  /** The `val` of an update: `None` for an unset value, else the member's
      content, JSON decoded, a `bytes_val` read as float bits. */
  function ValueOf(v: TypedValue, loads: Loads): (r: Result<Option<Py>>)
    ensures v.Unset? <==> r == Ok(None)
    ensures (v.JsonVal? || v.JsonIetfVal?) ==>
              (r.Ok? <==> loads(if v.JsonVal? then v.json else v.jsonIetf).Some?)
              && (r.Ok? ==> r.value == loads(if v.JsonVal? then v.json else v.jsonIetf))
    ensures v.StringVal? ==> r == Ok(Some(PStr(v.s)))
    ensures v.IntVal? ==> r == Ok(Some(PInt(v.i)))
    ensures v.UintVal? ==> r == Ok(Some(PInt(v.n)))
    ensures v.BoolVal? ==> r == Ok(Some(PBool(v.b)))
    ensures v.AsciiVal? ==> r == Ok(Some(PStr(v.ascii)))
  {
    match v
    case Unset => Ok(None)
    case JsonIetfVal(b) => var x :- JsonOf(b, loads); Ok(Some(x))
    case JsonVal(b) => var x :- JsonOf(b, loads); Ok(Some(x))
    case StringVal(s) => Ok(Some(PStr(s)))
    case IntVal(i) => Ok(Some(PInt(i)))
    case UintVal(n) => Ok(Some(PInt(n)))
    case BoolVal(b) => Ok(Some(PBool(b)))
    case FloatVal(f) => Ok(Some(f))
    case DoubleVal(d) => Ok(Some(d))
    case DecimalVal(d) => Ok(Some(d))
    case AnyVal(a) => Ok(Some(a))
    case AsciiVal(s) => Ok(Some(PStr(s)))
    case ProtoBytes(bs) => Ok(Some(PBytes(bs)))
    case BytesVal(bs) => var x :- FloatBits(bs); Ok(Some(x))
    case LeaflistVal(es) => var x :- LeafList(es, loads); Ok(Some(x))
  }

  /** One update of the notification. */
  function UpdateEntryOf(u: Update, loads: Loads): (r: Result<UpdateEntry>)
    ensures r.Ok? <==> ValueOf(u.val, loads).Ok?
    ensures r.Ok? ==> r.value == UpdateEntry(Degenerate(u.path), ValueOf(u.val, loads).value)
  {
    var val :- ValueOf(u.val, loads);
    Ok(UpdateEntry(UpdatePath(u.path), val))
  }

  function EntryFor(loads: Loads): Update -> Result<UpdateEntry>
  {
    u => UpdateEntryOf(u, loads)
  }

  /** The dictionary for an update notification. */
  function NotificationOf(n: Notification, loads: Loads): Result<Parsed>
  {
    var updates :- MapAll(EntryFor(loads), n.update, []);
    Ok(ParsedUpdate(n.timestamp,
                    if n.prefix.Some? then Some(PathText(n.prefix.value)) else None,
                    updates,
                    if n.delete == [] then None else Some(PathTexts(n.delete))))
  }

  /** `telemetryParser(message)` as intended: an update notification
      flattened, a sync response as its flag, anything else `None`. */
  function Parse(msg: SubscribeResponse, loads: Loads): Option<Parsed>
  {
    match msg
    case UpdateResponse(n) =>
      var r := NotificationOf(n, loads);
      if r.Ok? then Some(r.value) else None
    case SyncResponse(b) => Some(ParsedSync(b))
    case ErrorResponse => None
    case EmptyResponse => None
  }

  /** `telemetryParser(message)` as written: for a zero timestamp the code
      calls the notification object itself instead of the result dictionary,
      which raises `TypeError`, so the whole message reads as `None`. */
  function ParseAsWritten(msg: SubscribeResponse, loads: Loads): (r: Option<Parsed>)
  {
    if msg.UpdateResponse? && msg.notification.timestamp == 0 then None
    else Parse(msg, loads)
  }

  // ---------------------------------------------------------------------------
  // The parser, loop by loop

  /** `telemetryParser`: the loops over prefix elements, updates, leaf-list
      elements and deleted paths, appending as they go. */
  method TelemetryParser(msg: SubscribeResponse, loads: Loads) returns (r: Option<Parsed>)
    ensures r == Parse(msg, loads)
  {
    if msg.UpdateResponse? {
      var n := msg.notification;
      var prefix: Option<string> := None;
      if n.prefix.Some? {
        var text := RenderPath(n.prefix.value);
        prefix := Some(text);
      }
      var updates := ConvertUpdates(n.update, loads);
      if updates.Err? {
        return None;
      }
      var deletes: Option<seq<string>> := None;
      if n.delete != [] {
        var texts := RenderPaths(n.delete);
        deletes := Some(texts);
      }
      r := Some(ParsedUpdate(n.timestamp, prefix, updates.value, deletes));
    } else if msg.SyncResponse? {
      r := Some(ParsedSync(msg.sync));
    } else {
      r := None;
    }
  }

  /** The loop over the updates of a notification. */
  method ConvertUpdates(us: seq<Update>, loads: Loads) returns (r: Result<seq<UpdateEntry>>)
    ensures r == MapAll(EntryFor(loads), us, [])
  {
    var f := EntryFor(loads);
    var entries: seq<UpdateEntry> := [];
    var i := 0;
    assert us[0..] == us;
    while i < |us|
      invariant 0 <= i <= |us|
      invariant MapAll(f, us, []) == MapAll(f, us[i..], entries)
    {
      MapAllStep(f, us, i, entries);
      var val := ConvertValue(us[i].val, loads);
      if val.Err? {
        return Err(val.error);
      }
      entries := entries + [UpdateEntry(UpdatePath(us[i].path), val.value)];
      i := i + 1;
    }
    assert us[i..] == [];
    return Ok(entries);
  }

  /** The branch on the member of the value that is set. */
  method ConvertValue(v: TypedValue, loads: Loads) returns (r: Result<Option<Py>>)
    ensures r == ValueOf(v, loads)
  {
    if v.LeaflistVal? {
      var x := MergeLeafList(v.element, loads);
      if x.Err? {
        return Err(x.error);
      }
      return Ok(Some(x.value));
    }
    r := ValueOf(v, loads);
  }

  /** The leaf-list loop: each element's JSON object merged into one
      dictionary. */
  method MergeLeafList(es: seq<TypedValue>, loads: Loads) returns (r: Result<Py>)
    ensures r == LeafList(es, loads)
  {
    var acc: map<string, Py> := map[];
    var i := 0;
    assert es[0..] == es;
    while i < |es|
      invariant 0 <= i <= |es|
      invariant LeafMerge(ElementJson, es, map[], loads) == LeafMerge(ElementJson, es[i..], acc, loads)
    {
      assert es[i..][0] == es[i] && es[i..][1..] == es[i + 1..];
      var bytes := ElementJson(es[i]);
      if bytes.Err? {
        return Err(bytes.error);
      }
      var v := JsonOf(bytes.value, loads);
      if v.Err? {
        return Err(v.error);
      }
      var acc' := DictUpdate(acc, v.value);
      if acc'.Err? {
        return Err(acc'.error);
      }
      acc := acc'.value;
      i := i + 1;
    }
    assert es[i..] == [];
    return Ok(PDict(acc));
  }

  /** The loop over the deleted paths. */
  method RenderPaths(ps: seq<Path>) returns (texts: seq<string>)
    ensures texts == PathTexts(ps)
  {
    texts := [];
    for i := 0 to |ps|
      invariant |texts| == i
      invariant forall j :: 0 <= j < i ==> texts[j] == PathText(ps[j])
    {
      var t := RenderPath(ps[i]);
      texts := texts + [t];
    }
  }

  /** The loop over the elements of one path, then the join. */
  method RenderPath(p: Path) returns (text: string)
    ensures text == PathText(p)
  {
    var parts: seq<string> := [];
    for i := 0 to |p.elems|
      invariant parts == ElemTexts(p.elems[..i])
    {
      var tp := RenderElem(p.elems[i]);
      parts := parts + [tp];
    }
    assert p.elems[..|p.elems|] == p.elems;
    text := Join(parts, "/");
  }

  /** One element: its name, then `[name=value]` per key in sorted order. */
  method RenderElem(e: PathElem) returns (tp: string)
    ensures tp == ElemText(e)
  {
    tp := "";
    if e.name != "" {
      tp := tp + e.name;
    }
    assert tp == e.name;
    var ks := SortedSet(e.keys.Keys);
    forall j | 0 <= j < |ks| ensures ks[j] in e.keys {
      assert ks[j] in ks;
    }
    tp := AppendKeys(tp, ks, e.keys);
  }

  /** The loop over the sorted keys, appending `[name=value]` to `tp0`. */
  method AppendKeys(tp0: string, ks: seq<string>, m: map<string, string>) returns (tp: string)
    requires forall j :: 0 <= j < |ks| ==> ks[j] in m
    ensures tp == tp0 + KeyText(ks, m)
  {
    tp := tp0;
    for i := 0 to |ks|
      invariant tp == tp0 + KeyText(ks[..i], m)
    {
      var piece := "[" + ks[i] + "=" + m[ks[i]] + "]";
      KeyTextSnoc(ks, m, i);
      assert tp0 + KeyText(ks[..i + 1], m) == tp0 + KeyText(ks[..i], m) + piece;
      tp := tp + piece;
    }
    assert ks[..|ks|] == ks;
  }

  lemma {:induction false} KeyTextSnoc(ks: seq<string>, m: map<string, string>, i: nat)
    requires i < |ks| && forall j :: 0 <= j < |ks| ==> ks[j] in m
    ensures KeyText(ks[..i + 1], m) == KeyText(ks[..i], m) + "[" + ks[i] + "=" + m[ks[i]] + "]"
  {
    if i > 0 {
      KeyTextSnoc(ks[1..], m, i - 1);
      assert ks[1..][..i] == ks[..i + 1][1..];
      assert ks[1..][..i - 1] == ks[..i][1..];
    }
  }

  // ---------------------------------------------------------------------------
  // What the parser promises

  /** A sync response gives `{"sync_response": flag}`; an error response and
      an empty message give `None`. */
  lemma SyncAndEmpty(b: bool, loads: Loads)
    ensures Parse(SyncResponse(b), loads) == Some(ParsedSync(b))
    ensures Parse(ErrorResponse, loads) == None && Parse(EmptyResponse, loads) == None
    ensures ParseAsWritten(SyncResponse(b), loads) == Some(ParsedSync(b))
  {
  }

  /** An update notification is flattened exactly when every value decodes:
      one entry per update, in order, with the degenerator's path; the prefix
      and the deleted paths as rendered texts. */
  lemma UpdatesFlattened(n: Notification, loads: Loads)
    ensures Parse(UpdateResponse(n), loads).Some? <==> forall i :: 0 <= i < |n.update| ==> ValueOf(n.update[i].val, loads).Ok?
    ensures var r := Parse(UpdateResponse(n), loads);
            r.Some? ==>
              r.value.ParsedUpdate? && r.value.timestamp == n.timestamp
              && |r.value.updates| == |n.update|
              && (forall i :: 0 <= i < |n.update| ==>
                    r.value.updates[i] == UpdateEntry(Degenerate(n.update[i].path), ValueOf(n.update[i].val, loads).value))
              && (n.prefix.None? ==> r.value.prefix.None?)
              && (n.prefix.Some? ==> r.value.prefix == Some(PathText(n.prefix.value)))
              && (r.value.deletes.Some? <==> n.delete != [])
              && (n.delete != [] ==> r.value.deletes.value == PathTexts(n.delete))
  {
    var f := EntryFor(loads);
    MapAllOk(f, n.update, []);
    assert (forall i :: 0 <= i < |n.update| ==> f(n.update[i]).Ok?)
       <==> (forall i :: 0 <= i < |n.update| ==> ValueOf(n.update[i].val, loads).Ok?);
    if MapAll(f, n.update, []).Ok? {
      MapAllShape(f, n.update, []);
      var ys := MapAll(f, n.update, []).value;
      forall i | 0 <= i < |n.update|
        ensures ys[i] == UpdateEntry(Degenerate(n.update[i].path), ValueOf(n.update[i].val, loads).value)
      {
        assert f(n.update[i]) == Ok(ys[i]);
      }
    }
  }

  /** A leaf-list whose first element decodes to a value `dict.update`
      cannot take (a scalar, or a list holding an item that is no pair)
      cannot be merged, and the whole message reads as `None`. */
  lemma MixedLeafList(es: seq<TypedValue>, loads: Loads, n: Notification, k: nat, bad: nat)
    requires |es| > 0 && es[0].JsonVal? && loads(es[0].json).Some?
    requires var v := loads(es[0].json).value;
             SizeOf(v).None? || (v.PList? && bad < |v.items| && UpdatePair(v.items[bad]).Err?)
    requires k < |n.update| && n.update[k].val == LeaflistVal(es)
    ensures LeafList(es, loads).Err?
    ensures Parse(UpdateResponse(n), loads) == None
  {
    var v := loads(es[0].json).value;
    if v.PList? {
      PairsUpdateRule(map[], v.items);
    }
    assert DictUpdate(map[], v).Err?;
    UndecodableValue(n, loads, k);
  }

  /** A leaf-list element whose JSON is a list of pairs is merged pair by
      pair: `[["a", 1]]` gives `{"a": 1}`, and `["ab"]` gives `{"a": "b"}`. */
  lemma PairListMerged(b1: seq<Byte>, b2: seq<Byte>, loads: Loads)
    requires loads(b1) == Some(PList([PList([PStr("a"), PInt(1)])]))
    requires loads(b2) == Some(PList([PStr("ab")]))
    ensures LeafList([JsonVal(b1)], loads) == Ok(PDict(map["a" := PInt(1)]))
    ensures LeafList([JsonVal(b2)], loads) == Ok(PDict(map["a" := PStr("b")]))
  {
    var e1 := [JsonVal(b1)];
    var e2 := [JsonVal(b2)];
    assert e1[1..] == [] && e2[1..] == [];
    var l1 := [PList([PStr("a"), PInt(1)])];
    var l2 := [PStr("ab")];
    assert l1[1..] == [] && l2[1..] == [];
    assert UpdatePair(l1[0]) == Ok(("a", PInt(1)));
    assert UpdatePair(l2[0]) == Ok(("a", PStr("b")));
    assert PairsUpdate(map[], l1) == Ok(map["a" := PInt(1)]);
    assert PairsUpdate(map[], l2) == Ok(map["a" := PStr("b")]);
    assert LeafMerge(ElementJson, e1, map[], loads) == LeafMerge(ElementJson, [], map["a" := PInt(1)], loads);
    assert LeafMerge(ElementJson, e2, map[], loads) == LeafMerge(ElementJson, [], map["a" := PStr("b")], loads);
  }

  /** A value that does not decode makes the whole message `None`. */
  lemma UndecodableValue(n: Notification, loads: Loads, k: nat)
    requires k < |n.update| && ValueOf(n.update[k].val, loads).Err?
    ensures Parse(UpdateResponse(n), loads) == None
  {
    UpdatesFlattened(n, loads);
  }

  /** Finding: as written, a notification with a zero timestamp always reads
      as `None`; as intended it is flattened with timestamp 0. Every other
      message reads the same both ways. */
  lemma ZeroTimestamp(n: Notification, msg: SubscribeResponse, loads: Loads)
    ensures n.timestamp == 0 ==> ParseAsWritten(UpdateResponse(n), loads) == None
    ensures n.timestamp == 0 && n.update == [] ==>
              Parse(UpdateResponse(n), loads).Some? && Parse(UpdateResponse(n), loads).value.timestamp == 0
    ensures !(msg.UpdateResponse? && msg.notification.timestamp == 0) ==> ParseAsWritten(msg, loads) == Parse(msg, loads)
  {
  }

  /** Finding: as written, a leaf-list of `json_ietf_val` elements never
      decodes, because the empty `json_val` is read instead; as intended the
      element's `json_ietf_val` is merged. */
  lemma LeafListIetf(bytes: seq<Byte>, loads: Loads)
    requires loads([]) == None
    requires loads(bytes).Some? && loads(bytes).value.PDict?
    ensures LeafListAsWritten([JsonIetfVal(bytes)], loads).Err?
    ensures LeafList([JsonIetfVal(bytes)], loads) == Ok(PDict(loads(bytes).value.entries))
  {
    var es := [JsonIetfVal(bytes)];
    assert es[0] == JsonIetfVal(bytes) && es[1..] == [];
    assert ElementJsonAsWritten(es[0]) == Ok([]) && JsonOf([], loads).Err?;
    var v := loads(bytes).value;
    assert JsonOf(bytes, loads) == Ok(v);
    assert map[] + v.entries == v.entries;
    assert DictUpdate(map[], v) == Ok(v.entries);
    assert LeafMerge(ElementJson, es, map[], loads) == LeafMerge(ElementJson, [], v.entries, loads);
  }

  /** The two readings agree on leaf-lists of `json_val` elements. */
  lemma {:induction false} LeafListJsonAgree(es: seq<TypedValue>, acc: map<string, Py>, loads: Loads)
    requires forall i :: 0 <= i < |es| ==> es[i].JsonVal?
    ensures LeafMerge(ElementJsonAsWritten, es, acc, loads) == LeafMerge(ElementJson, es, acc, loads)
    decreases |es|
  {
    if |es| > 0 {
      var v := JsonOf(es[0].json, loads);
      if v.Ok? && DictUpdate(acc, v.value).Ok? {
        LeafListJsonAgree(es[1..], DictUpdate(acc, v.value).value, loads);
      }
    }
  }
}

/** The parser's rendering of prefixes and deleted paths read back by the
    path generator. */
module TelemetryPaths {
  import opened Wrappers
  import opened PathCodec
  import opened Telemetry
  import PathRoundTrip

  /** A rendered prefix or deleted path, with its keys in sorted name order,
      parses back to the same path under the same target: the rendering
      loses nothing for paths without origin whose names and key values the
      generator can read. */
  lemma RenderedPathParses(p: Path)
    requires p.origin == "" && |p.elems| > 0 && ':' !in p.elems[0].name
    requires forall i :: 0 <= i < |p.elems| ==> PathRoundTrip.WfPathElem(p.elems[i])
    ensures Generate(PathText(p), p.target) == Ok(p)
  {
    PathRoundTrip.GenerateDegenerate(p);
  }
}
