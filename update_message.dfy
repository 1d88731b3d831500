/** `construct_update_message`, which turns the `(path, value)` tuples of a
    Set request into `Update` messages, and `process_potentially_json_value`,
    which reads a Get response's JSON bytes. */
module UpdateMessage {
  import opened Wrappers
  import opened Strings
  import opened PyValue
  import opened PathCodec
  import opened GnmiMessages
  import opened Traverse

  /** `json.dumps(v)`: the JSON text, or `None` where it raises `TypeError`
      (a value JSON cannot represent). */
  type Dumps = Py -> Option<string>

  /** `str(v)`. */
  type Str = Py -> string

  /** The `TypedValue` member a lower-cased encoding name selects, holding
      the UTF-8 JSON text (or, for `ascii`, the `str()` text). */
  function EncodedValue(encoding: string, json: string, text: string): (r: Result<TypedValue>)
    ensures r.Ok? <==> encoding in {"json", "bytes", "proto", "ascii", "json_ietf"}
    ensures r.Err? ==> r.error == ValueError
  {
    if encoding == "json" then Ok(JsonVal(Utf8(json)))
    else if encoding == "bytes" then Ok(BytesVal(Utf8(json)))
    else if encoding == "proto" then Ok(ProtoBytes(Utf8(json)))
    else if encoding == "ascii" then Ok(AsciiVal(text))
    else if encoding == "json_ietf" then Ok(JsonIetfVal(Utf8(json)))
    else Err(ValueError)
  }

  /** One element of the list: it must be a tuple; its first item is the
      path, its second the value; the encoding is lower-cased only after the
      path and the value have been converted. */
  function UpdateOf(ue: Py, encoding: Py, dumps: Dumps, str: Str): (r: Result<Update>)
    ensures !ue.PTuple? ==> r == Err(GnmiException)
    ensures r.Ok? ==> ue.PTuple? && |ue.items| >= 2 && encoding.PStr?
                      && GeneratePy(ue.items[0], "") == Ok(r.value.path)
                      && dumps(ue.items[1]).Some?
                      && EncodedValue(Lower(encoding.s), dumps(ue.items[1]).value, str(ue.items[1])) == Ok(r.value.val)
  {
    if !ue.PTuple? then Err(GnmiException)
    else if |ue.items| == 0 then Err(IndexError)
    else
      var path :- GeneratePy(ue.items[0], "");
      if |ue.items| < 2 then Err(IndexError)
      else
        var json :- (match dumps(ue.items[1]) case Some(j) => Ok(j) case None => Err(TypeError));
        var lower :- LowerOf(encoding);
        var val :- EncodedValue(lower, json, str(ue.items[1]));
        Ok(Update(path, val))
  }

  function UpdateFor(encoding: Py, dumps: Dumps, str: Str): Py -> Result<Update>
  {
    ue => UpdateOf(ue, encoding, dumps, str)
  }

  /** What `construct_update_message(user_list, encoding)` returns. */
  function Updates(userList: Py, encoding: Py, dumps: Dumps, str: Str): Result<seq<Update>>
  {
    if !userList.PList? then Err(GnmiException)
    else MapAll(UpdateFor(encoding, dumps, str), userList.items, [])
  }

  /** `construct_update_message(user_list, encoding)`: appends one `Update`
      per tuple; the encoding is lower-cased in place on every pass. */
  method ConstructUpdateMessage(userList: Py, encoding: Py, dumps: Dumps, str: Str) returns (r: Result<seq<Update>>)
    ensures r == Updates(userList, encoding, dumps, str)
  {
    if !userList.PList? {
      return Err(GnmiException);
    }
    var items := userList.items;
    var f := UpdateFor(encoding, dumps, str);
    assert items[0..] == items;
    var result: seq<Update> := [];
    var enc := encoding;
    var i := 0;
    while i < |items|
      invariant 0 <= i <= |items|
      invariant enc == encoding || (encoding.PStr? && enc == PStr(Lower(encoding.s)))
      invariant Updates(userList, encoding, dumps, str) == MapAll(f, items[i..], result)
    {
      MapAllStep(f, items, i, result);
      var u;
      u, enc := BuildUpdate(items[i], encoding, enc, dumps, str);
      if u.Err? {
        return Err(u.error);
      }
      result := result + [u.value];
      i := i + 1;
    }
    assert items[i..] == [];
    return Ok(result);
  }

  /** The body of the loop for one element `ue`; `enc` is the encoding as
      the previous passes left it. */
  method BuildUpdate(ue: Py, encoding: Py, enc: Py, dumps: Dumps, str: Str) returns (r: Result<Update>, enc': Py)
    requires enc == encoding || (encoding.PStr? && enc == PStr(Lower(encoding.s)))
    ensures r == UpdateOf(ue, encoding, dumps, str)
    ensures enc' == encoding || (encoding.PStr? && enc' == PStr(Lower(encoding.s)))
  {
    enc' := enc;
    if !ue.PTuple? {
      return Err(GnmiException), enc';
    }
    if |ue.items| == 0 {
      return Err(IndexError), enc';
    }
    var uPath := GeneratePy(ue.items[0], "");
    if uPath.Err? {
      return Err(uPath.error), enc';
    }
    if |ue.items| < 2 {
      return Err(IndexError), enc';
    }
    var json := dumps(ue.items[1]);
    if json.None? {
      return Err(TypeError), enc';
    }
    var asciiText := str(ue.items[1]);
    if !enc.PStr? {
      return Err(AttributeError), enc';
    }
    LowerTwice(encoding.s);
    enc' := PStr(Lower(enc.s));
    var val := EncodedValue(enc'.s, json.value, asciiText);
    if val.Err? {
      return Err(val.error), enc';
    }
    return Ok(Update(uPath.value, val.value)), enc';
  }

  /** `construct_update_message` succeeds on a list of tuples, each with a
      path text and a JSON-representable value, and a known encoding in any
      case; it gives one update per tuple, in order, with the path the
      generator reads and the member the encoding selects. */
  lemma ConstructUpdatesOk(items: seq<Py>, encoding: string, dumps: Dumps, str: Str, paths: seq<Path>)
    requires Lower(encoding) in {"json", "bytes", "proto", "ascii", "json_ietf"}
    requires |paths| == |items|
    requires forall i :: 0 <= i < |items| ==> items[i].PTuple? && |items[i].items| >= 2
    requires forall i :: 0 <= i < |items| ==> GeneratePy(items[i].items[0], "") == Ok(paths[i])
    requires forall i :: 0 <= i < |items| ==> dumps(items[i].items[1]).Some?
    ensures Updates(PList(items), PStr(encoding), dumps, str).Ok?
    ensures var us := Updates(PList(items), PStr(encoding), dumps, str).value;
            |us| == |items| &&
            forall i :: 0 <= i < |items| ==>
              (us[i].path == paths[i] &&
               EncodedValue(Lower(encoding), dumps(items[i].items[1]).value, str(items[i].items[1])) == Ok(us[i].val))
  {
    var f := UpdateFor(PStr(encoding), dumps, str);
    forall i | 0 <= i < |items| ensures f(items[i]).Ok? {
      UpdateOk(items[i], encoding, dumps, str);
    }
    MapAllOk(f, items, []);
    MapAllShape(f, items, []);
    var us := MapAll(f, items, []).value;
    forall i | 0 <= i < |items|
      ensures us[i].path == paths[i]
      ensures EncodedValue(Lower(encoding), dumps(items[i].items[1]).value, str(items[i].items[1])) == Ok(us[i].val)
    {
      assert f(items[i]) == Ok(us[i]);
      UpdateOfOk(items[i], PStr(encoding), dumps, str, us[i]);
    }
  }

  lemma UpdateOfOk(ue: Py, encoding: Py, dumps: Dumps, str: Str, u: Update)
    requires UpdateOf(ue, encoding, dumps, str) == Ok(u)
    ensures ue.PTuple? && |ue.items| >= 2 && encoding.PStr?
    ensures GeneratePy(ue.items[0], "") == Ok(u.path)
    ensures dumps(ue.items[1]).Some?
    ensures EncodedValue(Lower(encoding.s), dumps(ue.items[1]).value, str(ue.items[1])) == Ok(u.val)
  {
  }

  lemma UpdateOk(ue: Py, encoding: string, dumps: Dumps, str: Str)
    requires Lower(encoding) in {"json", "bytes", "proto", "ascii", "json_ietf"}
    requires ue.PTuple? && |ue.items| >= 2 && GeneratePy(ue.items[0], "").Ok? && dumps(ue.items[1]).Some?
    ensures UpdateOf(ue, PStr(encoding), dumps, str).Ok?
  {
  }

  /** Whatever the encoding, an empty list gives no updates; a list holding a
      non-tuple fails with `gNMIException` unless an earlier element failed. */
  lemma EmptyAndNonTuple(items: seq<Py>, encoding: Py, dumps: Dumps, str: Str)
    ensures Updates(PList([]), encoding, dumps, str) == Ok([])
    ensures |items| > 0 && !items[0].PTuple? ==> Updates(PList(items), encoding, dumps, str) == Err(GnmiException)
  {
  }

  /** An encoding outside the five names fails with `ValueError` as soon as
      one element gets that far. */
  lemma UnknownEncoding(ue: Py, encoding: string, dumps: Dumps, str: Str)
    requires Lower(encoding) !in {"json", "bytes", "proto", "ascii", "json_ietf"}
    requires ue.PTuple? && |ue.items| >= 2 && GeneratePy(ue.items[0], "").Ok? && dumps(ue.items[1]).Some?
    ensures Updates(PList([ue]), PStr(encoding), dumps, str) == Err(ValueError)
  {
  }

  // ---------------------------------------------------------------------------
  // `process_potentially_json_value`

  /** `json.loads` on a text: the value, or `None` where it raises
      `JSONDecodeError`. */
  type LoadsText = string -> Option<Py>

  /** `process_potentially_json_value` on the already decoded text: `None` for
      an empty text, the JSON value where the text parses, else the text
      itself. */
  function ProcessPotentiallyJsonValue(text: string, loads: LoadsText): (r: Py)
    ensures r == PNone <==> text == "" || loads(text) == Some(PNone)
    ensures text != "" ==> Some(r) == loads(text) || (loads(text).None? && r == PStr(text))
  {
    if text != "" then
      match loads(text)
      case Some(v) => v
      case None => PStr(text)
    else PNone
  }
}
