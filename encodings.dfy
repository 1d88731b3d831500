/** Encodings as the client names and numbers them: the capability map of
    `capabilities`, the preference order of `connect`, `convert_encoding`, and
    the operation names of `set`. */
module Encodings {
  import opened Wrappers
  import opened Strings
  import opened PyValue

  /** The `Encoding` enumeration of gnmi.proto, by name. */
  function EncodingValue(name: string): (r: Result<int>)
    ensures r.Ok? ==> 0 <= r.value <= 4
    ensures r.Err? ==> r.error == ValueError
  {
    if name == "JSON" then Ok(0)
    else if name == "BYTES" then Ok(1)
    else if name == "PROTO" then Ok(2)
    else if name == "ASCII" then Ok(3)
    else if name == "JSON_IETF" then Ok(4)
    else Err(ValueError)
  }

  /** How `capabilities` names a supported encoding: the four known numbers
      by their own name, every other number as `json_ietf`. */
  function EncodingName(n: int): (r: string)
    ensures r in Preference
  {
    if n == 0 then "json"
    else if n == 1 then "bytes"
    else if n == 2 then "proto"
    else if n == 3 then "ascii"
    else "json_ietf"
  }

  /** The names `capabilities` reports for a list of encoding numbers. */
  function EncodingNames(ns: seq<int>): (r: seq<string>)
    ensures |r| == |ns|
    ensures forall i :: 0 <= i < |ns| ==> r[i] == EncodingName(ns[i])
  {
    seq(|ns|, i requires 0 <= i < |ns| => EncodingName(ns[i]))
  }

  /** A reported name, upper-cased, is the enumeration name of the number it
      was reported for; every unknown number reads back as `JSON_IETF`. */
  lemma EncodingNameValue(n: int)
    ensures 0 <= n <= 4 ==> EncodingValue(Upper(EncodingName(n))) == Ok(n)
    ensures !(0 <= n <= 3) ==> EncodingValue(Upper(EncodingName(n))) == Ok(4)
  {
    var name := EncodingName(n);
    var up := Upper(name);
    if n == 0 {
      assert up == "JSON";
    } else if n == 1 {
      assert up == "BYTES";
    } else if n == 2 {
      assert up == "PROTO";
    } else if n == 3 {
      assert up == "ASCII";
    } else {
      assert up == "JSON_IETF";
    }
  }

  /** The order in which `connect` prefers the encodings a target supports. */
  const Preference: seq<string> := ["json", "json_ietf", "bytes", "proto", "ascii"]

  /** The encoding loop of `connect`: the first name of the preference order
      that the target supports, or the current encoding when there is none. */
  method PickEncoding(supported: seq<string>, current: string) returns (encoding: string)
    ensures (exists j :: 0 <= j < |Preference| && Preference[j] in supported) ==>
              exists j :: 0 <= j < |Preference| && encoding == Preference[j] && encoding in supported
                && forall i :: 0 <= i < j ==> Preference[i] !in supported
    ensures (forall j :: 0 <= j < |Preference| ==> Preference[j] !in supported) ==> encoding == current
  {
    encoding := current;
    var k := 0;
    while k < |Preference|
      invariant 0 <= k <= |Preference|
      invariant forall j :: 0 <= j < k ==> Preference[j] !in supported
      invariant encoding == current
    {
      if Preference[k] in supported {
        encoding := Preference[k];
        return;
      }
      k := k + 1;
    }
  }

  /** `convert_encoding(requested, explicit)` of a client whose default
      encoding is `default` and whose `__supported_encodings` attribute is
      `supported` (`None` while `connect` has not set it, so that reading it
      raises `AttributeError`). */
  function ConvertEncoding(requested: Py, explicit: bool, supported: Option<seq<string>>, default: string): (r: Result<int>)
    ensures (!explicit && requested.PStr? && requested.s != "" && supported.Some? && supported.value != []
             && Lower(requested.s) !in supported.value) ==> r == Err(ValueError)
    ensures (explicit || !Truthy(requested) || (supported.Some? && (supported.value == [] || (requested.PStr? && Lower(requested.s) in supported.value))))
            ==> r == EncodingOf(if Truthy(requested) then requested else PStr(default))
  {
    var reject :-
      if explicit || !Truthy(requested) then Ok(false)
      else if supported.None? then Err(AttributeError)
      else if supported.value == [] then Ok(false)
      else
        var lower :- LowerOf(requested);
        Ok(lower !in supported.value);
    if reject then Err(ValueError)
    else EncodingOf(if Truthy(requested) then requested else PStr(default))
  }

  /** `Encoding.Value(encoding.upper())`. */
  function EncodingOf(encoding: Py): (r: Result<int>)
    ensures encoding.PStr? ==> r == EncodingValue(Upper(encoding.s))
    ensures !encoding.PStr? ==> r == Err(AttributeError)
  {
    var up :- UpperOf(encoding);
    EncodingValue(up)
  }

  /** The request is matched case-insensitively against the supported names. */
  lemma ConvertCaseInsensitive(a: string, b: string, supported: seq<string>, default: string)
    requires Lower(a) == Lower(b) && Upper(a) == Upper(b)
    ensures ConvertEncoding(PStr(a), false, Some(supported), default) == ConvertEncoding(PStr(b), false, Some(supported), default)
  {
  }

  /** A name `capabilities` reported is accepted, in any case, and converts to
      the number it was reported for. */
  lemma ConvertReported(n: int, supported: seq<string>, default: string)
    requires 0 <= n <= 4 && EncodingName(n) in supported
    ensures ConvertEncoding(PStr(EncodingName(n)), false, Some(supported), default) == Ok(n)
    ensures ConvertEncoding(PStr(Upper(EncodingName(n))), false, Some(supported), default) == Ok(n)
  {
    var name := EncodingName(n);
    EncodingNameValue(n);
    LowerOfReported(n);
    UpperIdempotent(name);
  }

  lemma LowerOfReported(n: int)
    ensures Lower(EncodingName(n)) == EncodingName(n)
    ensures Lower(Upper(EncodingName(n))) == EncodingName(n)
  {
    var name := EncodingName(n);
    assert forall i :: 0 <= i < |name| ==> 'a' <= name[i] <= 'z' || name[i] == '_';
  }

  lemma UpperIdempotent(s: string)
    ensures Upper(Upper(s)) == Upper(s)
  {
  }

  // ---------------------------------------------------------------------------
  // `UpdateResult.Operation`

  /** The `op` of a Set response entry: absent for 0, the operation's name for
      1 to 3, and `UNDEFINED` for any other number. */
  function OpName(op: int): (r: Option<string>)
    ensures r.None? <==> op == 0
  {
    if op == 0 then None
    else if op == 1 then Some("DELETE")
    else if op == 2 then Some("REPLACE")
    else if op == 3 then Some("UPDATE")
    else Some("UNDEFINED")
  }

  /** `UpdateResult.Operation.Value(name)`. */
  function OperationValue(name: string): (r: Option<int>)
    ensures r.Some? ==> 0 <= r.value <= 3
  {
    if name == "INVALID" then Some(0)
    else if name == "DELETE" then Some(1)
    else if name == "REPLACE" then Some(2)
    else if name == "UPDATE" then Some(3)
    else None
  }

  /** Each named operation reads back as its number, and `UNDEFINED` is not
      an operation name. */
  lemma OpNameValue(op: int)
    ensures 1 <= op <= 3 ==> OperationValue(OpName(op).value) == Some(op)
    ensures op != 0 && !(1 <= op <= 3) ==> OperationValue(OpName(op).value) == None
  {
  }
}
