/** The gNMI protobuf messages the client builds and reads, as values
    (gnmi.proto: `TypedValue`, `Update`, `Notification`, `SubscribeResponse`).
    Each `oneof` becomes a datatype with one constructor per member. */
module GnmiMessages {
  import opened Wrappers
  import opened Strings
  import opened PyValue
  import opened PathCodec

  /** `TypedValue`: which member of its `value` one-of is set, with that
      member's content. Floating-point, decimal and `Any` contents are opaque
      Python values. */
  datatype TypedValue =
    | Unset
    | StringVal(s: string)
    | IntVal(i: int)
    | UintVal(n: nat)
    | BoolVal(b: bool)
    | BytesVal(bytes: seq<Byte>)
    | FloatVal(float: Py)
    | DoubleVal(double: Py)
    | DecimalVal(decimal: Py)
    | LeaflistVal(element: seq<TypedValue>)
    | AnyVal(any: Py)
    | JsonVal(json: seq<Byte>)
    | JsonIetfVal(jsonIetf: seq<Byte>)
    | AsciiVal(ascii: string)
    | ProtoBytes(proto: seq<Byte>)

  datatype Update = Update(path: Path, val: TypedValue)

  datatype Notification = Notification(timestamp: int, prefix: Option<Path>, update: seq<Update>, delete: seq<Path>)

  /** `SubscribeResponse`: the member of its `response` one-of that is set. */
  datatype SubscribeResponse =
    | UpdateResponse(notification: Notification)
    | SyncResponse(sync: bool)
    | ErrorResponse
    | EmptyResponse

  /** A message is truthy when one of its fields is set. */
  predicate PathTruthy(p: Path)
  {
    p.origin != "" || p.target != "" || p.elems != []
  }

  predicate ValueTruthy(v: TypedValue)
  {
    !v.Unset?
  }

  /** `json.loads` on bytes: the decoded value, or `None` where it raises. */
  type Loads = seq<Byte> -> Option<Py>

  /** `gnmi_path_generator(v, target)` for any Python value: a falsy value
      gives the empty path, a text is parsed, and anything else fails in the
      first regular-expression call with `TypeError`. */
  function GeneratePy(v: Py, target: string): (r: Result<Path>)
    ensures v.PStr? ==> r == Generate(v.s, target)
    ensures !v.PStr? && !Truthy(v) ==> r == Ok(Path("", target, []))
    ensures !v.PStr? && Truthy(v) ==> r == Err(TypeError)
  {
    if v.PStr? then Generate(v.s, target)
    else if !Truthy(v) then Ok(Path("", target, []))
    else Err(TypeError)
  }
}
