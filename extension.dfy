/** `get_gnmi_extension` and `_get_time_ns_epoch`: a dictionary of the form
    `{"history": {"snapshot_time": t}}` or
    `{"history": {"range": {"start": t1, "end": t2}}}` becomes a gNMI History
    extension, each time given as nanoseconds since the epoch or as a
    `YYYY-MM-DDTHH:MM:SSZ` text. */
module GnmiExtension {
  import opened Wrappers
  import opened PyValue

  /** The `request` one-of of the History extension. */
  datatype HistoryRequest = SnapshotTime(time: int) | TimeRange(start: int, end: int)

  /** An `Extension` message; only its `history` member is ever filled. */
  datatype Extension = Extension(history: Option<HistoryRequest>)

  /** A protobuf message is truthy when one of its fields is set. */
  predicate ExtensionTruthy(e: Extension)
  {
    e.history.Some?
  }

  /** `datetime.strptime(text, "%Y-%m-%dT%H:%M:%SZ").timestamp()` scaled to
      nanoseconds: the clock and time-zone dependent part is a parameter that
      gives `None` for a text not in that form. */
  type Strptime = string -> Option<int>

  const Int64Min: int := -0x8000_0000_0000_0000
  const Int64Max: int := 0x7FFF_FFFF_FFFF_FFFF

  /** The body of the `try` in `_get_time_ns_epoch`: `strptime` accepts only a
      `str`, and raises `ValueError` for a text not in the format. */
  function ParseTime(t: Py, strptime: Strptime): (r: Result<int>)
    ensures !t.PStr? ==> r == Err(TypeError)
    ensures t.PStr? ==> (r.Ok? <==> strptime(t.s).Some?)
    ensures r.Err? ==> r.error == TypeError || r.error == ValueError
  {
    if !t.PStr? then Err(TypeError)
    else match strptime(t.s)
      case Some(ns) => Ok(ns)
      case None => Err(ValueError)
  }

  /** `_get_time_ns_epoch` as written: an `int` (or `bool`) is returned as it
      is; the `except` clause then does `err.args += (f"...")`, where the
      parentheses do not make a tuple, so adding a `str` to the tuple
      `err.args` raises a `TypeError` of its own in place of the parse error. */
  function TimeNsEpochAsWritten(t: Py, strptime: Strptime): (r: Result<int>)
    ensures IsInt(t) ==> r == Ok(IntValue(t))
    ensures r.Err? ==> r.error == TypeError
  {
    if IsInt(t) then Ok(IntValue(t))
    else match ParseTime(t, strptime)
      case Ok(ns) => Ok(ns)
      case Err(_) => Err(TypeError)
  }

  /** `_get_time_ns_epoch` as intended: the parse error is re-raised with an
      explanatory argument added, so its class is the parse error's. */
  function TimeNsEpoch(t: Py, strptime: Strptime): (r: Result<int>)
    ensures IsInt(t) ==> r == Ok(IntValue(t))
    ensures !IsInt(t) ==> r == ParseTime(t, strptime)
  {
    if IsInt(t) then Ok(IntValue(t)) else ParseTime(t, strptime)
  }

  /** Assigning to an `int64` field of a message rejects a value outside its
      range with `ValueError`. */
  function SetInt64(v: int): (r: Result<int>)
    ensures r.Ok? <==> Int64Min <= v <= Int64Max
    ensures r.Ok? ==> r.value == v
    ensures r.Err? ==> r.error == ValueError
  {
    if Int64Min <= v <= Int64Max then Ok(v) else Err(ValueError)
  }

  /** One time field: converted, then stored. */
  function TimeField(t: Py, strptime: Strptime): Result<int>
  {
    var ns :- TimeNsEpoch(t, strptime);
    SetInt64(ns)
  }

  /** The `range` branch: both ends must be named, the start is converted
      before the end. */
  function RangeRequest(range: Py, strptime: Strptime): (r: Result<HistoryRequest>)
    ensures r.Ok? ==> r.value.TimeRange?
  {
    var hasStart :- Contains(range, "start");
    var hasEnd := Contains(range, "end").value;
    if !(hasStart && hasEnd) then Err(PlainException)
    else
      var startValue :- GetItem(range, "start");
      var start :- TimeField(startValue, strptime);
      var endValue := GetItem(range, "end").value;
      var end :- TimeField(endValue, strptime);
      Ok(TimeRange(start, end))
  }

  /** The `history` branch: at most one of `snapshot_time` and `range`; with
      neither, nothing is set. */
  function HistoryOf(history: Py, strptime: Strptime): Result<Option<HistoryRequest>>
  {
    var hasSnapshot :- Contains(history, "snapshot_time");
    var hasRange := Contains(history, "range").value;
    if hasSnapshot && hasRange then Err(PlainException)
    else if hasSnapshot then
      var t :- GetItem(history, "snapshot_time");
      var ns :- TimeField(t, strptime);
      Ok(Some(SnapshotTime(ns)))
    else if hasRange then
      var range :- GetItem(history, "range");
      var req :- RangeRequest(range, strptime);
      Ok(Some(req))
    else Ok(None)
  }

  /** `get_gnmi_extension(ext)`. */
  function GetGnmiExtension(ext: Py, strptime: Strptime): (r: Result<Extension>)
    ensures !Truthy(ext) ==> r == Ok(Extension(None))
    ensures ext.PDict? && "history" !in ext.entries ==> r == Ok(Extension(None))
    ensures r.Ok? && ExtensionTruthy(r.value) ==> ext.PDict? || ext.PList? || ext.PTuple? || ext.PStr?
  {
    if !Truthy(ext) then Ok(Extension(None))
    else
      var hasHistory :- Contains(ext, "history");
      if !hasHistory then Ok(Extension(None))
      else
        var history :- GetItem(ext, "history");
        var req :- HistoryOf(history, strptime);
        Ok(Extension(req))
  }

  // ---------------------------------------------------------------------------
  // What the builder promises

  /** A history naming both `snapshot_time` and `range` is refused before
      either is looked at. */
  lemma BothRejected(ext: map<string, Py>, history: map<string, Py>, strptime: Strptime)
    requires "history" in ext && ext["history"] == PDict(history)
    requires "snapshot_time" in history && "range" in history
    ensures GetGnmiExtension(PDict(ext), strptime) == Err(PlainException)
  {
  }

  /** A `range` dictionary lacking `start` or `end` is refused. */
  lemma RangeNeedsBoth(ext: map<string, Py>, history: map<string, Py>, range: map<string, Py>, strptime: Strptime)
    requires "history" in ext && ext["history"] == PDict(history)
    requires "snapshot_time" !in history && "range" in history && history["range"] == PDict(range)
    requires "start" !in range || "end" !in range
    ensures GetGnmiExtension(PDict(ext), strptime) == Err(PlainException)
  {
  }

  /** Integer times are copied unchanged into the snapshot time. */
  lemma IntSnapshotCopied(ext: map<string, Py>, history: map<string, Py>, t: int, strptime: Strptime)
    requires "history" in ext && ext["history"] == PDict(history)
    requires "snapshot_time" in history && history["snapshot_time"] == PInt(t) && "range" !in history
    requires Int64Min <= t <= Int64Max
    ensures GetGnmiExtension(PDict(ext), strptime) == Ok(Extension(Some(SnapshotTime(t))))
  {
  }

  /** Integer times are copied unchanged into the range's ends. */
  lemma IntRangeCopied(ext: map<string, Py>, history: map<string, Py>, range: map<string, Py>,
                       t1: int, t2: int, strptime: Strptime)
    requires "history" in ext && ext["history"] == PDict(history)
    requires "snapshot_time" !in history && "range" in history && history["range"] == PDict(range)
    requires "start" in range && range["start"] == PInt(t1) && "end" in range && range["end"] == PInt(t2)
    requires Int64Min <= t1 <= Int64Max && Int64Min <= t2 <= Int64Max
    ensures GetGnmiExtension(PDict(ext), strptime) == Ok(Extension(Some(TimeRange(t1, t2))))
  {
  }

  /** A text time not in the `YYYY-MM-DDTHH:MM:SSZ` form: the intended
      re-raise gives the parse error's `ValueError`, the code as written a
      `TypeError`. */
  lemma BadTimeText(text: string, strptime: Strptime)
    requires strptime(text).None?
    ensures TimeNsEpoch(PStr(text), strptime) == Err(ValueError)
    ensures TimeNsEpochAsWritten(PStr(text), strptime) == Err(TypeError)
  {
  }

  /** The two versions agree whenever the conversion succeeds, and as
      written every failure becomes a `TypeError`. */
  lemma TimeNsEpochVersions(t: Py, strptime: Strptime)
    ensures TimeNsEpoch(t, strptime).Ok? <==> TimeNsEpochAsWritten(t, strptime).Ok?
    ensures TimeNsEpoch(t, strptime).Ok? ==> TimeNsEpoch(t, strptime) == TimeNsEpochAsWritten(t, strptime)
    ensures TimeNsEpochAsWritten(t, strptime).Err? ==> TimeNsEpochAsWritten(t, strptime).error == TypeError
  {
  }
}
