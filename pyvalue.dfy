/** The Python values that the client's request builders and decoders inspect,
    and the few built-in operations they apply to them: truthiness,
    `isinstance(_, int)`, `k in c`, `c[k]` and `str.lower()`/`str.upper()`. */
module PyValue {
  import opened Wrappers
  import opened Strings

  /** A Python value. Dictionaries are keyed by strings, the only keys the
      client looks up. */
  datatype Py =
    | PNone
    | PBool(b: bool)
    | PInt(i: int)
    | PStr(s: string)
    | PBytes(bytes: seq<int>)
    | PFloatBits(bits: nat)          // the 32-bit float with this IEEE-754 bit pattern
    | PList(items: seq<Py>)
    | PTuple(items: seq<Py>)
    | PDict(entries: map<string, Py>)
    | PObject                        // any other object; always truthy

  /** `bool(v)`. */
  predicate Truthy(v: Py)
  {
    match v
    case PNone => false
    case PBool(b) => b
    case PInt(i) => i != 0
    case PStr(s) => s != ""
    case PBytes(bs) => bs != []
    case PFloatBits(bits) => bits % 0x8000_0000 != 0    // +0.0 and -0.0 are falsy
    case PList(items) => items != []
    case PTuple(items) => items != []
    case PDict(m) => m != map[]
    case PObject => true
  }

  /** `isinstance(v, int)`: `bool` is a subclass of `int`. */
  predicate IsInt(v: Py)
  {
    v.PInt? || v.PBool?
  }

  /** The integer value of an `int` or `bool`. */
  function IntValue(v: Py): (r: int)
    requires IsInt(v)
    ensures v.PBool? ==> r == (if v.b then 1 else 0)
    ensures v.PInt? ==> r == v.i
  {
    if v.PInt? then v.i else if v.b then 1 else 0
  }

  /** `k` occurs in `s` as a contiguous substring. */
  predicate IsSubstring(k: string, s: string)
  {
    exists i :: 0 <= i <= |s| && k <= s[i..]
  }

  /** `k in c` for a string `k`: a dictionary looks at its keys, a list or
      tuple at its items, a string at its substrings; anything else raises
      `TypeError`. */
  function Contains(c: Py, k: string): (r: Result<bool>)
    ensures r.Err? <==> !(c.PDict? || c.PList? || c.PTuple? || c.PStr?)
    ensures r.Err? ==> r.error == TypeError
    ensures c.PDict? ==> r == Ok(k in c.entries)
  {
    match c
    case PDict(m) => Ok(k in m)
    case PList(items) => Ok(PStr(k) in items)
    case PTuple(items) => Ok(PStr(k) in items)
    case PStr(s) => Ok(IsSubstring(k, s))
    case _ => Err(TypeError)
  }

  /** `c[k]` for a string `k`: `KeyError` for a missing key of a dictionary,
      `TypeError` for everything that is not a dictionary. */
  function GetItem(c: Py, k: string): (r: Result<Py>)
    ensures r.Ok? <==> c.PDict? && k in c.entries
    ensures r.Ok? ==> r.value == c.entries[k]
    ensures r.Err? ==> r.error == (if c.PDict? then KeyError else TypeError)
  {
    if c.PDict? then
      if k in c.entries then Ok(c.entries[k]) else Err(KeyError)
    else Err(TypeError)
  }

  /** `v.lower()`: only strings have it here. */
  function LowerOf(v: Py): (r: Result<string>)
    ensures r.Ok? <==> v.PStr?
    ensures r.Ok? ==> r.value == Lower(v.s)
    ensures r.Err? ==> r.error == AttributeError
  {
    if v.PStr? then Ok(Lower(v.s)) else Err(AttributeError)
  }

  /** `v.upper()`: only strings have it here. */
  function UpperOf(v: Py): (r: Result<string>)
    ensures r.Ok? <==> v.PStr?
    ensures r.Ok? ==> r.value == Upper(v.s)
    ensures r.Err? ==> r.error == AttributeError
  {
    if v.PStr? then Ok(Upper(v.s)) else Err(AttributeError)
  }
}
