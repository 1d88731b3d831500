/** The XPath-like string <-> gNMI `Path` codec of `pygnmi/path_generator.py`.

    `Generate` is the specification of `gnmi_path_generator`, stage by stage:
    the bracket predicates are first pulled out into a side table of
    `(key, value)` pairs and replaced by their index (`KeyStage`), the result is
    cut at `/` (`Segments`), the first segment may name the origin
    (`OriginSplit`), and every remaining segment becomes an element whose
    `[i]` indices are looked up in the side table (`ParseElems`).
    `GnmiPathGenerator` is the step-by-step procedure, proved equal to it.
    `Degenerate` is `gnmi_path_degenerator`. */
module PathCodec {
  import opened Wrappers
  import opened Strings

  /** An element of a gNMI path: its name and its key map. */
  datatype PathElem = PathElem(name: string, keys: map<string, string>)

  /** A gNMI path; the empty string stands for an unset origin or target. */
  datatype Path = Path(origin: string, target: string, elems: seq<PathElem>)

  /** One entry of the key side table: the dictionary `{key: value}`. */
  type KeyEntry = (string, string)

  // ---------------------------------------------------------------------------
  // The regular expressions of the key side table

  /** There is a `[`, then at least one character, `=`, at least one character
      and `]`: the pattern `.*?\[.+?=.+?\].*?` matches at the start of `s`. */
  predicate HasPredicate(s: string)
  {
    exists q, e, f :: 0 <= q && q + 2 <= e && e + 2 <= f < |s| && s[q] == '[' && s[e] == '=' && s[f] == ']'
  }

  /** Where the lazy `=` of the pattern sits: the first `=` at least two
      characters after the first `[`. */
  function EqualsAt(s: string): (e: nat)
    ensures Find(s, '[') + 2 <= e
  {
    var q := Find(s, '[');
    q + 2 + Find(From(s, q + 2), '=')
  }

  /** Where the lazy `]` of the pattern sits: the first `]` at least two
      characters after that `=`. */
  function CloseAt(s: string): (f: nat)
    ensures EqualsAt(s) + 2 <= f
  {
    var e := EqualsAt(s);
    e + 2 + Find(From(s, e + 2), ']')
  }

  /** End of the match of `.*?\[.+?=.+?\].*?` at the start of `s` (lazy
      quantifiers: the first `[`, then the first `=` after a non-empty key,
      then the first `]` after a non-empty value). */
  function MatchEnd(s: string): (r: Option<nat>)
    ensures r.Some? ==> 5 <= r.value <= |s|
  {
    var f := CloseAt(s);
    if f < |s| then Some(f + 1) else None
  }

  lemma MatchEndFindsPredicate(s: string)
    ensures MatchEnd(s).Some? <==> HasPredicate(s)
  {
    if MatchEnd(s).Some? {
      MatchEndWitness(s);
    }
    if HasPredicate(s) {
      var q', e', f' :| 0 <= q' && q' + 2 <= e' && e' + 2 <= f' < |s| && s[q'] == '[' && s[e'] == '=' && s[f'] == ']';
      PredicateBoundsMatch(s, q', e', f');
    }
  }

  lemma MatchEndWitness(s: string)
    requires MatchEnd(s).Some?
    ensures HasPredicate(s)
  {
    var q := Find(s, '[');
    var e := EqualsAt(s);
    var f := CloseAt(s);
    FindFound(s, '[');
    EqualsFound(s);
    CloseFound(s);
    assert q + 2 <= e && e + 2 <= f < |s|;
    assert s[q] == '[' && s[e] == '=' && s[f] == ']';
  }

  lemma EqualsFound(s: string)
    requires EqualsAt(s) < |s|
    ensures s[EqualsAt(s)] == '='
  {
    FoundAfter(s, Find(s, '[') + 2, '=');
  }

  lemma CloseFound(s: string)
    requires CloseAt(s) < |s|
    ensures s[CloseAt(s)] == ']'
  {
    FoundAfter(s, EqualsAt(s) + 2, ']');
  }

  /** A hit of `Find` on the text after `i` is a hit in `s`. */
  lemma FoundAfter(s: string, i: nat, c: char)
    requires i + Find(From(s, i), c) < |s|
    ensures s[i + Find(From(s, i), c)] == c
  {
    FindFound(From(s, i), c);
  }

  lemma PredicateBoundsMatch(s: string, q': nat, e': nat, f': nat)
    requires q' + 2 <= e' && e' + 2 <= f' < |s| && s[q'] == '[' && s[e'] == '=' && s[f'] == ']'
    ensures MatchEnd(s).Some?
  {
    var q := Find(s, '[');
    assert q <= q';
    var fe := From(s, q + 2);
    assert fe[e' - (q + 2)] == '=';
    var e := EqualsAt(s);
    assert e <= e';
    var ff := From(s, e + 2);
    assert ff[f' - (e + 2)] == ']';
    var f := CloseAt(s);
    assert f <= f';
  }

  /** `re.findall` of the same pattern: the consecutive matches, the first one
      at the start and each of the others where the previous one ended. */
  function FindAll(s: string): seq<string>
    decreases |s|
  {
    match MatchEnd(s)
    case None => []
    case Some(f) => [s[..f]] + FindAll(s[f..])
  }

  /** There are matches exactly when the pattern matches at the start; each
      is non-empty and together they spell a prefix of `s`. */
  lemma {:induction false} FindAllShape(s: string)
    ensures |FindAll(s)| > 0 <==> MatchEnd(s).Some?
    ensures forall i :: 0 <= i < |FindAll(s)| ==> |FindAll(s)[i]| > 0
    ensures Concat(FindAll(s)) <= s
    decreases |s|
  {
    match MatchEnd(s)
    case None =>
    case Some(f) =>
      var rest := FindAll(s[f..]);
      FindAllShape(s[f..]);
      assert FindAll(s) == [s[..f]] + rest;
      assert ([s[..f]] + rest)[1..] == rest;
      assert Concat(FindAll(s)) == s[..f] + Concat(rest);
      assert s == s[..f] + s[f..];
  }

  /** Position of the first `]` at least two characters after the first `[`
      (`|t|` or more when there is none). */
  function CloseAfterOpen(t: string): (r: nat)
    ensures Find(t, '[') + 2 <= r
  {
    var q := Find(t, '[');
    q + 2 + Find(From(t, q + 2), ']')
  }

  /** `re.sub(r'.*?\[(.+?)\].*?', r'\g<1>', t)`: every bracketed group is
      replaced by its contents, the text before it being dropped. */
  function SubGroup(t: string): string
    decreases |t|
  {
    var q := Find(t, '[');
    var r := CloseAfterOpen(t);
    if r < |t| then t[q + 1..r] + SubGroup(t[r + 1..]) else t
  }

  /** `re.sub(r'(.*?\[).+?(\].*?)', '\g<1>' + idx + '\g<2>', t)`: the contents
      of every bracketed group are replaced by `idx`. */
  function SubIndex(t: string, idx: string): string
    decreases |t|
  {
    var q := Find(t, '[');
    var r := CloseAfterOpen(t);
    if r < |t| then t[..q + 1] + idx + "]" + SubIndex(t[r + 1..], idx) else t
  }

  // ---------------------------------------------------------------------------
  // Stage 1: the key side table

  /** The loop over the matches: each match's group is split at `=` into
      exactly a key and a value (anything else raises `ValueError` on
      unpacking), appended to the side table, and the match is written back
      with its group replaced by the new entry's index. */
  function RewriteMatches(matches: seq<string>, keys: seq<KeyEntry>, temp: string)
    : (r: Result<(string, seq<KeyEntry>)>)
    ensures r.Ok? ==> |r.value.1| == |keys| + |matches| && r.value.1[..|keys|] == keys
    ensures r.Err? ==> r.error == ValueError
  {
    if |matches| == 0 then Ok((temp, keys))
    else
      var parts := Split(SubGroup(matches[0]), '=');
      if |parts| != 2 then Err(ValueError)
      else
        var keys' := keys + [(parts[0], parts[1])];
        var r := RewriteMatches(matches[1..], keys', temp + SubIndex(matches[0], NatToDecimal(|keys'| - 1)));
        assert r.Ok? ==> r.value.1[..|keys|] == r.value.1[..|keys'|][..|keys|];
        r
  }

  /** The rewritten path and the side table.  Text after the last match is
      appended with the matched text removed by `str.replace`. */
  function KeyStage(s: string): (r: Result<(string, seq<KeyEntry>)>)
    ensures r.Err? ==> r.error == ValueError
    ensures MatchEnd(s).None? ==> r == Ok((s, []))
  {
    if MatchEnd(s).None? then Ok((s, []))
    else
      var matches := FindAll(s);
      var matched := Concat(matches);
      var rw :- RewriteMatches(matches, [], "");
      Ok((if |matched| < |s| then rw.0 + Remove(s, matched) else rw.0, rw.1))
  }

  // ---------------------------------------------------------------------------
  // Stage 2: segments and origin

  /** `list(filter(None, s.split('/')))`. */
  function Segments(s: string): (r: seq<string>)
    ensures forall i :: 0 <= i < |r| ==> r[i] != "" && '/' !in r[i]
  {
    NonEmpty(Split(s, '/'))
  }

  /** `re.match('.+?:.*?', seg)`: a `:` after at least one character. */
  predicate HasOrigin(seg: string)
  {
    |seg| > 1 && ':' in seg[1..]
  }

  /** The origin taken from the first segment, and the segments left: the text
      before its first `:` is the origin; the text after it replaces the
      segment, or the segment is dropped when that text is empty. */
  function OriginSplit(segs: seq<string>): (r: (string, seq<string>))
    ensures |segs| == 0 || !HasOrigin(segs[0]) ==> r == ("", segs)
    ensures |segs| > 0 && HasOrigin(segs[0]) ==>
              var c := Find(segs[0], ':');
              c < |segs[0]| && r.0 == segs[0][..c] && ':' !in r.0 &&
              r.1 == (if segs[0][c + 1..] != "" then [segs[0][c + 1..]] else []) + segs[1..]
  {
    if |segs| > 0 && HasOrigin(segs[0]) then
      var seg := segs[0];
      var c := Find(seg, ':');
      assert c < |seg| by { assert ':' in seg; FindFound(seg, ':'); }
      (seg[..c], if seg[c + 1..] != "" then [seg[c + 1..]] + segs[1..] else segs[1..])
    else ("", segs)
  }

  // ---------------------------------------------------------------------------
  // Stage 3: elements

  /** End of the run of decimal digits starting at `i`. */
  function DigitRunEnd(s: string, i: nat): (j: nat)
    requires i <= |s|
    ensures i <= j <= |s|
    ensures forall k :: i <= k < j ==> IsDigit(s[k])
    ensures j < |s| ==> !IsDigit(s[j])
    decreases |s| - i
  {
    if i < |s| && IsDigit(s[i]) then DigitRunEnd(s, i + 1) else i
  }

  /** `re.match(r'.+?\[\d+?\]', seg)`: after at least one character, a `[`,
      one or more digits and a `]`. */
  predicate IsIndexed(seg: string)
  {
    exists q :: 1 <= q < |seg| && seg[q] == '[' && IndexAt(seg, q)
  }

  predicate IndexAt(seg: string, q: nat)
    requires q < |seg|
  {
    var j := DigitRunEnd(seg, q + 1);
    q + 1 < j < |seg| && seg[j] == ']'
  }

  /** `[re.sub(']', '', en) for en in parts]`. */
  function StripCloses(parts: seq<string>): (r: seq<string>)
    ensures |r| == |parts|
    ensures forall i :: 0 <= i < |r| ==> r[i] == RemoveChar(parts[i], ']')
  {
    seq(|parts|, i requires 0 <= i < |parts| => RemoveChar(parts[i], ']'))
  }

  /** `element_keys.update(keys[int(idx)])` for each index text in turn:
      `int()` may raise `ValueError`, the (possibly negative) list index
      `IndexError`. */
  function MergeKeys(indices: seq<string>, keys: seq<KeyEntry>, acc: map<string, string>)
    : (r: Result<map<string, string>>)
    ensures r.Err? ==> r.error == ValueError || r.error == IndexError
    ensures r.Ok? ==> acc.Keys <= r.value.Keys
  {
    if |indices| == 0 then Ok(acc)
    else
      match PyInt(indices[0])
      case None => Err(ValueError)
      case Some(n) =>
        match PyIndex(n, |keys|)
        case None => Err(IndexError)
        case Some(i) => MergeKeys(indices[1..], keys, acc[keys[i].0 := keys[i].1])
  }

  /** One element: an indexed segment is cut at `[`, the `]` are removed, the
      first part is the name and the others index the side table; any other
      segment is a name without keys. */
  function ParseElem(seg: string, keys: seq<KeyEntry>): (r: Result<PathElem>)
    ensures r.Err? ==> r.error == ValueError || r.error == IndexError
    ensures !IsIndexed(seg) ==> r == Ok(PathElem(seg, map[]))
  {
    if IsIndexed(seg) then
      var info := StripCloses(Split(seg, '['));
      var m :- MergeKeys(info[1..], keys, map[]);
      Ok(PathElem(info[0], m))
    else Ok(PathElem(seg, map[]))
  }

  /** The elements of `segs`, appended to `acc`; the first failure wins. */
  function ParseElems(segs: seq<string>, keys: seq<KeyEntry>, acc: seq<PathElem>)
    : (r: Result<seq<PathElem>>)
    ensures r.Err? ==> r.error == ValueError || r.error == IndexError
    ensures r.Ok? ==> |r.value| == |acc| + |segs| && r.value[..|acc|] == acc
  {
    if |segs| == 0 then Ok(acc)
    else
      var e :- ParseElem(segs[0], keys);
      var r := ParseElems(segs[1..], keys, acc + [e]);
      assert r.Ok? ==> r.value[..|acc|] == r.value[..|acc| + 1][..|acc|];
      r
  }

  /** `gnmi_path_generator(s, target)`: the path `s` denotes, or the exception
      it raises. */
  function Generate(s: string, target: string): (r: Result<Path>)
    ensures r.Ok? ==> r.value.target == target
    ensures r.Err? ==> r.error == ValueError || r.error == IndexError
  {
    if s == "" then Ok(Path("", target, []))
    else
      var ks :- KeyStage(s);
      var os := OriginSplit(Segments(ks.0));
      var elems :- ParseElems(os.1, ks.1, []);
      Ok(Path(os.0, target, elems))
  }

  // ---------------------------------------------------------------------------
  // The generator as the source runs it

  /** The key side-table stage of `gnmi_path_generator` (its lines 37-51). */
  method ExtractKeys(pathInQuestion: string) returns (r: Result<(string, seq<KeyEntry>)>)
    ensures r == KeyStage(pathInQuestion)
  {
    if MatchEnd(pathInQuestion).None? {
      return Ok((pathInQuestion, []));
    }
    var splitList := FindAll(pathInQuestion);
    var rw, tempNonModified := RewriteLoop(splitList);
    if rw.Err? {
      return Err(rw.error);
    }
    var tempPath := rw.value.0;
    if |tempNonModified| < |pathInQuestion| {
      tempPath := tempPath + Remove(pathInQuestion, tempNonModified);
    }
    return Ok((tempPath, rw.value.1));
  }

  /** The loop over the matches (lines 41-46): the side table and the
      rewritten text, and the matched text accumulated beside them. */
  method RewriteLoop(splitList: seq<string>) returns (r: Result<(string, seq<KeyEntry>)>, tempNonModified: string)
    ensures r == RewriteMatches(splitList, [], "")
    ensures r.Ok? ==> tempNonModified == Concat(splitList)
  {
    var keys: seq<KeyEntry> := [];
    var tempPath := "";
    tempNonModified := "";
    var i := 0;
    while i < |splitList|
      invariant 0 <= i <= |splitList|
      invariant tempNonModified == Concat(splitList[..i])
      invariant RewriteMatches(splitList, [], "") == RewriteMatches(splitList[i..], keys, tempPath)
    {
      var sle := splitList[i];
      ConcatStep(splitList, i);
      tempNonModified := tempNonModified + sle;
      var parts := Split(SubGroup(sle), '=');
      assert splitList[i..][0] == sle && splitList[i..][1..] == splitList[i + 1..];
      if |parts| != 2 {
        return Err(ValueError), tempNonModified;
      }
      keys := keys + [(parts[0], parts[1])];
      tempPath := tempPath + SubIndex(sle, NatToDecimal(|keys| - 1));
      i := i + 1;
    }
    assert splitList[..i] == splitList;
    return Ok((tempPath, keys)), tempNonModified;
  }

  lemma ConcatStep(xs: seq<string>, i: nat)
    requires i < |xs|
    ensures Concat(xs[..i + 1]) == Concat(xs[..i]) + xs[i]
  {
    assert xs[..i + 1] == xs[..i] + [xs[i]];
    ConcatAppend(xs[..i], [xs[i]]);
    assert Concat([xs[i]]) == xs[i] + Concat([]);
  }

  /** The keys of one indexed element (lines 69-74): each index text is read
      with `int()` and its side-table entry merged in. */
  method ElementKeys(pathInfo: seq<string>, keys: seq<KeyEntry>) returns (r: Result<map<string, string>>)
    ensures r == MergeKeys(pathInfo, keys, map[])
  {
    var elementKeys: map<string, string> := map[];
    var k := 0;
    while k < |pathInfo|
      invariant 0 <= k <= |pathInfo|
      invariant MergeKeys(pathInfo, keys, map[]) == MergeKeys(pathInfo[k..], keys, elementKeys)
    {
      var n := PyInt(pathInfo[k]);
      if n.None? {
        return Err(ValueError);
      }
      var idx := PyIndex(n.value, |keys|);
      if idx.None? {
        return Err(IndexError);
      }
      elementKeys := elementKeys[keys[idx.value].0 := keys[idx.value].1];
      assert pathInfo[k..][1..] == pathInfo[k + 1..];
      k := k + 1;
    }
    return Ok(elementKeys);
  }

  /** `gnmi_path_generator(pathInQuestion, target)` step by step. */
  method GnmiPathGenerator(pathInQuestion: string, target: string) returns (r: Result<Path>)
    ensures r == Generate(pathInQuestion, target)
  {
    if pathInQuestion == "" {
      return Ok(Path("", target, []));
    }
    var ks := ExtractKeys(pathInQuestion);
    if ks.Err? {
      return Err(ks.error);
    }
    var path := ks.value.0;
    var keys := ks.value.1;

    var origin, pathElements := SplitOrigin(Segments(path));
    var elems := BuildElements(pathElements, keys);
    if elems.Err? {
      return Err(elems.error);
    }
    return Ok(Path(origin, target, elems.value));
  }

  /** The origin handling of the generator (lines 57-65). */
  method SplitOrigin(segments: seq<string>) returns (origin: string, pathElements: seq<string>)
    ensures (origin, pathElements) == OriginSplit(segments)
  {
    pathElements := segments;
    origin := "";
    if |pathElements| > 0 && HasOrigin(pathElements[0]) {
      var peEntry := pathElements[0];
      var c := Find(peEntry, ':');
      assert c < |peEntry| by { assert ':' in peEntry; FindFound(peEntry, ':'); }
      origin := peEntry[..c];
      if peEntry[c + 1..] != "" {
        assert pathElements[0 := peEntry[c + 1..]] == [peEntry[c + 1..]] + pathElements[1..];
        pathElements := pathElements[0 := peEntry[c + 1..]];
      } else {
        pathElements := pathElements[1..];
      }
    }
  }

  /** The element loop of the generator (lines 67-79). */
  method BuildElements(pathElements: seq<string>, keys: seq<KeyEntry>) returns (r: Result<seq<PathElem>>)
    ensures r == ParseElems(pathElements, keys, [])
  {
    var elems: seq<PathElem> := [];
    var j := 0;
    while j < |pathElements|
      invariant 0 <= j <= |pathElements|
      invariant ParseElems(pathElements, keys, []) == ParseElems(pathElements[j..], keys, elems)
    {
      var peEntry := pathElements[j];
      if IsIndexed(peEntry) {
        var pathInfo := StripCloses(Split(peEntry, '['));
        var elementKeys := ElementKeys(pathInfo[1..], keys);
        if elementKeys.Err? {
          return Err(elementKeys.error);
        }
        elems := elems + [PathElem(pathInfo[0], elementKeys.value)];
      } else {
        elems := elems + [PathElem(peEntry, map[])];
      }
      assert pathElements[j..][1..] == pathElements[j + 1..];
      j := j + 1;
    }
    return Ok(elems);
  }

  // ---------------------------------------------------------------------------
  // The degenerator

  /** `[k=v]` for each key of `ks` in turn, with its value in `m`. */
  function KeyText(ks: seq<string>, m: map<string, string>): string
    requires forall i :: 0 <= i < |ks| ==> ks[i] in m
  {
    if |ks| == 0 then "" else "[" + ks[0] + "=" + m[ks[0]] + "]" + KeyText(ks[1..], m)
  }

  /** An element's text: its name, then its keys in sorted order. */
  function ElemText(e: PathElem): string
  {
    var ks := SortedSet(e.keys.Keys);
    e.name + KeyText(ks, e.keys)
  }

  function ElemTexts(elems: seq<PathElem>): (r: seq<string>)
    ensures |r| == |elems|
    ensures forall i :: 0 <= i < |r| ==> r[i] == ElemText(elems[i])
  {
    if |elems| == 0 then [] else [ElemText(elems[0])] + ElemTexts(elems[1..])
  }

  /** `gnmi_path_degenerator(p)`: `None` for a path without elements, else the
      element texts joined by `/`; origin and target are not rendered. */
  function Degenerate(p: Path): (r: Option<string>)
    ensures r.None? <==> |p.elems| == 0
  {
    if |p.elems| == 0 then None else Some(Join(ElemTexts(p.elems), "/"))
  }
}
