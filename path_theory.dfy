/** What `gnmi_path_generator` makes of a well-formed path text, and how it
    and `gnmi_path_degenerator` undo each other. */
module PathTheory {
  import opened Wrappers
  import opened Strings
  import opened PathCodec
  import opened PathKeys
  import opened PathLayout

  /** The keys of predicates merged in order: a later duplicate key wins, as
      with `dict.update`. */
  function KeyMapFrom(ps: seq<KeyEntry>, acc: map<string, string>): map<string, string>
  {
    if |ps| == 0 then acc else KeyMapFrom(ps[1..], acc[ps[0].0 := ps[0].1])
  }

  function KeyMap(ps: seq<KeyEntry>): map<string, string>
  {
    KeyMapFrom(ps, map[])
  }

  /** The elements as the path they denote. */
  function Decoded(elems: seq<Elem>): (r: seq<PathElem>)
    ensures |r| == |elems|
  {
    if |elems| == 0 then [] else [PathElem(elems[0].name, KeyMap(elems[0].preds))] + Decoded(elems[1..])
  }

  // ---------------------------------------------------------------------------
  // One element: `name[b][b+1]...`

  /** The parts after `[`: `b]`, `b+1]`, ... */
  function IdxParts(b: nat, n: nat): (r: seq<string>)
    ensures |r| == n
    decreases n
  {
    if n == 0 then [] else [NatToDecimal(b) + "]"] + IdxParts(b + 1, n - 1)
  }

  /** The index texts once the `]` are removed. */
  function Digits(b: nat, n: nat): (r: seq<string>)
    ensures |r| == n
    decreases n
  {
    if n == 0 then [] else [NatToDecimal(b)] + Digits(b + 1, n - 1)
  }

  lemma {:induction false} SplitIdxs(name: string, b: nat, n: nat)
    requires '[' !in name
    ensures Split(name + Idxs(b, n), '[') == [name] + IdxParts(b, n)
    decreases n
  {
    if n == 0 {
      assert name + "" == name;
      SplitWithout(name, '[');
    } else {
      var d := NatToDecimal(b);
      var w := d + "]";
      var rest := Idxs(b + 1, n - 1);
      assert '[' !in d;
      assert name + Idxs(b, n) == name + ['['] + (w + rest);
      SplitAround(name, w + rest, '[');
      SplitWithout(name, '[');
      SplitIdxs(w, b + 1, n - 1);
    }
  }

  lemma {:induction false} RemoveCharAppend(a: string, b: string, c: char)
    ensures RemoveChar(a + b, c) == RemoveChar(a, c) + RemoveChar(b, c)
    decreases |a|
  {
    if |a| == 0 {
      assert a + b == b;
    } else {
      assert (a + b)[0] == a[0] && (a + b)[1..] == a[1..] + b;
      RemoveCharAppend(a[1..], b, c);
    }
  }

  lemma StripIdxParts(name: string, b: nat, n: nat)
    requires ']' !in name
    ensures StripCloses([name] + IdxParts(b, n)) == [name] + Digits(b, n)
  {
    var parts := [name] + IdxParts(b, n);
    var r := StripCloses(parts);
    var want := [name] + Digits(b, n);
    forall i | 0 <= i < |r| ensures r[i] == want[i] {
      if i > 0 {
        IdxPartAt(b, n, i - 1);
        var d := NatToDecimal(b + i - 1);
        assert ']' !in d;
        RemoveCharAppend(d, "]", ']');
        assert RemoveChar("]", ']') == "";
        assert d + "" == d;
      }
    }
  }

  lemma {:induction false} IdxPartAt(b: nat, n: nat, i: nat)
    requires i < n
    ensures IdxParts(b, n)[i] == NatToDecimal(b + i) + "]"
    ensures Digits(b, n)[i] == NatToDecimal(b + i)
    decreases n
  {
    if i > 0 {
      IdxPartAt(b + 1, n - 1, i - 1);
    }
  }

  /** The index texts of consecutive entries `b` to `e` of the side table
      merge those entries in order. */
  lemma {:induction false} MergeDigits(b: nat, e: nat, keys: seq<KeyEntry>, acc: map<string, string>)
    requires b <= e <= |keys|
    ensures MergeKeys(Digits(b, e - b), keys, acc) == Ok(KeyMapFrom(keys[b..e], acc))
    decreases e - b
  {
    if b < e {
      var acc' := acc[keys[b].0 := keys[b].1];
      MergeDigitStep(b, e, keys, acc);
      MergeDigits(b + 1, e, keys, acc');
      KeyMapFromStep(keys, b, e, acc);
    } else {
      assert keys[b..e] == [] && Digits(b, e - b) == [];
    }
  }

  lemma DigitsStep(b: nat, n: nat)
    requires n > 0
    ensures Digits(b, n)[0] == NatToDecimal(b) && Digits(b, n)[1..] == Digits(b + 1, n - 1)
  {
    assert Digits(b, n) == [NatToDecimal(b)] + Digits(b + 1, n - 1);
  }

  lemma KeyMapFromStep(keys: seq<KeyEntry>, b: nat, e: nat, acc: map<string, string>)
    requires b < e <= |keys|
    ensures KeyMapFrom(keys[b..e], acc) == KeyMapFrom(keys[b + 1..e], acc[keys[b].0 := keys[b].1])
  {
    var ps := keys[b..e];
    assert ps[0] == keys[b] && ps[1..] == keys[b + 1..e];
  }

  lemma MergeDigitStep(b: nat, e: nat, keys: seq<KeyEntry>, acc: map<string, string>)
    requires b < e <= |keys|
    ensures MergeKeys(Digits(b, e - b), keys, acc) == MergeKeys(Digits(b + 1, e - (b + 1)), keys, acc[keys[b].0 := keys[b].1])
  {
    DecimalRoundTrip(b);
    DigitsStep(b, e - b);
    MergeKeysStep(Digits(b, e - b), keys, acc, b);
  }

  lemma MergeKeysStep(ds: seq<string>, keys: seq<KeyEntry>, acc: map<string, string>, b: nat)
    requires |ds| > 0 && PyInt(ds[0]) == Some(b) && b < |keys|
    ensures MergeKeys(ds, keys, acc) == MergeKeys(ds[1..], keys, acc[keys[b].0 := keys[b].1])
  {
    assert PyIndex(b, |keys|) == Some(b);
  }

  /** `DigitRunEnd` stops where the digits stop. */
  lemma {:induction false} DigitRunTo(s: string, i: nat, j: nat)
    requires i <= j <= |s|
    requires forall k :: i <= k < j ==> IsDigit(s[k])
    requires j < |s| ==> !IsDigit(s[j])
    ensures DigitRunEnd(s, i) == j
    decreases j - i
  {
    if i < j {
      DigitRunTo(s, i + 1, j);
    }
  }

  lemma IndexedElem(name: string, b: nat, n: nat)
    requires WfName(name)
    ensures IsIndexed(name + Idxs(b, n)) <==> n > 0
  {
    var seg := name + Idxs(b, n);
    if n > 0 {
      var q := |name|;
      var d := NatToDecimal(b);
      var rest := Idxs(b + 1, n - 1);
      assert seg == name + ("[" + d + "]" + rest);
      assert seg[q] == '[';
      var j := q + 1 + |d|;
      assert seg[q + 1..j] == d;
      assert seg[j] == ']';
      DigitRunTo(seg, q + 1, j);
      assert IndexAt(seg, q);
    } else {
      assert seg == name;
    }
  }

  /** One element reads back as its name and its predicates merged in order. */
  lemma ParseElemIdx(e: Elem, b: nat, keys: seq<KeyEntry>)
    requires WfName(e.name) && b + |e.preds| <= |keys| && keys[b..b + |e.preds|] == e.preds
    ensures ParseElem(ElemIdx(e, b), keys) == Ok(PathElem(e.name, KeyMap(e.preds)))
  {
    var n := |e.preds|;
    if n > 0 {
      ParseKeyed(e.name, b, n, keys);
    } else {
      ParsePlain(e.name, b);
    }
  }

  lemma ParsePlain(name: string, b: nat)
    requires WfName(name)
    ensures forall keys :: ParseElem(name + Idxs(b, 0), keys) == Ok(PathElem(name, KeyMap([])))
  {
    assert name + Idxs(b, 0) == name;
    IndexedElem(name, b, 0);
  }

  lemma ParseKeyed(name: string, b: nat, n: nat, keys: seq<KeyEntry>)
    requires WfName(name) && n > 0 && b + n <= |keys|
    ensures ParseElem(name + Idxs(b, n), keys) == Ok(PathElem(name, KeyMap(keys[b..b + n])))
  {
    IndexedElem(name, b, n);
    SplitIdxs(name, b, n);
    StripIdxParts(name, b, n);
    MergeDigits(b, b + n, keys, map[]);
    ParseIndexed(name + Idxs(b, n), name, Digits(b, n), keys, KeyMapFrom(keys[b..b + n], map[]));
  }

  lemma ParseIndexed(seg: string, name: string, ds: seq<string>, keys: seq<KeyEntry>, m: map<string, string>)
    requires IsIndexed(seg) && StripCloses(Split(seg, '[')) == [name] + ds
    requires MergeKeys(ds, keys, map[]) == Ok(m)
    ensures ParseElem(seg, keys) == Ok(PathElem(name, m))
  {
    assert ([name] + ds)[1..] == ds;
  }

  lemma {:induction false} ParseElemsIdx(elems: seq<Elem>, all: seq<KeyEntry>, b: nat, acc: seq<PathElem>)
    requires WfElems(elems) && b <= |all| && all[b..] == AllPreds(elems)
    ensures ParseElems(IdxTexts(elems, b), all, acc) == Ok(acc + Decoded(elems))
    decreases |elems|
  {
    if |elems| == 0 {
      assert acc + [] == acc;
    } else {
      var e := elems[0];
      var n := |e.preds|;
      WfElemsTail(elems);
      var tail := all[b..];
      assert tail == e.preds + AllPreds(elems[1..]);
      assert all[b..b + n] == tail[..n] == e.preds;
      assert all[b + n..] == tail[n..] == AllPreds(elems[1..]);
      ParseElemIdx(e, b, all);
      var ts := IdxTexts(elems, b);
      assert ts[0] == ElemIdx(e, b) && ts[1..] == IdxTexts(elems[1..], b + n);
      var pe := PathElem(e.name, KeyMap(e.preds));
      ParseElemsIdx(elems[1..], all, b + n, acc + [pe]);
      Assoc(acc, [pe], Decoded(elems[1..]));
    }
  }

  // ---------------------------------------------------------------------------
  // The whole text

  lemma EmptyLayout(lead: nat, origin: string, gap: nat, elems: seq<Elem>, seps: seq<nat>)
    requires WfLayout(origin, elems, seps) && Layout(lead, origin, gap, elems, seps) == ""
    ensures origin == "" && elems == []
  {
    var p := Prefix(lead, origin, gap);
    assert |p| == 0;
    BodyNonEmpty(elems, seps);
  }

  lemma BodyNonEmpty(elems: seq<Elem>, seps: seq<nat>)
    requires |seps| == |elems| && WfElems(elems)
    ensures |elems| > 0 ==> |Body(elems, seps)| > 0
  {
    if |elems| > 0 {
      WfElemsTail(elems);
      assert |Body(elems, seps)| >= |elems[0].name| > 0;
    }
  }

  /** `gnmi_path_generator` reads a well-formed text back as its origin, the
      target it was given, and each element's name with its predicates merged
      in order. */
  lemma GenerateLayout(lead: nat, origin: string, gap: nat, elems: seq<Elem>, seps: seq<nat>, target: string)
    requires WfLayout(origin, elems, seps)
    ensures Generate(Layout(lead, origin, gap, elems, seps), target) == Ok(Path(origin, target, Decoded(elems)))
  {
    var s := Layout(lead, origin, gap, elems, seps);
    if s == "" {
      EmptyLayout(lead, origin, gap, elems, seps);
    } else {
      KeyStageLayout(lead, origin, gap, elems, seps);
      OriginLayout(lead, origin, gap, elems, seps);
      ParseElemsIdx(elems, AllPreds(elems), 0, []);
      assert AllPreds(elems)[0..] == AllPreds(elems);
      assert [] + Decoded(elems) == Decoded(elems);
    }
  }
}
