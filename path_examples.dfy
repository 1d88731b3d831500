/** Rows of the repository's XPath test table (tests/test_00_xpath.py), read
    by the generator: the short ones literally, the longer ones in the shape
    they share, with the names and key values as parameters. */
module PathExamples {
  import opened Wrappers
  import opened Strings
  import opened PathCodec
  import opened PathKeys
  import opened PathLayout
  import opened PathTheory

  /** `""` gives no origin and no elements. */
  lemma EmptyPath(target: string)
    ensures Generate("", target) == Ok(Path("", target, []))
  {
  }

  /** `"/"` gives no origin and no elements. */
  lemma SlashPath(target: string)
    ensures Generate("/", target) == Ok(Path("", target, []))
  {
    GenerateLayout(1, "", 0, [], [], target);
    assert Layout(1, "", 0, [], []) == "/" + "" + "";
  }

  /** An origin with its colon, and any slashes after it, gives that origin
      and no elements (the test table's `"rfc7951:"` and `"rfc7951:/"`). */
  lemma OriginOnlyPath(lead: nat, origin: string, gap: nat, s: string, target: string)
    requires origin != "" && WfOrigin(origin)
    requires s == Slashes(lead) + (origin + ":" + Slashes(gap))
    ensures Generate(s, target) == Ok(Path(origin, target, []))
  {
    GenerateLayout(lead, origin, gap, [], [], target);
    var p := Prefix(lead, origin, gap);
    assert p == s;
    assert Body([], []) == "";
    assert Layout(lead, origin, gap, [], []) == p + "";
    assert p + "" == p;
  }

  /** `origin:a/b[k=v]`, with or without a leading `/`: the text before the
      first colon is the origin, the rest of the first segment (which may hold
      more colons, as in `rfc7951:openconfig-interfaces:interfaces`) is the
      first name, and the key value may hold `:` and `/`. */
  lemma OriginKeyedPath(lead: nat, origin: string, a: string, b: string, k: string, v: string, s: string, target: string)
    requires origin != "" && WfOrigin(origin) && WfName(a) && WfName(b) && WfPred(k, v)
    requires s == Slashes(lead) + (origin + ":" + a + "/" + b + PredText(k, v))
    ensures Generate(s, target)
         == Ok(Path(origin, target, [PathElem(a, map[]), PathElem(b, map[k := v])]))
  {
    var elems := TwoElems(a, b, [(k, v)]);
    assert [(k, v)][1..] == [];
    assert KeyMap([(k, v)]) == KeyMapFrom([], map[k := v]);
    TwoElemsWf(a, b, [(k, v)]);
    OriginKeyedText(lead, origin, a, b, k, v);
    TwoElemsDecoded(a, b, [(k, v)]);
    GenerateLayout(lead, origin, 0, elems, [1, 0], target);
  }

  /** `a/b[k1=v1][k2=v2]`: two predicates on one element give two keys. */
  lemma CompoundKeyPath(a: string, b: string, k1: string, v1: string, k2: string, v2: string, s: string, target: string)
    requires WfName(a) && ':' !in a && WfName(b) && WfPred(k1, v1) && WfPred(k2, v2)
    requires s == a + "/" + b + PredText(k1, v1) + PredText(k2, v2)
    ensures Generate(s, target)
         == Ok(Path("", target, [PathElem(a, map[]), PathElem(b, map[k1 := v1, k2 := v2])]))
  {
    var ps := [(k1, v1), (k2, v2)];
    var elems := TwoElems(a, b, ps);
    TwoElemsWf(a, b, ps);
    CompoundKeyText(a, b, k1, v1, k2, v2);
    TwoElemsDecoded(a, b, ps);
    assert ps[1..] == [(k2, v2)] && ps[1..][1..] == [];
    assert KeyMap(ps) == KeyMapFrom([(k2, v2)], map[k1 := v1]) == KeyMapFrom([], map[k1 := v1, k2 := v2]);
    GenerateLayout(0, "", 0, elems, [1, 0], target);
  }

  function TwoElems(a: string, b: string, ps: seq<KeyEntry>): seq<Elem>
  {
    [Elem(a, []), Elem(b, ps)]
  }

  lemma TwoElemsWf(a: string, b: string, ps: seq<KeyEntry>)
    requires WfName(a) && WfName(b) && forall i :: 0 <= i < |ps| ==> WfPred(ps[i].0, ps[i].1)
    ensures WfElems(TwoElems(a, b, ps))
  {
    var elems := TwoElems(a, b, ps);
    assert WfElem(elems[0]) && WfElem(elems[1]);
  }

  lemma TwoElemsDecoded(a: string, b: string, ps: seq<KeyEntry>)
    ensures Decoded(TwoElems(a, b, ps)) == [PathElem(a, map[]), PathElem(b, KeyMap(ps))]
  {
    var elems := TwoElems(a, b, ps);
    assert elems[1..] == [Elem(b, ps)] && elems[1..][1..] == [];
  }

  lemma TwoElemsText(a: string, b: string, ps: seq<KeyEntry>)
    ensures Body(TwoElems(a, b, ps), [1, 0]) == a + "/" + (b + PredsText(ps))
  {
    var elems := TwoElems(a, b, ps);
    assert elems[1..] == [Elem(b, ps)] && elems[1..][1..] == [];
    assert [1, 0][1..] == [0] && [0][1..] == [];
    assert Body(elems[1..], [0]) == b + PredsText(ps) + "" + "";
    assert PredsText([]) == "";
    assert Body(elems, [1, 0]) == a + "" + "/" + Body(elems[1..], [0]);
  }

  lemma OriginKeyedText(lead: nat, origin: string, a: string, b: string, k: string, v: string)
    requires origin != ""
    ensures Layout(lead, origin, 0, TwoElems(a, b, [(k, v)]), [1, 0])
         == Slashes(lead) + (origin + ":" + a + "/" + b + PredText(k, v))
  {
    TwoElemsText(a, b, [(k, v)]);
    assert PredsText([(k, v)]) == PredText(k, v) + "";
    var o := origin + ":";
    var t := PredText(k, v);
    assert Slashes(0) == "";
    assert Prefix(lead, origin, 0) == Slashes(lead) + (o + "") && o + "" == o;
    Assoc(Slashes(lead), o, a + "/" + (b + t));
    Assoc(o, a + "/", b + t);
    Assoc(o, a, "/");
    Assoc(o + a + "/", b, t);
  }

  lemma CompoundKeyText(a: string, b: string, k1: string, v1: string, k2: string, v2: string)
    ensures Layout(0, "", 0, TwoElems(a, b, [(k1, v1), (k2, v2)]), [1, 0])
         == a + "/" + b + PredText(k1, v1) + PredText(k2, v2)
  {
    var ps := [(k1, v1), (k2, v2)];
    TwoElemsText(a, b, ps);
    assert ps[1..] == [(k2, v2)] && ps[1..][1..] == [];
    assert PredsText(ps) == PredText(k1, v1) + (PredText(k2, v2) + "");
  }
}
