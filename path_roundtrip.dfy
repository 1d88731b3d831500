/** `gnmi_path_degenerator` and `gnmi_path_generator` undo each other on
    origin-free paths whose keys are written in sorted order. */
module PathRoundTrip {
  import opened Wrappers
  import opened Strings
  import opened PathCodec
  import opened PathKeys
  import opened PathLayout
  import opened PathTheory

  function KeysOf(ps: seq<KeyEntry>): (r: seq<string>)
    ensures |r| == |ps|
    ensures forall i :: 0 <= i < |ps| ==> r[i] == ps[i].0
  {
    seq(|ps|, i requires 0 <= i < |ps| => ps[i].0)
  }

  /** Predicates written in the order the degenerator writes them. */
  ghost predicate SortedPreds(ps: seq<KeyEntry>)
  {
    StrictlyIncreasing(KeysOf(ps))
  }

  /** `name[k1=v1]/name[k2=v2]...`: elements joined by single slashes. */
  function ElemSources(elems: seq<Elem>): (r: seq<string>)
    ensures |r| == |elems|
  {
    if |elems| == 0 then [] else [ElemSource(elems[0])] + ElemSources(elems[1..])
  }

  /** One slash after every element but the last. */
  function Canon(n: nat): (r: seq<nat>)
    ensures |r| == n && Separated(r)
  {
    if n == 0 then [] else if n == 1 then [0] else [1] + Canon(n - 1)
  }

  // ---------------------------------------------------------------------------
  // Merged keys

  /** Merging keeps what the predicates do not name, and a key named once
      gets its predicate's value. */
  lemma {:induction false} KeyMapLookup(ps: seq<KeyEntry>, acc: map<string, string>)
    requires forall i, j :: 0 <= i < j < |ps| ==> ps[i].0 != ps[j].0
    ensures forall k :: k in KeyMapFrom(ps, acc) <==> k in acc || k in KeysOf(ps)
    ensures forall k :: k in acc && k !in KeysOf(ps) ==> k in KeyMapFrom(ps, acc) && KeyMapFrom(ps, acc)[k] == acc[k]
    ensures forall i :: 0 <= i < |ps| ==> ps[i].0 in KeyMapFrom(ps, acc) && KeyMapFrom(ps, acc)[ps[i].0] == ps[i].1
    decreases |ps|
  {
    if |ps| > 0 {
      var acc' := acc[ps[0].0 := ps[0].1];
      var rest := ps[1..];
      KeyMapLookup(rest, acc');
      assert forall k :: k in KeysOf(ps) <==> k == ps[0].0 || k in KeysOf(rest) by {
        forall k | k in KeysOf(ps) ensures k == ps[0].0 || k in KeysOf(rest) {
          var i :| 0 <= i < |ps| && KeysOf(ps)[i] == k;
          if i > 0 { assert KeysOf(rest)[i - 1] == k; }
        }
        forall k | k in KeysOf(rest) ensures k in KeysOf(ps) {
          var i :| 0 <= i < |rest| && KeysOf(rest)[i] == k;
          assert KeysOf(ps)[i + 1] == k;
        }
      }
      assert ps[0].0 !in KeysOf(rest) by {
        forall i | 0 <= i < |rest| ensures KeysOf(rest)[i] != ps[0].0 {
          assert rest[i] == ps[i + 1];
        }
      }
      forall i | 0 <= i < |ps| ensures ps[i].0 in KeyMapFrom(ps, acc) && KeyMapFrom(ps, acc)[ps[i].0] == ps[i].1 {
        if i > 0 { assert ps[i] == rest[i - 1]; }
      }
    }
  }

  lemma SortedDistinct(ps: seq<KeyEntry>)
    requires SortedPreds(ps)
    ensures forall i, j :: 0 <= i < j < |ps| ==> ps[i].0 != ps[j].0
  {
    forall i, j | 0 <= i < j < |ps| ensures ps[i].0 != ps[j].0 {
      assert StrLess(KeysOf(ps)[i], KeysOf(ps)[j]);
      StrLessIrreflexive(ps[i].0);
    }
  }

  /** The degenerator's key order is the order the predicates were written in. */
  lemma SortedKeys(ps: seq<KeyEntry>)
    requires SortedPreds(ps)
    ensures SortedSet(KeyMap(ps).Keys) == KeysOf(ps)
  {
    SortedDistinct(ps);
    KeyMapLookup(ps, map[]);
    SortedSetOfIncreasing(KeysOf(ps), KeyMap(ps).Keys);
  }

  lemma {:induction false} KeyTextPreds(ps: seq<KeyEntry>, m: map<string, string>)
    requires forall i :: 0 <= i < |ps| ==> ps[i].0 in m && m[ps[i].0] == ps[i].1
    ensures KeyText(KeysOf(ps), m) == PredsText(ps)
    decreases |ps|
  {
    if |ps| > 0 {
      var ks := KeysOf(ps);
      assert ks[1..] == KeysOf(ps[1..]);
      KeyTextPreds(ps[1..], m);
    }
  }

  /** The degenerator writes a decoded element back as it was written. */
  lemma ElemTextDecoded(e: Elem)
    requires SortedPreds(e.preds)
    ensures ElemText(PathElem(e.name, KeyMap(e.preds))) == ElemSource(e)
  {
    SortedDistinct(e.preds);
    KeyMapLookup(e.preds, map[]);
    SortedKeys(e.preds);
    KeyTextPreds(e.preds, KeyMap(e.preds));
  }

  lemma {:induction false} ElemTextsDecoded(elems: seq<Elem>)
    requires forall i :: 0 <= i < |elems| ==> SortedPreds(elems[i].preds)
    ensures ElemTexts(Decoded(elems)) == ElemSources(elems)
    decreases |elems|
  {
    if |elems| > 0 {
      ElemTextDecoded(elems[0]);
      ElemTextsDecoded(elems[1..]);
      assert Decoded(elems)[1..] == Decoded(elems[1..]);
      assert ElemTexts(Decoded(elems)) == [ElemText(Decoded(elems)[0])] + ElemTexts(Decoded(elems)[1..]);
    }
  }

  lemma {:induction false} BodyCanon(elems: seq<Elem>)
    requires |elems| > 0
    ensures Body(elems, Canon(|elems|)) == Join(ElemSources(elems), "/")
    decreases |elems|
  {
    var seps := Canon(|elems|);
    var src := ElemSources(elems);
    if |elems| == 1 {
      assert Body(elems[1..], seps[1..]) == "";
      assert src == [ElemSource(elems[0])];
      assert ElemSource(elems[0]) + "" + "" == ElemSource(elems[0]);
    } else {
      BodyCanon(elems[1..]);
      assert seps[0] == 1 && seps[1..] == Canon(|elems| - 1);
      assert src[1..] == ElemSources(elems[1..]);
    }
  }

  /** A text written the degenerator's way (single slashes, sorted keys, no
      origin) goes through the generator and comes back unchanged. */
  lemma DegenerateGenerate(elems: seq<Elem>, target: string)
    requires |elems| > 0 && WfLayout("", elems, Canon(|elems|))
    requires forall i :: 0 <= i < |elems| ==> SortedPreds(elems[i].preds)
    ensures var s := Join(ElemSources(elems), "/");
            Generate(s, target).Ok? && Degenerate(Generate(s, target).value) == Some(s)
  {
    var seps := Canon(|elems|);
    BodyCanon(elems);
    assert Layout(0, "", 0, elems, seps) == "" + Body(elems, seps);
    assert "" + Body(elems, seps) == Body(elems, seps);
    GenerateLayout(0, "", 0, elems, seps, target);
    ElemTextsDecoded(elems);
  }

  // ---------------------------------------------------------------------------
  // Paths into text and back

  /** A path element the generator can denote: a plain name, and keys and
      values without the characters that delimit a predicate. */
  predicate WfPathElem(pe: PathElem)
  {
    WfName(pe.name) && forall k :: k in pe.keys ==> WfPred(k, pe.keys[k])
  }

  /** The keys of a map in sorted order, each with its value. */
  function SortedPairs(m: map<string, string>): (r: seq<KeyEntry>)
    ensures KeysOf(r) == SortedSet(m.Keys)
    ensures forall i :: 0 <= i < |r| ==> r[i].0 in m && r[i].1 == m[r[i].0]
  {
    var ks := SortedSet(m.Keys);
    var r := seq(|ks|, i requires 0 <= i < |ks| => (ks[i], m[ks[i]]));
    assert KeysOf(r) == ks;
    r
  }

  function Encode(pe: PathElem): Elem
  {
    Elem(pe.name, SortedPairs(pe.keys))
  }

  function Encoded(pes: seq<PathElem>): (r: seq<Elem>)
    ensures |r| == |pes|
    ensures forall i :: 0 <= i < |r| ==> r[i] == Encode(pes[i])
  {
    seq(|pes|, i requires 0 <= i < |pes| => Encode(pes[i]))
  }

  /** Merging the sorted pairs of a map gives the map back. */
  lemma KeyMapSortedPairs(m: map<string, string>)
    ensures SortedPreds(SortedPairs(m))
    ensures KeyMap(SortedPairs(m)) == m
  {
    var ps := SortedPairs(m);
    SortedDistinct(ps);
    KeyMapLookup(ps, map[]);
    var km := KeyMap(ps);
    assert km.Keys == m.Keys;
    forall k | k in m ensures km[k] == m[k] {
      var i :| 0 <= i < |ps| && KeysOf(ps)[i] == k;
    }
  }

  lemma EncodeWf(pe: PathElem)
    requires WfPathElem(pe)
    ensures WfElem(Encode(pe)) && SortedPreds(Encode(pe).preds)
    ensures PathElem(Encode(pe).name, KeyMap(Encode(pe).preds)) == pe
  {
    KeyMapSortedPairs(pe.keys);
  }

  lemma {:induction false} DecodedEncoded(pes: seq<PathElem>)
    requires forall i :: 0 <= i < |pes| ==> WfPathElem(pes[i])
    ensures Decoded(Encoded(pes)) == pes
    decreases |pes|
  {
    if |pes| > 0 {
      var es := Encoded(pes);
      EncodeWf(pes[0]);
      DecodedEncoded(pes[1..]);
      assert es[1..] == Encoded(pes[1..]);
      DecodedCons(es, pes[0], pes[1..]);
      assert [pes[0]] + pes[1..] == pes;
    }
  }

  lemma DecodedCons(es: seq<Elem>, pe: PathElem, rest: seq<PathElem>)
    requires |es| > 0 && PathElem(es[0].name, KeyMap(es[0].preds)) == pe && Decoded(es[1..]) == rest
    ensures Decoded(es) == [pe] + rest
  {
  }

  lemma {:induction false} SourcesEncoded(pes: seq<PathElem>)
    requires forall i :: 0 <= i < |pes| ==> WfPathElem(pes[i])
    ensures ElemSources(Encoded(pes)) == ElemTexts(pes)
    decreases |pes|
  {
    if |pes| > 0 {
      var es := Encoded(pes);
      EncodeWf(pes[0]);
      ElemTextDecoded(es[0]);
      SourcesEncoded(pes[1..]);
      assert es[1..] == Encoded(pes[1..]);
      assert ElemTexts(pes) == [ElemText(pes[0])] + ElemTexts(pes[1..]);
    }
  }

  /** An origin-free path with elements the generator can denote survives the
      degenerator and the generator; the target is the generator's argument. */
  lemma GenerateDegenerate(p: Path)
    requires p.origin == "" && |p.elems| > 0 && ':' !in p.elems[0].name
    requires forall i :: 0 <= i < |p.elems| ==> WfPathElem(p.elems[i])
    ensures Degenerate(p).Some? && Generate(Degenerate(p).value, p.target) == Ok(p)
  {
    var elems := Encoded(p.elems);
    var seps := Canon(|elems|);
    DecodedEncoded(p.elems);
    SourcesEncoded(p.elems);
    assert WfElems(elems) by {
      forall i | 0 <= i < |elems| ensures WfElem(elems[i]) { EncodeWf(p.elems[i]); }
    }
    BodyCanon(elems);
    assert Layout(0, "", 0, elems, seps) == "" + Body(elems, seps);
    assert "" + Body(elems, seps) == Body(elems, seps);
    GenerateLayout(0, "", 0, elems, seps, p.target);
  }
}
