/** Well-formed path texts built from their parts (leading slashes, an
    optional origin, elements with bracket predicates, runs of slashes between
    them), and what the first two stages of `gnmi_path_generator` make of
    them: the key side table, and the cut at `/` with the origin taken off. */
module PathLayout {
  import opened Wrappers
  import opened Strings
  import opened PathCodec
  import opened PathKeys

  /** An element as written: a name and its bracket predicates, in order. */
  datatype Elem = Elem(name: string, preds: seq<KeyEntry>)

  function Slashes(n: nat): (r: string)
    ensures |r| == n
    ensures forall i :: 0 <= i < n ==> r[i] == '/'
  {
    if n == 0 then "" else "/" + Slashes(n - 1)
  }

  /** `[k1=v1][k2=v2]...` */
  function PredsText(ps: seq<KeyEntry>): string
  {
    if |ps| == 0 then "" else PredText(ps[0].0, ps[0].1) + PredsText(ps[1..])
  }

  function ElemSource(e: Elem): string
  {
    e.name + PredsText(e.preds)
  }

  /** The elements, each followed by its run of slashes. */
  function Body(elems: seq<Elem>, seps: seq<nat>): string
    requires |seps| == |elems|
  {
    if |elems| == 0 then "" else ElemSource(elems[0]) + Slashes(seps[0]) + Body(elems[1..], seps[1..])
  }

  /** Leading slashes, then `origin:` and more slashes when there is an origin. */
  function Prefix(lead: nat, origin: string, gap: nat): string
  {
    Slashes(lead) + (if origin == "" then "" else origin + ":" + Slashes(gap))
  }

  function Layout(lead: nat, origin: string, gap: nat, elems: seq<Elem>, seps: seq<nat>): string
    requires |seps| == |elems|
  {
    Prefix(lead, origin, gap) + Body(elems, seps)
  }

  // ---------------------------------------------------------------------------
  // Well-formedness

  /** A name the codec keeps whole: non-empty, without `/` and brackets. */
  predicate WfName(n: string)
  {
    |n| > 0 && '/' !in n && '[' !in n && ']' !in n
  }

  predicate WfElem(e: Elem)
  {
    WfName(e.name) && forall i :: 0 <= i < |e.preds| ==> WfPred(e.preds[i].0, e.preds[i].1)
  }

  predicate WfElems(elems: seq<Elem>)
  {
    forall i :: 0 <= i < |elems| ==> WfElem(elems[i])
  }

  /** Every element but the last is followed by at least one slash. */
  predicate Separated(seps: seq<nat>)
  {
    forall i :: 0 <= i < |seps| - 1 ==> seps[i] >= 1
  }

  predicate WfOrigin(origin: string)
  {
    ':' !in origin && '/' !in origin && '[' !in origin
  }

  /** The parts of a text the generator reads back exactly: without an origin
      the first name has no `:` (it would be taken for one). */
  predicate WfLayout(origin: string, elems: seq<Elem>, seps: seq<nat>)
  {
    && |seps| == |elems| && Separated(seps) && WfElems(elems) && WfOrigin(origin)
    && (origin == "" && |elems| > 0 ==> ':' !in elems[0].name)
  }

  // ---------------------------------------------------------------------------
  // The text after the key stage

  /** `[b][b+1]...`, `n` indices. */
  function Idxs(b: nat, n: nat): string
    decreases n
  {
    if n == 0 then "" else IdxText(b) + Idxs(b + 1, n - 1)
  }

  function ElemIdx(e: Elem, b: nat): string
  {
    e.name + Idxs(b, |e.preds|)
  }

  function BodyIdx(elems: seq<Elem>, seps: seq<nat>, b: nat): string
    requires |seps| == |elems|
  {
    if |elems| == 0 then ""
    else ElemIdx(elems[0], b) + Slashes(seps[0]) + BodyIdx(elems[1..], seps[1..], b + |elems[0].preds|)
  }

  /** The segments the elements become, indices numbered from `b`. */
  function IdxTexts(elems: seq<Elem>, b: nat): (r: seq<string>)
    ensures |r| == |elems|
  {
    if |elems| == 0 then [] else [ElemIdx(elems[0], b)] + IdxTexts(elems[1..], b + |elems[0].preds|)
  }

  /** All predicates of the elements, in order: the side table. */
  function AllPreds(elems: seq<Elem>): seq<KeyEntry>
  {
    if |elems| == 0 then [] else elems[0].preds + AllPreds(elems[1..])
  }

  // ---------------------------------------------------------------------------
  // Tokens

  function PredToks(ps: seq<KeyEntry>): seq<Tok>
  {
    if |ps| == 0 then [] else [Prd(ps[0].0, ps[0].1)] + PredToks(ps[1..])
  }

  function BodyToks(elems: seq<Elem>, seps: seq<nat>): seq<Tok>
    requires |seps| == |elems|
  {
    if |elems| == 0 then []
    else [Txt(elems[0].name)] + PredToks(elems[0].preds) + [Txt(Slashes(seps[0]))] + BodyToks(elems[1..], seps[1..])
  }

  lemma {:induction false} FlatAppend(a: seq<Tok>, b: seq<Tok>)
    ensures Flat(a + b) == Flat(a) + Flat(b)
    decreases |a|
  {
    if |a| == 0 {
      assert a + b == b;
    } else {
      assert (a + b)[0] == a[0] && (a + b)[1..] == a[1..] + b;
      FlatAppend(a[1..], b);
      match a[0]
      case Txt(t) => Assoc(t, Flat(a[1..]), Flat(b));
      case Prd(k, v) => Assoc(PredText(k, v), Flat(a[1..]), Flat(b));
    }
  }

  lemma {:induction false} PredsOfAppend(a: seq<Tok>, b: seq<Tok>)
    ensures PredsOf(a + b) == PredsOf(a) + PredsOf(b)
    decreases |a|
  {
    if |a| == 0 {
      assert a + b == b;
    } else {
      assert (a + b)[0] == a[0] && (a + b)[1..] == a[1..] + b;
      PredsOfAppend(a[1..], b);
      match a[0]
      case Txt(_) =>
      case Prd(k, v) => Assoc([(k, v)], PredsOf(a[1..]), PredsOf(b));
    }
  }

  lemma {:induction false} FlatIdxAppend(a: seq<Tok>, b: seq<Tok>, base: nat)
    ensures FlatIdx(a + b, base) == FlatIdx(a, base) + FlatIdx(b, base + |PredsOf(a)|)
    decreases |a|
  {
    if |a| == 0 {
      assert a + b == b;
    } else {
      assert (a + b)[0] == a[0] && (a + b)[1..] == a[1..] + b;
      match a[0]
      case Txt(t) =>
        FlatIdxAppend(a[1..], b, base);
        Assoc(t, FlatIdx(a[1..], base), FlatIdx(b, base + |PredsOf(a)|));
      case Prd(_, _) =>
        FlatIdxAppend(a[1..], b, base + 1);
        Assoc(IdxText(base), FlatIdx(a[1..], base + 1), FlatIdx(b, base + |PredsOf(a)|));
    }
  }

  lemma WfToksAppend(a: seq<Tok>, b: seq<Tok>)
    requires WfToks(a) && WfToks(b)
    ensures WfToks(a + b)
  {
    forall i | 0 <= i < |a + b| ensures WfTok((a + b)[i]) {
      if i < |a| { assert (a + b)[i] == a[i]; } else { assert (a + b)[i] == b[i - |a|]; }
    }
  }

  lemma {:induction false} PredToksSpell(ps: seq<KeyEntry>, base: nat)
    ensures Flat(PredToks(ps)) == PredsText(ps)
    ensures FlatIdx(PredToks(ps), base) == Idxs(base, |ps|)
    ensures PredsOf(PredToks(ps)) == ps
    decreases |ps|
  {
    if |ps| > 0 {
      var t := PredToks(ps);
      PredToksSpell(ps[1..], base + 1);
      assert t[0] == Prd(ps[0].0, ps[0].1) && t[1..] == PredToks(ps[1..]);
      assert ps == [(ps[0].0, ps[0].1)] + ps[1..];
    }
  }

  lemma {:induction false} PredToksWf(ps: seq<KeyEntry>)
    requires forall i :: 0 <= i < |ps| ==> WfPred(ps[i].0, ps[i].1)
    ensures WfToks(PredToks(ps))
    decreases |ps|
  {
    if |ps| > 0 {
      PredToksWf(ps[1..]);
      WfToksAppend([Prd(ps[0].0, ps[0].1)], PredToks(ps[1..]));
    }
  }

  /** One element and its slashes as tokens. */
  function ElemToks(e: Elem, sep: nat): seq<Tok>
  {
    [Txt(e.name)] + PredToks(e.preds) + [Txt(Slashes(sep))]
  }

  lemma ElemToksSpell(e: Elem, sep: nat, base: nat)
    ensures Flat(ElemToks(e, sep)) == ElemSource(e) + Slashes(sep)
    ensures FlatIdx(ElemToks(e, sep), base) == ElemIdx(e, base) + Slashes(sep)
    ensures PredsOf(ElemToks(e, sep)) == e.preds
  {
    var n := [Txt(e.name)];
    var p := PredToks(e.preds);
    var s := [Txt(Slashes(sep))];
    PredToksSpell(e.preds, base);
    FlatAppend(n, p);
    FlatAppend(n + p, s);
    PredsOfAppend(n, p);
    PredsOfAppend(n + p, s);
    FlatIdxAppend(n, p, base);
    FlatIdxAppend(n + p, s, base);
    assert Flat(n) == e.name + "" && Flat(s) == Slashes(sep) + "";
    assert FlatIdx(n, base) == e.name + "" && FlatIdx(s, base + |e.preds|) == Slashes(sep) + "";
  }

  lemma {:induction false} BodyToksSpell(elems: seq<Elem>, seps: seq<nat>, base: nat)
    requires |seps| == |elems|
    ensures Flat(BodyToks(elems, seps)) == Body(elems, seps)
    ensures FlatIdx(BodyToks(elems, seps), base) == BodyIdx(elems, seps, base)
    ensures PredsOf(BodyToks(elems, seps)) == AllPreds(elems)
    decreases |elems|
  {
    if |elems| > 0 {
      var e := ElemToks(elems[0], seps[0]);
      var rest := BodyToks(elems[1..], seps[1..]);
      assert BodyToks(elems, seps) == e + rest;
      ElemToksSpell(elems[0], seps[0], base);
      BodyToksSpell(elems[1..], seps[1..], base + |elems[0].preds|);
      FlatAppend(e, rest);
      FlatIdxAppend(e, rest, base);
      PredsOfAppend(e, rest);
    }
  }

  lemma {:induction false} BodyToksWf(elems: seq<Elem>, seps: seq<nat>)
    requires |seps| == |elems| && WfElems(elems)
    ensures WfToks(BodyToks(elems, seps))
    decreases |elems|
  {
    if |elems| > 0 {
      var e := elems[0];
      assert WfElem(e);
      PredToksWf(e.preds);
      BodyToksWf(elems[1..], seps[1..]);
      var n := [Txt(e.name)];
      var s := [Txt(Slashes(seps[0]))];
      assert '[' !in Slashes(seps[0]);
      WfToksAppend(n, PredToks(e.preds));
      WfToksAppend(n + PredToks(e.preds), s);
      WfToksAppend(n + PredToks(e.preds) + s, BodyToks(elems[1..], seps[1..]));
    }
  }

  /** The key stage of a well-formed text: the side table is every predicate
      in order, and the text has each one replaced by its index. */
  lemma KeyStageLayout(lead: nat, origin: string, gap: nat, elems: seq<Elem>, seps: seq<nat>)
    requires |seps| == |elems| && WfElems(elems) && '[' !in origin
    ensures KeyStage(Layout(lead, origin, gap, elems, seps))
         == Ok((Prefix(lead, origin, gap) + BodyIdx(elems, seps, 0), AllPreds(elems)))
  {
    var p := Prefix(lead, origin, gap);
    var h := [Txt(p)];
    var b := BodyToks(elems, seps);
    assert '[' !in p by {
      assert '[' !in Slashes(lead) && '[' !in Slashes(gap);
    }
    assert WfToks(h);
    BodyToksWf(elems, seps);
    WfToksAppend(h, b);
    BodyToksSpell(elems, seps, 0);
    FlatAppend(h, b);
    FlatIdxAppend(h, b, 0);
    PredsOfAppend(h, b);
    assert Flat(h) == p + "" && FlatIdx(h, 0) == p + "";
    KeyStageToks(h + b);
  }

  // ---------------------------------------------------------------------------
  // Cutting at `/`

  lemma SegmentsSep(a: string, n: nat, b: string)
    requires n >= 1
    ensures Segments(a + Slashes(n) + b) == Segments(a) + Segments(Slashes(n - 1) + b)
  {
    assert a + Slashes(n) + b == a + ['/'] + (Slashes(n - 1) + b);
    SplitAround(a, Slashes(n - 1) + b, '/');
    NonEmptyAppend(Split(a, '/'), Split(Slashes(n - 1) + b, '/'));
  }

  /** Leading slashes make no segment. */
  lemma {:induction false} SegmentsSlashes(n: nat, y: string)
    ensures Segments(Slashes(n) + y) == Segments(y)
    decreases n
  {
    if n > 0 {
      SegmentsSep("", n, y);
      assert "" + Slashes(n) + y == Slashes(n) + y;
      assert Segments("") == [];
      SegmentsSlashes(n - 1, y);
    } else {
      assert "" + y == y;
    }
  }

  /** A run of one or more slashes cuts the text in two. */
  lemma SegmentsCut(a: string, n: nat, b: string)
    requires n >= 1
    ensures Segments(a + Slashes(n) + b) == Segments(a) + Segments(b)
  {
    SegmentsSep(a, n, b);
    SegmentsSlashes(n - 1, b);
  }

  lemma SegmentsWord(a: string)
    requires '/' !in a
    ensures Segments(a) == if a == "" then [] else [a]
  {
    SplitWithout(a, '/');
  }

  lemma {:induction false} IdxsWithout(b: nat, n: nat, c: char)
    requires c != '[' && c != ']' && !IsDigit(c)
    ensures c !in Idxs(b, n)
    decreases n
  {
    if n > 0 {
      IdxsWithout(b + 1, n - 1, c);
      var d := NatToDecimal(b);
      assert c !in d;
    }
  }

  /** `x` glued to the first of `ts`. */
  function Glue(x: string, ts: seq<string>): seq<string>
  {
    if |ts| == 0 then (if x == "" then [] else [x]) else [x + ts[0]] + ts[1..]
  }

  lemma GlueEmpty(ts: seq<string>)
    ensures Glue("", ts) == ts
  {
    if |ts| > 0 {
      assert "" + ts[0] == ts[0];
    }
  }

  lemma SeparatedTail(seps: seq<nat>)
    requires |seps| > 0 && Separated(seps)
    ensures Separated(seps[1..])
  {
    forall i | 0 <= i < |seps[1..]| - 1 ensures seps[1..][i] >= 1 {
      assert seps[1..][i] == seps[i + 1];
    }
  }

  lemma WfElemsTail(elems: seq<Elem>)
    requires |elems| > 0 && WfElems(elems)
    ensures WfElem(elems[0]) && WfElems(elems[1..])
  {
    assert WfElem(elems[0]);
    forall i | 0 <= i < |elems[1..]| ensures WfElem(elems[1..][i]) {
      assert elems[1..][i] == elems[i + 1];
    }
  }

  /** One step of `SegmentsBody`: the word `w` (the glued first element),
      its slashes, and the rest, whose segments are `ts`. */
  lemma SegmentsStep(w: string, n: nat, rest: string, ts: seq<string>)
    requires w != "" && '/' !in w && Segments(rest) == ts
    requires |ts| == 0 ==> rest == ""
    requires |ts| > 0 ==> n >= 1
    ensures Segments(w + Slashes(n) + rest) == [w] + ts
  {
    SegmentsWord(w);
    if n == 0 {
      assert w + Slashes(n) + rest == w;
      assert [w] + ts == [w];
    } else {
      SegmentsCut(w, n, rest);
    }
  }

  lemma GluedWord(x: string, e: Elem, b: nat)
    requires '/' !in x && WfElem(e)
    ensures x + ElemIdx(e, b) != "" && '/' !in x + ElemIdx(e, b)
  {
    IdxsWithout(b, |e.preds|, '/');
  }

  lemma BodyIdxHead(x: string, elems: seq<Elem>, seps: seq<nat>, b: nat)
    requires |seps| == |elems| > 0
    ensures x + BodyIdx(elems, seps, b)
         == (x + ElemIdx(elems[0], b)) + Slashes(seps[0]) + BodyIdx(elems[1..], seps[1..], b + |elems[0].preds|)
  {
    var t := ElemIdx(elems[0], b);
    var rest := BodyIdx(elems[1..], seps[1..], b + |elems[0].preds|);
    Assoc(x, t + Slashes(seps[0]), rest);
    Assoc(x, t, Slashes(seps[0]));
  }

  /** The segments of the index text of the elements, the first one with `x`
      (text without `/`) in front. */
  lemma {:induction false} SegmentsBody(x: string, elems: seq<Elem>, seps: seq<nat>, b: nat)
    requires '/' !in x && |seps| == |elems| && Separated(seps) && WfElems(elems)
    ensures Segments(x + BodyIdx(elems, seps, b)) == Glue(x, IdxTexts(elems, b))
    decreases |elems|
  {
    if |elems| == 0 {
      assert x + "" == x;
      SegmentsWord(x);
    } else {
      var e := elems[0];
      WfElemsTail(elems);
      SeparatedTail(seps);
      var t := ElemIdx(e, b);
      var b' := b + |e.preds|;
      var rest := BodyIdx(elems[1..], seps[1..], b');
      var ts := IdxTexts(elems[1..], b');
      GluedWord(x, e, b);
      BodyIdxHead(x, elems, seps, b);
      SegmentsBody("", elems[1..], seps[1..], b');
      assert "" + rest == rest;
      GlueEmpty(ts);
      SegmentsStep(x + t, seps[0], rest, ts);
      assert IdxTexts(elems, b) == [t] + ts;
    }
  }

  /** A first segment `origin:t` gives the origin and leaves `t`, if any. */
  lemma OriginSplitOf(origin: string, t: string, ts: seq<string>)
    requires ':' !in origin && |origin| > 0
    ensures OriginSplit([origin + ":" + t] + ts) == (origin, (if t != "" then [t] else []) + ts)
  {
    var s := origin + ":" + t;
    assert s == origin + ([':'] + t);
    FirstAfter(origin, ':', t);
    assert s[1..][|origin| - 1] == ':';
    assert s[..|origin|] == origin && s[|origin| + 1..] == t;
    assert ([s] + ts)[0] == s && ([s] + ts)[1..] == ts;
  }

  lemma OriginSplitNone(ts: seq<string>)
    requires |ts| > 0 ==> ':' !in ts[0]
    ensures OriginSplit(ts) == ("", ts)
  {
    if |ts| > 0 && |ts[0]| > 1 {
      var s := ts[0];
      forall i | 0 <= i < |s| - 1 ensures s[1..][i] != ':' {
        assert s[1..][i] == s[i + 1];
      }
    }
  }

  /** Leading slashes make no segment: only what follows them counts. */
  lemma SegmentsPrefix(lead: nat, origin: string, gap: nat, body: string)
    ensures Segments(Prefix(lead, origin, gap) + body)
         == Segments((if origin == "" then "" else origin + ":" + Slashes(gap)) + body)
  {
    var tail := if origin == "" then "" else origin + ":" + Slashes(gap);
    Assoc(Slashes(lead), tail, body);
    SegmentsSlashes(lead, tail + body);
  }

  lemma OriginLayoutNone(elems: seq<Elem>, seps: seq<nat>)
    requires WfLayout("", elems, seps)
    ensures OriginSplit(Segments("" + BodyIdx(elems, seps, 0))) == ("", IdxTexts(elems, 0))
  {
    var body := BodyIdx(elems, seps, 0);
    var ts := IdxTexts(elems, 0);
    assert "" + body == body;
    SegmentsBody("", elems, seps, 0);
    GlueEmpty(ts);
    if |ts| > 0 {
      WfElemsTail(elems);
      IdxsWithout(0, |elems[0].preds|, ':');
      assert ts[0] == ElemIdx(elems[0], 0);
    }
    OriginSplitNone(ts);
  }

  /** `origin:` with no slash after it: the colon is glued to the first element. */
  lemma OriginLayoutGlued(origin: string, elems: seq<Elem>, seps: seq<nat>)
    requires WfLayout(origin, elems, seps) && origin != ""
    ensures OriginSplit(Segments(origin + ":" + Slashes(0) + BodyIdx(elems, seps, 0)))
         == (origin, IdxTexts(elems, 0))
  {
    var body := BodyIdx(elems, seps, 0);
    var ts := IdxTexts(elems, 0);
    var o := origin + ":";
    assert '/' !in o;
    assert o + Slashes(0) + body == o + body;
    SegmentsBody(o, elems, seps, 0);
    if |ts| > 0 {
      WfElemsTail(elems);
      assert ts[0] == ElemIdx(elems[0], 0);
      assert ts[0] != "";
      OriginSplitOf(origin, ts[0], ts[1..]);
      assert [ts[0]] + ts[1..] == ts;
    } else {
      assert o == origin + ":" + "";
      OriginSplitOf(origin, "", []);
    }
  }

  /** `origin:` then one or more slashes: the origin is a segment of its own. */
  lemma OriginLayoutCut(origin: string, gap: nat, elems: seq<Elem>, seps: seq<nat>)
    requires WfLayout(origin, elems, seps) && origin != "" && gap >= 1
    ensures OriginSplit(Segments(origin + ":" + Slashes(gap) + BodyIdx(elems, seps, 0)))
         == (origin, IdxTexts(elems, 0))
  {
    var body := BodyIdx(elems, seps, 0);
    var ts := IdxTexts(elems, 0);
    var o := origin + ":";
    assert '/' !in o;
    SegmentsCut(o, gap, body);
    SegmentsWord(o);
    SegmentsBody("", elems, seps, 0);
    assert "" + body == body;
    GlueEmpty(ts);
    assert o == origin + ":" + "";
    OriginSplitOf(origin, "", ts);
  }

  /** The segments of a well-formed text after the key stage, and the origin
      taken off the first one. */
  lemma OriginLayout(lead: nat, origin: string, gap: nat, elems: seq<Elem>, seps: seq<nat>)
    requires WfLayout(origin, elems, seps)
    ensures OriginSplit(Segments(Prefix(lead, origin, gap) + BodyIdx(elems, seps, 0)))
         == (origin, IdxTexts(elems, 0))
  {
    SegmentsPrefix(lead, origin, gap, BodyIdx(elems, seps, 0));
    if origin == "" {
      OriginLayoutNone(elems, seps);
    } else if gap == 0 {
      OriginLayoutGlued(origin, elems, seps);
    } else {
      OriginLayoutCut(origin, gap, elems, seps);
    }
  }
}
