/** What the key side table of `gnmi_path_generator` (path_generator.py lines
    37-51) does to a text made of plain pieces without `[` and bracket
    predicates `[key=value]`: every predicate lands in the side table, in
    order, and is replaced by its index; the text around is kept. */
module PathKeys {
  import opened Wrappers
  import opened Strings
  import opened PathCodec

  /** A piece of path text: plain text or a bracket predicate. */
  datatype Tok = Txt(text: string) | Prd(key: string, value: string)

  function PredText(k: string, v: string): string
  {
    "[" + k + "=" + v + "]"
  }

  function IdxText(i: nat): string
  {
    "[" + NatToDecimal(i) + "]"
  }

  /** A predicate the lazy pattern delimits exactly: key and value non-empty,
      no `=` in the key and no `]` in either. */
  predicate Delimited(k: string, v: string)
  {
    |k| > 0 && |v| > 0 && '=' !in k && ']' !in k && ']' !in v
  }

  /** A predicate whose body also splits at `=` into exactly key and value. */
  predicate WfPred(k: string, v: string)
  {
    Delimited(k, v) && '=' !in v
  }

  predicate WfTok(t: Tok)
  {
    match t
    case Txt(s) => '[' !in s
    case Prd(k, v) => WfPred(k, v)
  }

  predicate WfToks(toks: seq<Tok>)
  {
    forall i :: 0 <= i < |toks| ==> WfTok(toks[i])
  }

  /** The text the tokens spell. */
  function Flat(toks: seq<Tok>): string
  {
    if |toks| == 0 then ""
    else
      match toks[0]
      case Txt(t) => t + Flat(toks[1..])
      case Prd(k, v) => PredText(k, v) + Flat(toks[1..])
  }

  /** The same text with the predicates numbered from `base` instead. */
  function FlatIdx(toks: seq<Tok>, base: nat): string
  {
    if |toks| == 0 then ""
    else
      match toks[0]
      case Txt(t) => t + FlatIdx(toks[1..], base)
      case Prd(_, _) => IdxText(base) + FlatIdx(toks[1..], base + 1)
  }

  /** The predicates, in order. */
  function PredsOf(toks: seq<Tok>): seq<KeyEntry>
  {
    if |toks| == 0 then []
    else
      match toks[0]
      case Txt(_) => PredsOf(toks[1..])
      case Prd(k, v) => [(k, v)] + PredsOf(toks[1..])
  }

  /** The pieces `re.findall` cuts: the text since the previous predicate
      (starting with `acc`) together with the next predicate. */
  function Chunks(toks: seq<Tok>, acc: string): (r: seq<string>)
    ensures forall i :: 0 <= i < |r| ==> '[' in r[i]
  {
    if |toks| == 0 then []
    else
      match toks[0]
      case Txt(t) => Chunks(toks[1..], acc + t)
      case Prd(k, v) =>
        var c := acc + PredText(k, v);
        assert c[|acc|] == '[';
        [c] + Chunks(toks[1..], "")
  }

  /** The rewritten chunks, concatenated, numbering from `base`. */
  function IdxHead(toks: seq<Tok>, acc: string, base: nat): string
  {
    if |toks| == 0 then ""
    else
      match toks[0]
      case Txt(t) => IdxHead(toks[1..], acc + t, base)
      case Prd(_, _) => acc + IdxText(base) + IdxHead(toks[1..], "", base + 1)
  }

  /** The text after the last predicate. */
  function TailOf(toks: seq<Tok>, acc: string): string
  {
    if |toks| == 0 then acc
    else
      match toks[0]
      case Txt(t) => TailOf(toks[1..], acc + t)
      case Prd(_, _) => TailOf(toks[1..], "")
  }

  // ---------------------------------------------------------------------------
  // One predicate

  /** The text of a predicate after its `[` and the first character of its key. */
  lemma PredTextAfter(k: string, v: string)
    requires |k| > 0
    ensures PredText(k, v)[2..] == k[1..] + ("=" + v + "]")
    ensures PredText(k, v)[0] == '['
    ensures |PredText(k, v)| == |k| + |v| + 3
  {
    assert PredText(k, v) == "[" + k + ("=" + v + "]");
  }

  /** Where the first `[` of `acc + PredText(k, v) + rest` is, and what follows
      two characters later. */
  lemma OpenOfPred(acc: string, k: string, v: string, rest: string)
    requires '[' !in acc && |k| > 0
    ensures Find(acc + PredText(k, v) + rest, '[') == |acc|
    ensures From(acc + PredText(k, v) + rest, |acc| + 2) == k[1..] + ("=" + v + "]" + rest)
  {
    FirstOpenOfPred(acc, k, v, rest);
    AfterOpenOfPred(acc, k, v, rest);
  }

  lemma FirstOpenOfPred(acc: string, k: string, v: string, rest: string)
    requires '[' !in acc && |k| > 0
    ensures Find(acc + PredText(k, v) + rest, '[') == |acc|
  {
    var p := PredText(k, v);
    assert p[0] == '[';
    var s := acc + p + rest;
    assert s == acc + (p + rest);
    FindConcat(acc, p + rest, '[');
    assert (p + rest)[0] == '[';
  }

  lemma AfterOpenOfPred(acc: string, k: string, v: string, rest: string)
    requires |k| > 0
    ensures From(acc + PredText(k, v) + rest, |acc| + 2) == k[1..] + ("=" + v + "]" + rest)
  {
    var p := PredText(k, v);
    var s := acc + p + rest;
    assert p[2..] == k[1..] + ("=" + v + "]");
    assert s == acc + (p + rest);
    DropPast(acc, p + rest, 2);
    assert (p + rest)[2..] == p[2..] + rest;
  }

  lemma MatchOnePred(acc: string, k: string, v: string, rest: string)
    requires '[' !in acc && |k| > 0 && |v| > 0 && '=' !in k && ']' !in v
    ensures MatchEnd(acc + PredText(k, v) + rest) == Some(|acc| + |k| + |v| + 3)
  {
    var s := acc + PredText(k, v) + rest;
    FirstOpenOfPred(acc, k, v, rest);
    EqualsOfPred(acc, k, v, rest);
    EqualsAtIs(s, |acc|, |acc| + |k| + 1);
    CloseOfPred(acc, k, v, rest);
    CloseAtIs(s, |acc| + |k| + 1, |acc| + |k| + |v| + 2);
    assert |s| == |acc| + |k| + |v| + 3 + |rest|;
  }

  lemma EqualsAtIs(s: string, q: nat, e: nat)
    requires q + 2 <= e && Find(s, '[') == q && Find(From(s, q + 2), '=') == e - (q + 2)
    ensures EqualsAt(s) == e
  {
  }

  lemma CloseAtIs(s: string, e: nat, f: nat)
    requires e + 2 <= f && EqualsAt(s) == e && Find(From(s, e + 2), ']') == f - (e + 2)
    ensures CloseAt(s) == f
  {
  }

  /** In `a + [c] + b` with no `c` in `a`, the first `c` closes `a`. */
  lemma FirstAfter(a: string, c: char, b: string)
    requires c !in a
    ensures Find(a + ([c] + b), c) == |a|
  {
    FindConcat(a, [c] + b, c);
  }

  lemma EqualsOfPred(acc: string, k: string, v: string, rest: string)
    requires |k| > 0 && '=' !in k
    ensures Find(From(acc + PredText(k, v) + rest, |acc| + 2), '=') == |k| - 1
  {
    AfterOpenOfPred(acc, k, v, rest);
    assert k[1..] + ("=" + v + "]" + rest) == k[1..] + (['='] + (v + "]" + rest));
    assert '=' !in k[1..];
    FirstAfter(k[1..], '=', v + "]" + rest);
  }

  lemma CloseOfPred(acc: string, k: string, v: string, rest: string)
    requires |k| > 0 && |v| > 0 && ']' !in v
    ensures Find(From(acc + PredText(k, v) + rest, |acc| + |k| + 3), ']') == |v| - 1
  {
    var s := acc + PredText(k, v) + rest;
    assert s == (acc + "[" + k + "=" + [v[0]]) + (v[1..] + ([']'] + rest));
    DropPast(acc + "[" + k + "=" + [v[0]], v[1..] + ([']'] + rest), 0);
    assert ']' !in v[1..];
    FirstAfter(v[1..], ']', rest);
  }

  lemma SubAtPred(acc: string, k: string, v: string)
    requires '[' !in acc && Delimited(k, v)
    ensures Find(acc + PredText(k, v), '[') == |acc|
    ensures CloseAfterOpen(acc + PredText(k, v)) == |acc| + |k| + |v| + 2
  {
    var t := acc + PredText(k, v);
    OpenOfPred(acc, k, v, "");
    assert t + "" == t;
    var x := "=" + v + "]";
    assert ']' !in k[1..] && ']' !in "=" + v;
    FindConcat(k[1..], x + "", ']');
    FindConcat(x, "", ']');
    FindConcat("=" + v, "]", ']');
    CloseAfterOpenAt(t, |acc|, |acc| + |k| + |v| + 2);
  }

  lemma CloseAfterOpenAt(t: string, q: nat, r: nat)
    requires Find(t, '[') == q && q + 2 <= r
    requires Find(From(t, q + 2), ']') == r - (q + 2)
    ensures CloseAfterOpen(t) == r
  {
  }

  lemma SubGroupAt(t: string, q: nat, r: nat)
    requires Find(t, '[') == q && CloseAfterOpen(t) == r && r + 1 == |t|
    ensures SubGroup(t) == t[q + 1..r]
  {
    assert t[r + 1..] == [];
    assert SubGroup([]) == [];
  }

  lemma SubIndexAt(t: string, d: string, q: nat, r: nat)
    requires Find(t, '[') == q && CloseAfterOpen(t) == r && r + 1 == |t|
    ensures SubIndex(t, d) == t[..q + 1] + d + "]"
  {
    assert t[r + 1..] == [];
    assert SubIndex([], d) == [];
  }

  lemma SubGroupOnePred(acc: string, k: string, v: string)
    requires '[' !in acc && Delimited(k, v)
    ensures SubGroup(acc + PredText(k, v)) == k + "=" + v
  {
    var t := acc + PredText(k, v);
    SubAtPred(acc, k, v);
    var q := |acc|;
    var r := |acc| + |k| + |v| + 2;
    assert |t| == r + 1;
    SubGroupAt(t, q, r);
    PredMiddle(acc, k, v);
  }

  lemma PredHead(acc: string, k: string, v: string)
    ensures (acc + PredText(k, v))[..|acc| + 1] == acc + "["
  {
    assert acc + PredText(k, v) == (acc + "[") + (k + "=" + v + "]");
  }

  lemma PredMiddle(acc: string, k: string, v: string)
    ensures (acc + PredText(k, v))[|acc| + 1..|acc| + |k| + |v| + 2] == k + "=" + v
  {
    assert acc + PredText(k, v) == acc + ("[" + (k + "=" + v) + "]");
  }

  lemma SubIndexOnePred(acc: string, k: string, v: string, d: string)
    requires '[' !in acc && Delimited(k, v)
    ensures SubIndex(acc + PredText(k, v), d) == acc + ("[" + d + "]")
  {
    var t := acc + PredText(k, v);
    SubAtPred(acc, k, v);
    var q := |acc|;
    var r := |acc| + |k| + |v| + 2;
    assert |t| == r + 1;
    SubIndexAt(t, d, q, r);
    PredHead(acc, k, v);
    Assoc(acc, "[", d);
    Assoc(acc, "[" + d, "]");
  }

  lemma SplitPair(k: string, v: string)
    requires '=' !in k && '=' !in v
    ensures Split(k + "=" + v, '=') == [k, v]
  {
    assert k + "=" + v == k + ['='] + v;
    SplitAround(k, v, '=');
    SplitWithout(k, '=');
    SplitWithout(v, '=');
  }

  // ---------------------------------------------------------------------------
  // A whole token sequence

  lemma WfRest(toks: seq<Tok>)
    requires |toks| > 0 && WfToks(toks)
    ensures WfTok(toks[0]) && WfToks(toks[1..])
  {
    assert forall i :: 0 <= i < |toks[1..]| ==> toks[1..][i] == toks[i + 1];
  }

  lemma {:induction false} FindAllToks(acc: string, toks: seq<Tok>, rest: string)
    requires '[' !in acc && WfToks(toks)
    ensures FindAll(acc + Flat(toks) + rest) == Chunks(toks, acc) + FindAll(TailOf(toks, acc) + rest)
    decreases |toks|
  {
    if |toks| == 0 {
      assert acc + Flat(toks) + rest == acc + rest;
    } else {
      WfRest(toks);
      if toks[0].Txt? {
        var t := toks[0].text;
        FindAllToks(acc + t, toks[1..], rest);
        FindAllTxt(acc, toks, rest);
      } else {
        FindAllToks("", toks[1..], rest);
        FindAllPrd(acc, toks, rest);
      }
    }
  }

  lemma FindAllTxt(acc: string, toks: seq<Tok>, rest: string)
    requires |toks| > 0 && toks[0].Txt?
    requires FindAll(acc + toks[0].text + Flat(toks[1..]) + rest)
          == Chunks(toks[1..], acc + toks[0].text) + FindAll(TailOf(toks[1..], acc + toks[0].text) + rest)
    ensures FindAll(acc + Flat(toks) + rest) == Chunks(toks, acc) + FindAll(TailOf(toks, acc) + rest)
  {
    Assoc(acc, toks[0].text, Flat(toks[1..]));
  }

  lemma FindAllPrd(acc: string, toks: seq<Tok>, rest: string)
    requires |toks| > 0 && toks[0].Prd? && '[' !in acc && WfTok(toks[0])
    requires FindAll("" + Flat(toks[1..]) + rest)
          == Chunks(toks[1..], "") + FindAll(TailOf(toks[1..], "") + rest)
    ensures FindAll(acc + Flat(toks) + rest) == Chunks(toks, acc) + FindAll(TailOf(toks, acc) + rest)
  {
    var k, v := toks[0].key, toks[0].value;
    var f := Flat(toks[1..]);
    assert "" + f == f;
    Assoc(acc, PredText(k, v), f);
    FindAllPredThen(acc, k, v, f, rest, Chunks(toks[1..], ""), TailOf(toks[1..], ""));
  }

  lemma FindAllPredThen(acc: string, k: string, v: string, f: string, rest: string, ch: seq<string>, tl: string)
    requires '[' !in acc && WfPred(k, v)
    requires FindAll(f + rest) == ch + FindAll(tl + rest)
    ensures FindAll(acc + PredText(k, v) + f + rest) == [acc + PredText(k, v)] + ch + FindAll(tl + rest)
  {
    var c := acc + PredText(k, v);
    Assoc(c, f, rest);
    FindAllPred(acc, k, v, f + rest);
    Assoc([c], ch, FindAll(tl + rest));
  }

  /** A predicate after text without `[` is the first match. */
  lemma FindAllPred(acc: string, k: string, v: string, x: string)
    requires '[' !in acc && Delimited(k, v)
    ensures FindAll(acc + PredText(k, v) + x) == [acc + PredText(k, v)] + FindAll(x)
  {
    var c := acc + PredText(k, v);
    MatchOnePred(acc, k, v, x);
    SplitAt(c, x);
    FindAllAt(c + x, |c|);
  }

  lemma FindAllAt(s: string, f: nat)
    requires MatchEnd(s) == Some(f)
    ensures FindAll(s) == [s[..f]] + FindAll(s[f..])
  {
  }

  lemma {:induction false} RewriteToks(toks: seq<Tok>, acc: string, more: seq<string>, keys: seq<KeyEntry>, temp: string)
    requires '[' !in acc && WfToks(toks)
    ensures RewriteMatches(Chunks(toks, acc) + more, keys, temp)
         == RewriteMatches(more, keys + PredsOf(toks), temp + IdxHead(toks, acc, |keys|))
    decreases |toks|
  {
    if |toks| == 0 {
      assert Chunks(toks, acc) + more == more;
      assert keys + PredsOf(toks) == keys;
      assert temp + IdxHead(toks, acc, |keys|) == temp;
    } else {
      WfRest(toks);
      match toks[0]
      case Txt(t) =>
        RewriteToks(toks[1..], acc + t, more, keys, temp);
      case Prd(k, v) =>
        var c := acc + PredText(k, v);
        var cs := Chunks(toks[1..], "") + more;
        assert Chunks(toks, acc) + more == [c] + cs;
        var d := NatToDecimal(|keys|);
        RewritePred(acc, k, v, cs, keys, temp);
        var keys' := keys + [(k, v)];
        var temp' := temp + (acc + IdxText(|keys|));
        RewriteToks(toks[1..], "", more, keys', temp');
        Assoc(keys, [(k, v)], PredsOf(toks[1..]));
        Assoc(temp, acc + IdxText(|keys|), IdxHead(toks[1..], "", |keys'|));
    }
  }

  /** The loop step on a chunk ending in a well-formed predicate. */
  lemma RewritePred(acc: string, k: string, v: string, cs: seq<string>, keys: seq<KeyEntry>, temp: string)
    requires '[' !in acc && WfPred(k, v)
    ensures RewriteMatches([acc + PredText(k, v)] + cs, keys, temp)
         == RewriteMatches(cs, keys + [(k, v)], temp + (acc + IdxText(|keys|)))
  {
    var c := acc + PredText(k, v);
    var all := [c] + cs;
    assert all[0] == c && all[1..] == cs;
    SubGroupOnePred(acc, k, v);
    SplitPair(k, v);
    SubIndexOnePred(acc, k, v, NatToDecimal(|keys|));
    RewriteStep(all, keys, temp, k, v);
  }

  lemma RewriteStep(all: seq<string>, keys: seq<KeyEntry>, temp: string, k: string, v: string)
    requires |all| > 0 && Split(SubGroup(all[0]), '=') == [k, v]
    ensures RewriteMatches(all, keys, temp)
         == RewriteMatches(all[1..], keys + [(k, v)], temp + SubIndex(all[0], NatToDecimal(|keys|)))
  {
  }

  lemma {:induction false} ChunksThenTail(toks: seq<Tok>, acc: string)
    ensures Concat(Chunks(toks, acc)) + TailOf(toks, acc) == acc + Flat(toks)
    decreases |toks|
  {
    if |toks| == 0 {
    } else {
      match toks[0]
      case Txt(t) =>
        ChunksThenTail(toks[1..], acc + t);
        Assoc(acc, t, Flat(toks[1..]));
      case Prd(k, v) =>
        var c := acc + PredText(k, v);
        var cs := Chunks(toks[1..], "");
        var tl := TailOf(toks[1..], "");
        assert ([c] + cs)[1..] == cs;
        assert Concat([c] + cs) == c + Concat(cs);
        ChunksThenTail(toks[1..], "");
        assert Concat(cs) + tl == Flat(toks[1..]);
        Assoc(c, Concat(cs), tl);
        Assoc(acc, PredText(k, v), Flat(toks[1..]));
    }
  }

  lemma {:induction false} IdxHeadThenTail(toks: seq<Tok>, acc: string, base: nat)
    ensures IdxHead(toks, acc, base) + TailOf(toks, acc) == acc + FlatIdx(toks, base)
    decreases |toks|
  {
    if |toks| == 0 {
    } else {
      match toks[0]
      case Txt(t) =>
        IdxHeadThenTail(toks[1..], acc + t, base);
        Assoc(acc, t, FlatIdx(toks[1..], base));
      case Prd(_, _) =>
        var h := IdxHead(toks[1..], "", base + 1);
        var tl := TailOf(toks[1..], "");
        IdxHeadThenTail(toks[1..], "", base + 1);
        assert h + tl == FlatIdx(toks[1..], base + 1);
        Assoc(acc + IdxText(base), h, tl);
        Assoc(acc, IdxText(base), FlatIdx(toks[1..], base + 1));
    }
  }

  lemma {:induction false} TailHasNoOpen(toks: seq<Tok>, acc: string)
    requires '[' !in acc && WfToks(toks)
    ensures '[' !in TailOf(toks, acc)
    decreases |toks|
  {
    if |toks| > 0 {
      WfRest(toks);
      match toks[0]
      case Txt(t) => TailHasNoOpen(toks[1..], acc + t);
      case Prd(_, _) => TailHasNoOpen(toks[1..], "");
    }
  }

  lemma {:induction false} ChunksCount(toks: seq<Tok>, acc: string)
    ensures |Chunks(toks, acc)| == |PredsOf(toks)|
    decreases |toks|
  {
    if |toks| > 0 {
      match toks[0]
      case Txt(t) => ChunksCount(toks[1..], acc + t);
      case Prd(_, _) => ChunksCount(toks[1..], "");
    }
  }

  lemma {:induction false} NoPredsSameText(toks: seq<Tok>, base: nat)
    requires PredsOf(toks) == []
    ensures FlatIdx(toks, base) == Flat(toks)
    decreases |toks|
  {
    if |toks| > 0 {
      match toks[0]
      case Txt(t) => NoPredsSameText(toks[1..], base);
      case Prd(_, _) =>
    }
  }

  lemma NoOpenNoMatch(t: string)
    requires '[' !in t
    ensures FindAll(t) == []
  {
    FindFound(t, '[');
  }

  lemma FindAllFlat(toks: seq<Tok>)
    requires WfToks(toks)
    ensures FindAll(Flat(toks)) == Chunks(toks, "")
  {
    var tail := TailOf(toks, "");
    FindAllToks("", toks, "");
    assert "" + Flat(toks) + "" == Flat(toks);
    TailHasNoOpen(toks, "");
    assert tail + "" == tail;
    NoOpenNoMatch(tail);
  }

  lemma KeyStageAt(s: string, matches: seq<string>, rw: (string, seq<KeyEntry>))
    requires MatchEnd(s).Some? && FindAll(s) == matches && RewriteMatches(matches, [], "") == Ok(rw)
    ensures KeyStage(s) == Ok((if |Concat(matches)| < |s| then rw.0 + Remove(s, Concat(matches)) else rw.0, rw.1))
  {
  }

  /** The side table of a well-formed text holds its predicates in order, and
      the rewritten text has them replaced by their indices. */
  lemma KeyStageToks(toks: seq<Tok>)
    requires WfToks(toks)
    ensures KeyStage(Flat(toks)) == Ok((FlatIdx(toks, 0), PredsOf(toks)))
  {
    var s := Flat(toks);
    var chunks := Chunks(toks, "");
    FindAllFlat(toks);
    FindAllShape(s);
    ChunksCount(toks, "");
    if |PredsOf(toks)| == 0 {
      NoPredsSameText(toks, 0);
    } else {
      KeyStagePreds(toks);
    }
  }

  lemma KeyStagePreds(toks: seq<Tok>)
    requires WfToks(toks) && |PredsOf(toks)| > 0 && FindAll(Flat(toks)) == Chunks(toks, "")
    requires MatchEnd(Flat(toks)).Some?
    ensures KeyStage(Flat(toks)) == Ok((FlatIdx(toks, 0), PredsOf(toks)))
  {
    var chunks := Chunks(toks, "");
    var tail := TailOf(toks, "");
    var head := IdxHead(toks, "", 0);
    ChunksCount(toks, "");
    RewriteToks(toks, "", [], [], "");
    assert chunks + [] == chunks;
    assert [] + PredsOf(toks) == PredsOf(toks);
    assert "" + head == head;
    assert RewriteMatches(chunks, [], "") == RewriteMatches([], PredsOf(toks), head);
    ChunksThenTail(toks, "");
    assert "" + Flat(toks) == Flat(toks);
    IdxHeadThenTail(toks, "", 0);
    assert "" + FlatIdx(toks, 0) == FlatIdx(toks, 0);
    assert '[' in chunks[0];
    TailHasNoOpen(toks, "");
    KeyStageParts(Flat(toks), chunks, tail, head, PredsOf(toks));
  }

  /** `KeyStage` on a text that its matches and a tail without `[` make up. */
  lemma KeyStageParts(s: string, chunks: seq<string>, tail: string, head: string, preds: seq<KeyEntry>)
    requires MatchEnd(s).Some? && FindAll(s) == chunks && |chunks| > 0 && '[' in chunks[0]
    requires RewriteMatches(chunks, [], "") == Ok((head, preds))
    requires Concat(chunks) + tail == s && '[' !in tail
    ensures KeyStage(s) == Ok((head + tail, preds))
  {
    var matched := Concat(chunks);
    assert '[' in matched by { assert chunks[0] <= matched; }
    KeyStageAt(s, chunks, (head, preds));
    if |matched| < |s| {
      assert Remove(s, matched) == Replace(matched + tail, matched, "");
      ReplaceHead(matched, tail, "");
      ReplaceMissing(tail, matched, "", '[');
      assert "" + tail == tail;
      assert Remove(s, matched) == tail;
    } else {
      assert tail == "";
      assert head + "" == head;
    }
  }

  /** A bracket body with a second `=` fails the two-way unpacking: the whole
      conversion raises `ValueError`, whatever well-formed text precedes it and
      whatever follows. */
  lemma ExtraEqualsRejected(toks: seq<Tok>, pre: string, a: string, b: string, c: string, post: string, target: string)
    requires WfToks(toks) && '[' !in pre
    requires |a| > 0 && |b| > 0 && |c| > 0
    requires '=' !in a && '=' !in b && '=' !in c && ']' !in a && ']' !in b && ']' !in c
    ensures Generate(Flat(toks) + pre + PredText(a, b + "=" + c) + post, target) == Err(ValueError)
  {
    var v := b + "=" + c;
    var p := PredText(a, v);
    var s := Flat(toks) + pre + p + post;
    Assoc(Flat(toks), pre + p, post);
    Assoc(Flat(toks), pre, p);
    var tail := TailOf(toks, "");
    var chunks := Chunks(toks, "");
    TailHasNoOpen(toks, "");
    FindAllToks("", toks, pre + p + post);
    assert "" + Flat(toks) == Flat(toks);
    Assoc(tail, pre + p, post);
    Assoc(tail, pre, p);
    FindAllPred(tail + pre, a, v, post);
    var c0 := tail + pre + p;
    var more := [c0] + FindAll(post);
    assert FindAll(s) == chunks + more;
    FindAllShape(s);
    RewriteToks(toks, "", more, [], "");
    ThreeParts(tail + pre, a, b, c);
    assert more[0] == c0;
    RewriteRejects(more, PredsOf(toks), "" + IdxHead(toks, "", 0));
    assert [] + PredsOf(toks) == PredsOf(toks);
    KeyStageRejects(s);
  }

  /** The group of `acc[a=b=c]` splits at `=` into three parts. */
  lemma ThreeParts(acc: string, a: string, b: string, c: string)
    requires '[' !in acc && |a| > 0 && |b| > 0 && |c| > 0
    requires '=' !in a && '=' !in b && '=' !in c && ']' !in a && ']' !in b && ']' !in c
    ensures |Split(SubGroup(acc + PredText(a, b + "=" + c)), '=')| == 3
  {
    var v := b + "=" + c;
    SubGroupOnePred(acc, a, v);
    assert a + "=" + v == a + ['='] + (b + ['='] + c);
    SplitAround(a, b + ['='] + c, '=');
    SplitAround(b, c, '=');
    SplitWithout(a, '=');
    SplitWithout(b, '=');
    SplitWithout(c, '=');
  }

  lemma RewriteRejects(all: seq<string>, keys: seq<KeyEntry>, temp: string)
    requires |all| > 0 && |Split(SubGroup(all[0]), '=')| != 2
    ensures RewriteMatches(all, keys, temp) == Err(ValueError)
  {
  }

  lemma KeyStageRejects(s: string)
    requires |FindAll(s)| > 0 <==> MatchEnd(s).Some?
    requires |FindAll(s)| > 0 && RewriteMatches(FindAll(s), [], "").Err?
    ensures KeyStage(s) == Err(ValueError)
    ensures s != "" ==> forall target :: Generate(s, target) == Err(ValueError)
  {
  }
}
