/** `_dict_to_xpath` and `_get_unique_id`: flattening a decoded JSON
    configuration into `(xpath, value)` pairs, where a dictionary that is an
    element of a list is told apart by a `[name=value]` selector. */
module XPathTools {
  import opened Wrappers
  import opened Strings

  /** A decoded JSON value: a dictionary with its entries in iteration
      order, a list, or a scalar whose `str()` text is `text`. */
  datatype Val = Obj(entries: seq<(string, Val)>) | Arr(items: seq<Val>) | Leaf(text: string)

  /** The position of the last entry whose value is a scalar or, when
      `lists` holds, a list: the entry a loop that reassigns on every such
      entry is left with. */
  function LastSelectable(es: seq<(string, Val)>, lists: bool): (r: Option<nat>)
    ensures r.Some? ==> r.value < |es| && !es[r.value].1.Obj? && (lists || !es[r.value].1.Arr?)
    ensures r.Some? ==> forall j :: r.value < j < |es| ==> es[j].1.Obj? || (!lists && es[j].1.Arr?)
    ensures r.None? ==> forall j :: 0 <= j < |es| ==> es[j].1.Obj? || (!lists && es[j].1.Arr?)
  {
    if |es| == 0 then None
    else
      var x := es[|es| - 1].1;
      if x.Leaf? || (lists && x.Arr?) then Some(|es| - 1)
      else LastSelectable(es[..|es| - 1], lists)
  }

  /** `[k=v]` for the last scalar entry, `""` when there is none. */
  function ScalarSelector(es: seq<(string, Val)>): string
  {
    match LastSelectable(es, false)
    case None => ""
    case Some(j) => "[" + es[j].0 + "=" + es[j].1.text + "]"
  }

  /** `pre` put in front of every path. */
  function Prepend(pre: string, r: seq<(string, Val)>): (r': seq<(string, Val)>)
    ensures |r'| == |r|
    ensures forall i :: 0 <= i < |r| ==> r'[i] == (pre + r[i].0, r[i].1)
  {
    seq(|r|, i requires 0 <= i < |r| => (pre + r[i].0, r[i].1))
  }

  /** The selector a dictionary gets: only inside a list. */
  function SelectorOf(v: Val, fromList: bool): string
  {
    if fromList && v.Obj? then ScalarSelector(v.entries) else ""
  }

  // ---------------------------------------------------------------------------
  // `_dict_to_xpath`

  /** `_dict_to_xpath(v, type(v), pre)`, where `fromList` says whether the
      enclosing value is a list: the pairs of every entry in order, all
      behind the dictionary's selector when it is a list element that holds
      a scalar. Anything but a dictionary gives nothing. Every value is a
      scalar; every path starts with the selector and then `/`. */
  function XPathOf(v: Val, fromList: bool): (r: seq<(string, Val)>)
    ensures !v.Obj? ==> r == []
    ensures forall i :: 0 <= i < |r| ==> r[i].1.Leaf? && SelectorOf(v, fromList) + "/" <= r[i].0
    decreases v, 3
  {
    if !v.Obj? then []
    else
      var r := EntriesFrom(v, 0);
      var id := SelectorOf(v, fromList);
      if id != "" then
        var r' := Prepend(id, r);
        assert forall i :: 0 <= i < |r| ==> id + "/" <= r'[i].0 by {
          forall i | 0 <= i < |r| ensures id + "/" <= r'[i].0 {
            PrefixExtends(id, "/", r[i].0);
          }
        }
        r'
      else r
  }

  /** The pairs of the entries from `i` on, in order. */
  function EntriesFrom(v: Val, i: nat): (r: seq<(string, Val)>)
    requires v.Obj? && i <= |v.entries|
    ensures forall j :: 0 <= j < |r| ==> r[j].1.Leaf? && "/" <= r[j].0
    decreases v, 2, |v.entries| - i
  {
    if i == |v.entries| then []
    else
      var part := EntryPart(v, i);
      assert forall j :: 0 <= j < |part| ==> "/" <= part[j].0 by {
        forall j | 0 <= j < |part| ensures "/" <= part[j].0 {
          PrefixOfPrefix("/", v.entries[i].0, part[j].0);
        }
      }
      part + EntriesFrom(v, i + 1)
  }

  /** The pairs of entry `i` (`k1`, `v1`): a dictionary's pairs behind
      `/k1`; for a list, the pairs of its dictionary elements behind `/k1`;
      a scalar as the single pair `(/k1, v1)`. Every path starts with
      `/k1`. */
  function EntryPart(v: Val, i: nat): (r: seq<(string, Val)>)
    requires v.Obj? && i < |v.entries|
    ensures forall j :: 0 <= j < |r| ==> r[j].1.Leaf? && "/" + v.entries[i].0 <= r[j].0
    decreases v, 1
  {
    var (k, x) := v.entries[i];
    match x
    case Leaf(_) => [("/" + k, x)]
    case Obj(_) => Prepend("/" + k, XPathOf(x, false))
    case Arr(items) => ListItems(v, i, 0)
  }

  /** The pairs of the dictionary elements of the list in entry `i`, from
      element `j` on, behind `/k1`. */
  function ListItems(v: Val, i: nat, j: nat): (r: seq<(string, Val)>)
    requires v.Obj? && i < |v.entries| && v.entries[i].1.Arr? && j <= |v.entries[i].1.items|
    ensures forall n :: 0 <= n < |r| ==> r[n].1.Leaf? && "/" + v.entries[i].0 <= r[n].0
    decreases v, 0, |v.entries[i].1.items| - j
  {
    var (k, x) := v.entries[i];
    if j == |x.items| then []
    else
      var y := x.items[j];
      assert y < x;
      var here := if y.Obj? then Prepend("/" + k, XPathOf(y, true)) else [];
      here + ListItems(v, i, j + 1)
  }

  lemma PrefixExtends(a: string, b: string, s: string)
    requires b <= s
    ensures a + b <= a + s
  {
    assert (a + s)[..|a + b|] == a + s[..|b|];
  }

  lemma PrefixOfPrefix(a: string, b: string, s: string)
    requires a + b <= s
    ensures a <= s
  {
    assert s[..|a|] == (a + b)[..|a|];
  }

  /** A dictionary of scalars gives one pair `(/k, v)` per entry, in
      iteration order. */
  lemma ScalarsInOrder(es: seq<(string, Val)>)
    requires forall i :: 0 <= i < |es| ==> es[i].1.Leaf?
    ensures XPathOf(Obj(es), false) == seq(|es|, i requires 0 <= i < |es| => ("/" + es[i].0, es[i].1))
  {
    ScalarsFrom(es, 0);
  }

  lemma {:induction false} ScalarsFrom(es: seq<(string, Val)>, i: nat)
    requires i <= |es| && forall j :: 0 <= j < |es| ==> es[j].1.Leaf?
    ensures EntriesFrom(Obj(es), i) == seq(|es| - i, j requires 0 <= j < |es| - i => ("/" + es[i + j].0, es[i + j].1))
    decreases |es| - i
  {
    if i < |es| {
      ScalarsFrom(es, i + 1);
    }
  }

  /** A list without dictionary elements gives nothing. */
  lemma {:induction false} ListWithoutDicts(v: Val, i: nat, j: nat)
    requires v.Obj? && i < |v.entries| && v.entries[i].1.Arr? && j <= |v.entries[i].1.items|
    requires forall n :: 0 <= n < |v.entries[i].1.items| ==> !v.entries[i].1.items[n].Obj?
    ensures ListItems(v, i, j) == []
    decreases |v.entries[i].1.items| - j
  {
    if j < |v.entries[i].1.items| {
      ListWithoutDicts(v, i, j + 1);
    }
  }

  /** A list of dictionaries gives their pairs one element after the other,
      each element's pairs behind `/k1` and that element's own selector. */
  lemma {:induction false} ListElements(v: Val, i: nat, j: nat)
    requires v.Obj? && i < |v.entries| && v.entries[i].1.Arr? && j < |v.entries[i].1.items|
    requires v.entries[i].1.items[j].Obj?
    ensures var y := v.entries[i].1.items[j];
            ListItems(v, i, j) == Prepend("/" + v.entries[i].0, XPathOf(y, true)) + ListItems(v, i, j + 1)
            && forall n :: 0 <= n < |XPathOf(y, true)| ==>
                 "/" + v.entries[i].0 + ScalarSelector(y.entries) + "/" <= ListItems(v, i, j)[n].0
  {
    var k := v.entries[i].0;
    var y := v.entries[i].1.items[j];
    var inner := XPathOf(y, true);
    forall n | 0 <= n < |inner| ensures "/" + k + ScalarSelector(y.entries) + "/" <= ListItems(v, i, j)[n].0 {
      assert ListItems(v, i, j)[n] == ("/" + k + inner[n].0, inner[n].1);
      PrefixExtends("/" + k, ScalarSelector(y.entries) + "/", inner[n].0);
    }
  }

  /** At the top level and under a dictionary no selector is added: the
      pairs are those of the entries, one after the other. */
  lemma TopLevelNoSelector(v: Val)
    requires v.Obj?
    ensures XPathOf(v, false) == EntriesFrom(v, 0)
    ensures forall i :: 0 <= i < |XPathOf(v, false)| ==> "/" <= XPathOf(v, false)[i].0
  {
  }

  /** A list element whose entries are all scalars: its pairs are those of
      its entries in order, each behind the selector of its LAST entry. */
  lemma LastScalarSelects(es: seq<(string, Val)>)
    requires |es| > 0 && forall i :: 0 <= i < |es| ==> es[i].1.Leaf?
    ensures var sel := "[" + es[|es| - 1].0 + "=" + es[|es| - 1].1.text + "]";
            XPathOf(Obj(es), true) == seq(|es|, i requires 0 <= i < |es| => (sel + ("/" + es[i].0), es[i].1))
  {
    ScalarsInOrder(es);
    assert LastSelectable(es, false) == Some(|es| - 1);
  }

  // ---------------------------------------------------------------------------
  // `_get_unique_id`

  /** An item of `path_list`: a dictionary key or a list index. */
  datatype PathItem = Key(key: string) | Index(index: int)

  /** The first entry for key `k`. */
  function Find(es: seq<(string, Val)>, k: string): (r: Option<nat>)
    ensures r.Some? ==> r.value < |es| && es[r.value].0 == k
    ensures r.Some? ==> forall j :: 0 <= j < r.value ==> es[j].0 != k
    ensures r.None? ==> forall j :: 0 <= j < |es| ==> es[j].0 != k
  {
    if |es| == 0 then None
    else if es[0].0 == k then Some(0)
    else
      var r := Find(es[1..], k);
      if r.Some? then Some(r.value + 1) else None
  }

  /** `elem[item]`: a dictionary looked up by key (`KeyError` when the key,
      or an integer, is not there), a list by index, Python-style
      (`IndexError` out of range, `TypeError` for a string); a scalar cannot
      be subscripted by a name. */
  function Subscript(elem: Val, item: PathItem): (r: Result<Val>)
    ensures r.Ok? ==> r.value < elem
    ensures elem.Obj? && item.Key? ==>
              (r.Ok? <==> Find(elem.entries, item.key).Some?)
              && (r.Ok? ==> r.value == elem.entries[Find(elem.entries, item.key).value].1)
    ensures elem.Arr? && item.Index? ==>
              (r.Ok? <==> PyIndex(item.index, |elem.items|).Some?)
              && (r.Ok? ==> r.value == elem.items[PyIndex(item.index, |elem.items|).value])
    ensures r.Err? ==> r.error == (if elem.Obj? then KeyError else if elem.Arr? && item.Index? then IndexError else TypeError)
    ensures elem.Leaf? || (elem.Obj? && item.Index?) || (elem.Arr? && item.Key?) ==> r.Err?
  {
    match elem
    case Obj(es) =>
      if item.Index? then Err(KeyError)
      else
        var j := Find(es, item.key);
        if j.None? then Err(KeyError)
        else
          assert es[j.value] in es;
          Ok(es[j.value].1)
    case Arr(xs) =>
      if item.Key? then Err(TypeError)
      else
        var j := PyIndex(item.index, |xs|);
        if j.None? then Err(IndexError)
        else Ok(xs[j.value])
    case Leaf(_) => Err(TypeError)
  }

  /** The value reached by subscripting with each item in turn. */
  function Follow(path: seq<PathItem>, elem: Val): Result<Val>
  {
    if |path| == 0 then Ok(elem)
    else
      var next :- Subscript(elem, path[0]);
      Follow(path[1..], next)
  }

  /** `str(v)` of a list. */
  type Repr = Val -> string

  /** `str(v)` of a value that is not a dictionary: a scalar's own text, a
      list rendered by `repr`. */
  function ValueText(v: Val, repr: Repr): string
  {
    if v.Leaf? then v.text else repr(v)
  }

  /** `_get_unique_id(path_list, temp_elem)`: `[k=v]` for the last entry of
      the value reached whose value is not a dictionary (a list counts, and
      is rendered by `repr`), `""` when every entry is a dictionary. Reaching
      something other than a dictionary fails: `.items()` is missing. */
  function UniqueId(path: seq<PathItem>, elem: Val, repr: Repr): (r: Result<string>)
    ensures r.Ok? <==> Follow(path, elem).Ok? && Follow(path, elem).value.Obj?
    ensures r.Ok? ==> var es := Follow(path, elem).value.entries;
                      (r.value == "" <==> forall j :: 0 <= j < |es| ==> es[j].1.Obj?)
    ensures r.Ok? && r.value != "" ==>
              var es := Follow(path, elem).value.entries;
              exists j :: 0 <= j < |es| && !es[j].1.Obj? && (forall i :: j < i < |es| ==> es[i].1.Obj?)
                          && r.value == "[" + es[j].0 + "=" + ValueText(es[j].1, repr) + "]"
  {
    var node :- Follow(path, elem);
    if !node.Obj? then Err(AttributeError)
    else
      var es := node.entries;
      match LastSelectable(es, true)
      case None => Ok("")
      case Some(j) => Ok("[" + es[j].0 + "=" + ValueText(es[j].1, repr) + "]")
  }

  /** `_get_unique_id`: the walk down `path_list`, then the loop over the
      entries reassigning the result. */
  method GetUniqueId(path: seq<PathItem>, elem: Val, repr: Repr) returns (r: Result<string>)
    ensures r == UniqueId(path, elem, repr)
  {
    var node := elem;
    for i := 0 to |path|
      invariant Follow(path, elem) == Follow(path[i..], node)
    {
      assert path[i..][0] == path[i] && path[i..][1..] == path[i + 1..];
      var next := Subscript(node, path[i]);
      if next.Err? {
        return Err(next.error);
      }
      node := next.value;
    }
    if !node.Obj? {
      return Err(AttributeError);
    }
    var es := node.entries;
    var result := "";
    ghost var last: Option<nat> := None;
    for j := 0 to |es|
      invariant last == LastSelectable(es[..j], true)
      invariant last.None? ==> result == ""
      invariant last.Some? ==> last.value < j && result == "[" + es[last.value].0 + "=" + ValueText(es[last.value].1, repr) + "]"
    {
      assert es[..j + 1][..j] == es[..j];
      if !es[j].1.Obj? {
        result := "[" + es[j].0 + "=" + ValueText(es[j].1, repr) + "]";
        last := Some(j);
      }
    }
    assert es[..|es|] == es;
    return Ok(result);
  }

  /** Walking a path in two steps reaches what walking it at once does. */
  lemma {:induction false} FollowCompose(p1: seq<PathItem>, p2: seq<PathItem>, elem: Val)
    ensures Follow(p1 + p2, elem) == (if Follow(p1, elem).Ok? then Follow(p2, Follow(p1, elem).value) else Follow(p1, elem))
    decreases |p1|
  {
    if |p1| == 0 {
      assert p1 + p2 == p2;
    } else {
      assert (p1 + p2)[0] == p1[0] && (p1 + p2)[1..] == p1[1..] + p2;
      var next := Subscript(elem, p1[0]);
      if next.Ok? {
        FollowCompose(p1[1..], p2, next.value);
      }
    }
  }

  /** On a dictionary without list values, the selector `_dict_to_xpath`
      gives a list element is the one `_get_unique_id` computes for it. */
  lemma SelectorsAgree(es: seq<(string, Val)>, repr: Repr)
    requires forall j :: 0 <= j < |es| ==> !es[j].1.Arr?
    ensures UniqueId([], Obj(es), repr) == Ok(ScalarSelector(es))
  {
    SelectableWithoutLists(es);
  }

  lemma {:induction false} SelectableWithoutLists(es: seq<(string, Val)>)
    requires forall j :: 0 <= j < |es| ==> !es[j].1.Arr?
    ensures LastSelectable(es, true) == LastSelectable(es, false)
    decreases |es|
  {
    if |es| > 0 {
      SelectableWithoutLists(es[..|es| - 1]);
    }
  }
}
