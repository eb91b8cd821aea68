/**
  The list idioms the scrapers are built from: keeping the elements a
  selector matches, mapping a row builder over them, and a map in which one
  raising element aborts the whole list.
*/
module Lists {
  import opened Base

  /** The elements of `xs` that `keep` accepts, in order. */
  function Filter<T>(xs: seq<T>, keep: T -> bool): (r: seq<T>)
    ensures |r| <= |xs|
    ensures forall k | 0 <= k < |r| :: keep(r[k])
  {
    if xs == [] then []
    else
      var init := Filter(xs[..|xs| - 1], keep);
      if keep(xs[|xs| - 1]) then init + [xs[|xs| - 1]] else init
  }

  /** Filtering one more element. */
  lemma FilterSnoc<T>(xs: seq<T>, x: T, keep: T -> bool)
    ensures Filter(xs + [x], keep) == if keep(x) then Filter(xs, keep) + [x] else Filter(xs, keep)
  {
    assert (xs + [x])[..|xs|] == xs;
  }

  /** Every element `keep` accepts survives the filter, and nothing else does. */
  lemma {:induction false} FilterMembers<T>(xs: seq<T>, keep: T -> bool, x: T)
    ensures x in Filter(xs, keep) <==> x in xs && keep(x)
    decreases |xs|
  {
    if xs != [] {
      var init := xs[..|xs| - 1];
      FilterMembers(init, keep, x);
      assert xs == init + [xs[|xs| - 1]];
    }
  }

  /** `[f(x) for x in xs]`. */
  function Map<T, U>(xs: seq<T>, f: T -> U): (r: seq<U>)
    ensures |r| == |xs| && forall k | 0 <= k < |xs| :: r[k] == f(xs[k])
  {
    seq(|xs|, k requires 0 <= k < |xs| => f(xs[k]))
  }

  lemma MapSnoc<T, U>(xs: seq<T>, x: T, f: T -> U)
    ensures Map(xs + [x], f) == Map(xs, f) + [f(x)]
  {
  }

  /** Filtering one more element of a prefix. */
  lemma FilterPrefix<T>(xs: seq<T>, i: nat, keep: T -> bool)
    requires i < |xs|
    ensures Filter(xs[..i + 1], keep) == if keep(xs[i]) then Filter(xs[..i], keep) + [xs[i]] else Filter(xs[..i], keep)
  {
    assert xs[..i + 1] == xs[..i] + [xs[i]];
    FilterSnoc(xs[..i], xs[i], keep);
  }

  /** Mapping one more element of a prefix. */
  lemma MapPrefix<T, U>(xs: seq<T>, i: nat, f: T -> U)
    requires i < |xs|
    ensures Map(xs[..i + 1], f) == Map(xs[..i], f) + [f(xs[i])]
  {
    assert xs[..i + 1] == xs[..i] + [xs[i]];
    MapSnoc(xs[..i], xs[i], f);
  }

  /** A list comprehension whose element builder may raise (None): one raise aborts the whole list. */
  function MapAll<T, U>(xs: seq<T>, f: T -> Option<U>): Option<seq<U>> {
    if xs == [] then Some([])
    else
      var init := MapAll(xs[..|xs| - 1], f);
      var last := f(xs[|xs| - 1]);
      if init.None? || last.None? then None else Some(init.value + [last.value])
  }

  lemma MapAllSnoc<T, U>(xs: seq<T>, x: T, f: T -> Option<U>)
    ensures MapAll(xs + [x], f) == if MapAll(xs, f).None? || f(x).None? then None else Some(MapAll(xs, f).value + [f(x).value])
  {
    assert (xs + [x])[..|xs|] == xs;
  }

  /** The list is built exactly when no element raises, and then element `k` is built from `xs[k]`. */
  lemma {:induction false} MapAllPositional<T, U>(xs: seq<T>, f: T -> Option<U>)
    ensures MapAll(xs, f).Some? <==> forall k | 0 <= k < |xs| :: f(xs[k]).Some?
    ensures MapAll(xs, f).Some? ==>
      && |MapAll(xs, f).value| == |xs|
      && forall k | 0 <= k < |xs| :: MapAll(xs, f).value[k] == f(xs[k]).value
    decreases |xs|
  {
    if xs != [] {
      var init := xs[..|xs| - 1];
      MapAllPositional(init, f);
      if MapAll(init, f).None? {
        var k :| 0 <= k < |init| && f(init[k]).None?;
        assert xs[k] == init[k];
      }
    }
  }

  /** Once a prefix has raised, the whole list raises. */
  lemma {:induction false} MapAllRaised<T, U>(xs: seq<T>, ys: seq<T>, f: T -> Option<U>)
    requires MapAll(xs, f).None?
    ensures MapAll(xs + ys, f).None?
    decreases |ys|
  {
    if ys != [] {
      var init := ys[..|ys| - 1];
      MapAllRaised(xs, init, f);
      assert xs + ys == (xs + init) + [ys[|ys| - 1]];
      MapAllSnoc(xs + init, ys[|ys| - 1], f);
    } else {
      assert xs + ys == xs;
    }
  }

  /** Filtering a longer list extends the filtered prefix. */
  lemma {:induction false} FilterAppend<T>(xs: seq<T>, ys: seq<T>, keep: T -> bool)
    ensures Filter(xs + ys, keep) == Filter(xs, keep) + Filter(ys, keep)
    decreases |ys|
  {
    if ys == [] {
      assert xs + ys == xs;
    } else {
      var init := ys[..|ys| - 1];
      var last := ys[|ys| - 1];
      calc {
        Filter(xs + ys, keep);
      == { assert xs + ys == (xs + init) + [last]; }
        Filter((xs + init) + [last], keep);
      == { FilterSnoc(xs + init, last, keep); FilterAppend(xs, init, keep); }
        if keep(last) then (Filter(xs, keep) + Filter(init, keep)) + [last] else Filter(xs, keep) + Filter(init, keep);
      == { FilterSnoc(init, last, keep); assert ys == init + [last]; }
        Filter(xs, keep) + Filter(ys, keep);
      }
    }
  }

  // ---------------------------------------------------------------------------
  // First occurrence by key
  // ---------------------------------------------------------------------------

  /** The keys of the elements of `xs`. */
  function Keys<T>(xs: seq<T>, key: T -> string): set<string> {
    if xs == [] then {} else Keys(xs[..|xs| - 1], key) + {key(xs[|xs| - 1])}
  }

  /**
    A walk with a `seen` set: an element is kept when its key is non-empty and
    not the key of an element kept before it.
  */
  function Dedup<T>(xs: seq<T>, key: T -> string): (r: seq<T>)
    ensures |r| <= |xs|
  {
    if xs == [] then []
    else
      var init := Dedup(xs[..|xs| - 1], key);
      var x := xs[|xs| - 1];
      if key(x) != "" && key(x) !in Keys(init, key) then init + [x] else init
  }

  lemma DedupSnoc<T>(xs: seq<T>, x: T, key: T -> string)
    ensures Dedup(xs + [x], key) ==
      if key(x) != "" && key(x) !in Keys(Dedup(xs, key), key) then Dedup(xs, key) + [x] else Dedup(xs, key)
  {
    assert (xs + [x])[..|xs|] == xs;
  }

  lemma KeysSnoc<T>(xs: seq<T>, x: T, key: T -> string)
    ensures Keys(xs + [x], key) == Keys(xs, key) + {key(x)}
  {
    assert (xs + [x])[..|xs|] == xs;
  }

  /** A key is in `Keys` exactly when some element has it. */
  lemma {:induction false} KeysMembers<T>(xs: seq<T>, key: T -> string, s: string)
    ensures s in Keys(xs, key) <==> exists k | 0 <= k < |xs| :: key(xs[k]) == s
    decreases |xs|
  {
    if xs != [] {
      var init := xs[..|xs| - 1];
      KeysMembers(init, key, s);
      if s in Keys(init, key) {
        var k :| 0 <= k < |init| && key(init[k]) == s;
        assert xs[k] == init[k];
      }
      if exists k | 0 <= k < |xs| :: key(xs[k]) == s {
        var k :| 0 <= k < |xs| && key(xs[k]) == s;
        if k < |init| {
          assert init[k] == xs[k];
        }
      }
    }
  }

  /** The kept elements have non-empty, pairwise distinct keys. */
  lemma {:induction false} DedupDistinct<T>(xs: seq<T>, key: T -> string)
    ensures forall i | 0 <= i < |Dedup(xs, key)| :: key(Dedup(xs, key)[i]) != ""
    ensures forall i, j | 0 <= i < j < |Dedup(xs, key)| :: key(Dedup(xs, key)[i]) != key(Dedup(xs, key)[j])
    decreases |xs|
  {
    if xs != [] {
      var init := xs[..|xs| - 1];
      var x := xs[|xs| - 1];
      DedupDistinct(init, key);
      var d := Dedup(init, key);
      if key(x) != "" && key(x) !in Keys(d, key) {
        forall i | 0 <= i < |d|
          ensures key(d[i]) != key(x)
        {
          KeysMembers(d, key, key(d[i]));
        }
      }
    }
  }

  /** The kept keys are exactly the non-empty keys of the input: no non-empty key is lost. */
  lemma {:induction false} DedupKeys<T>(xs: seq<T>, key: T -> string)
    ensures Keys(Dedup(xs, key), key) == Keys(xs, key) - {""}
    decreases |xs|
  {
    if xs != [] {
      var init := xs[..|xs| - 1];
      var x := xs[|xs| - 1];
      DedupKeys(init, key);
      var d := Dedup(init, key);
      if key(x) != "" && key(x) !in Keys(d, key) {
        KeysSnoc(d, x, key);
      }
    }
  }

  /** The first element with a given non-empty key is the one kept. */
  lemma {:induction false} DedupFirst<T>(xs: seq<T>, key: T -> string, i: nat)
    requires i < |xs| && key(xs[i]) != ""
    requires forall j | 0 <= j < i :: key(xs[j]) != key(xs[i])
    ensures xs[i] in Dedup(xs, key)
    decreases |xs|
  {
    var init := xs[..|xs| - 1];
    if i < |init| {
      assert init[i] == xs[i];
      DedupFirst(init, key, i);
    } else {
      assert init == xs[..i];
      DedupKeys(init, key);
      KeysMembers(init, key, key(xs[i]));
    }
  }

  /** Every kept element comes from the input. */
  lemma {:induction false} DedupSubset<T>(xs: seq<T>, key: T -> string, x: T)
    requires x in Dedup(xs, key)
    ensures x in xs
    decreases |xs|
  {
    var init := xs[..|xs| - 1];
    if x in Dedup(init, key) {
      DedupSubset(init, key, x);
    }
  }

  // ---------------------------------------------------------------------------
  // Parse each item, skipping the ones that raise or give nothing
  // ---------------------------------------------------------------------------

  /**
    `for item in items: try: parsed = parse(item); if parsed is not None:
    out.append(parsed) except: skip`, with `raises` telling which items raise.
  */
  function Parsed<T, U>(xs: seq<T>, raises: T -> bool, parse: T -> Option<U>): (r: seq<U>)
    ensures |r| <= |xs|
  {
    if xs == [] then []
    else
      var init := Parsed(xs[..|xs| - 1], raises, parse);
      var x := xs[|xs| - 1];
      if raises(x) || parse(x).None? then init else init + [parse(x).value]
  }

  lemma ParsedSnoc<T, U>(xs: seq<T>, x: T, raises: T -> bool, parse: T -> Option<U>)
    ensures Parsed(xs + [x], raises, parse) ==
      if raises(x) || parse(x).None? then Parsed(xs, raises, parse) else Parsed(xs, raises, parse) + [parse(x).value]
  {
    assert (xs + [x])[..|xs|] == xs;
  }

  /** Parsing one more element of a prefix. */
  lemma ParsedPrefix<T, U>(xs: seq<T>, i: nat, raises: T -> bool, parse: T -> Option<U>)
    requires i < |xs|
    ensures Parsed(xs[..i + 1], raises, parse) ==
      if raises(xs[i]) || parse(xs[i]).None? then Parsed(xs[..i], raises, parse) else Parsed(xs[..i], raises, parse) + [parse(xs[i]).value]
  {
    assert xs[..i + 1] == xs[..i] + [xs[i]];
    ParsedSnoc(xs[..i], xs[i], raises, parse);
  }

  /** Parsing is item by item: the results of a concatenation are concatenated in order. */
  lemma {:induction false} ParsedAppend<T, U>(xs: seq<T>, ys: seq<T>, raises: T -> bool, parse: T -> Option<U>)
    ensures Parsed(xs + ys, raises, parse) == Parsed(xs, raises, parse) + Parsed(ys, raises, parse)
    decreases |ys|
  {
    if ys == [] {
      assert xs + ys == xs;
    } else {
      var init := ys[..|ys| - 1];
      var last := ys[|ys| - 1];
      var p, q := Parsed(xs, raises, parse), Parsed(init, raises, parse);
      var skip := raises(last) || parse(last).None?;
      calc {
        Parsed(xs + ys, raises, parse);
      == { assert xs + ys == (xs + init) + [last]; }
        Parsed((xs + init) + [last], raises, parse);
      == { ParsedSnoc(xs + init, last, raises, parse); ParsedAppend(xs, init, raises, parse); }
        if skip then p + q else (p + q) + [parse(last).value];
      == { ParsedSnoc(init, last, raises, parse); assert ys == init + [last]; }
        p + Parsed(ys, raises, parse);
      }
    }
  }

  /** An item that raises, or parses to nothing, leaves the others' results as they were. */
  lemma ParsedSkips<T, U>(xs: seq<T>, x: T, ys: seq<T>, raises: T -> bool, parse: T -> Option<U>)
    requires raises(x) || parse(x).None?
    ensures Parsed(xs + [x] + ys, raises, parse) == Parsed(xs + ys, raises, parse)
  {
    ParsedAppend(xs + [x], ys, raises, parse);
    ParsedSnoc(xs, x, raises, parse);
    ParsedAppend(xs, ys, raises, parse);
  }

  /** Every item that neither raises nor parses to nothing gives its result. */
  lemma ParsedKeeps<T, U>(xs: seq<T>, i: nat, raises: T -> bool, parse: T -> Option<U>)
    requires i < |xs| && !raises(xs[i]) && parse(xs[i]).Some?
    ensures parse(xs[i]).value in Parsed(xs, raises, parse)
  {
    assert xs == xs[..i] + [xs[i]] + xs[i + 1..];
    ParsedAppend(xs[..i] + [xs[i]], xs[i + 1..], raises, parse);
    ParsedSnoc(xs[..i], xs[i], raises, parse);
  }

  /** Every result comes from an item that does not raise. */
  lemma {:induction false} ParsedFrom<T, U>(xs: seq<T>, u: U, raises: T -> bool, parse: T -> Option<U>)
    requires u in Parsed(xs, raises, parse)
    ensures exists k | 0 <= k < |xs| :: !raises(xs[k]) && parse(xs[k]) == Some(u)
    decreases |xs|
  {
    var init := xs[..|xs| - 1];
    ParsedSnoc(init, xs[|xs| - 1], raises, parse);
    assert init + [xs[|xs| - 1]] == xs;
    if u in Parsed(init, raises, parse) {
      ParsedFrom(init, u, raises, parse);
      var k :| 0 <= k < |init| && !raises(init[k]) && parse(init[k]) == Some(u);
      assert xs[k] == init[k];
    }
  }

  /** A list whose every element raises or parses to None parses to nothing. */
  lemma {:induction false} ParsedNothing<T, U>(xs: seq<T>, raises: T -> bool, parse: T -> Option<U>)
    requires forall k | 0 <= k < |xs| :: raises(xs[k]) || parse(xs[k]).None?
    ensures Parsed(xs, raises, parse) == []
    decreases |xs|
  {
    if xs != [] {
      ParsedNothing(xs[..|xs| - 1], raises, parse);
    }
  }

  /** The item check of a loop whose items cannot raise. */
  predicate Never<T>(x: T) {
    false
  }

  // ---------------------------------------------------------------------------
  // Selector fallbacks
  // ---------------------------------------------------------------------------

  /** The first non-empty selection, or the empty one when every selection is empty. */
  function FirstNonEmpty<T>(choices: seq<seq<T>>): (r: seq<T>)
    ensures r == [] <==> forall k | 0 <= k < |choices| :: choices[k] == []
    ensures forall k | 0 <= k < |choices| && choices[k] != [] && (forall j | 0 <= j < k :: choices[j] == []) :: r == choices[k]
    decreases |choices|
  {
    if choices == [] then []
    else if choices[0] != [] then choices[0]
    else
      assert forall k | 1 <= k < |choices| :: choices[1..][k - 1] == choices[k];
      FirstNonEmpty(choices[1..])
  }

  /** `for sel in selectors: items = html.css(sel); if items: break`. */
  method SelectFirst<T>(choices: seq<seq<T>>) returns (items: seq<T>)
    ensures items == FirstNonEmpty(choices)
  {
    items := [];
    for i := 0 to |choices|
      invariant items == [] && forall j | 0 <= j < i :: choices[j] == []
    {
      items := choices[i];
      if items != [] {
        return;
      }
    }
  }
}
