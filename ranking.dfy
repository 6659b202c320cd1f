/** Selection of the final documents: `sorted(zip(scores, docs), key=score,
    reverse=True)` followed by the slice `[:NR_FINAL_DOCS]`. Python's `sorted`
    is stable, also with `reverse=True`, so candidates with equal scores keep
    their input order. The model is a stable insertion sort; the lemma
    StableSortUnique shows that every stable descending sort gives the same
    sequence, so the choice of algorithm does not matter. */
module Ranking {

  /** `NR_FINAL_DOCS`: how many documents are kept after reranking. */
  const NrFinalDocs: nat := 5

  /** Non-increasing in the key. */
  predicate SortedDesc<T>(s: seq<(real, T)>)
  {
    forall i, j :: 0 <= i < j < |s| ==> s[i].0 >= s[j].0
  }

  /** Insert `x` before the first element whose key is not larger than its own. */
  function Insert<T>(x: (real, T), s: seq<(real, T)>): (r: seq<(real, T)>)
    ensures |r| == |s| + 1
    ensures r[0] == x || (|s| > 0 && r[0] == s[0])
    ensures multiset(r) == multiset(s) + multiset{x}
    ensures SortedDesc(s) ==> SortedDesc(r)
  {
    if |s| == 0 || x.0 >= s[0].0 then
      ConsSorted(x, s);
      [x] + s
    else
      var rest := Insert(x, s[1..]);
      assert s == [s[0]] + s[1..];
      ConsSorted(s[0], rest);
      [s[0]] + rest
  }

  /** A key no smaller than every key of a sorted sequence may go in front.
      When `s` is sorted, whichever of `h` and the old head is kept first
      bounds the rest. */
  lemma ConsSorted<T>(h: (real, T), t: seq<(real, T)>)
    ensures SortedDesc(t) && (|t| == 0 || h.0 >= t[0].0) ==> SortedDesc([h] + t)
  {
    var r := [h] + t;
    if SortedDesc(t) && (|t| == 0 || h.0 >= t[0].0) {
      forall i, j | 0 <= i < j < |r| ensures r[i].0 >= r[j].0 {
        if i == 0 { assert r[j] == t[j - 1]; assert t[0].0 >= t[j - 1].0 || j == 1; }
        else { assert r[i] == t[i - 1] && r[j] == t[j - 1]; }
      }
    }
  }

  /** The stable descending sort by key. */
  function SortDesc<T>(s: seq<(real, T)>): (r: seq<(real, T)>)
    ensures |r| == |s|
    ensures multiset(r) == multiset(s)
    ensures SortedDesc(r)
  {
    if |s| == 0 then []
    else
      assert s == [s[0]] + s[1..];
      Insert(s[0], SortDesc(s[1..]))
  }

  /** The elements of `s` whose key is `v`, in the order of `s`. */
  function WithKey<T>(s: seq<(real, T)>, v: real): seq<(real, T)>
  {
    if |s| == 0 then [] else (if s[0].0 == v then [s[0]] else []) + WithKey(s[1..], v)
  }

  lemma WithKeyCons<T>(x: (real, T), s: seq<(real, T)>, v: real)
    ensures WithKey([x] + s, v) == (if x.0 == v then [x] else []) + WithKey(s, v)
  {
    assert ([x] + s)[1..] == s;
  }

  /** The elements `WithKey` keeps are exactly those of `s` with key `v`. */
  lemma {:induction false} WithKeyMembers<T>(s: seq<(real, T)>, v: real, y: (real, T))
    ensures y in WithKey(s, v) <==> y in s && y.0 == v
  {
    if |s| > 0 {
      WithKeyMembers(s[1..], v, y);
      assert s == [s[0]] + s[1..];
    }
  }

  lemma {:induction false} InsertKeepsTies<T>(x: (real, T), s: seq<(real, T)>, v: real)
    requires SortedDesc(s)
    ensures WithKey(Insert(x, s), v) == WithKey([x] + s, v)
  {
    if |s| > 0 && x.0 < s[0].0 {
      var s0, tail := s[0], s[1..];
      var fx := if x.0 == v then [x] else [];
      var f0 := if s0.0 == v then [s0] else [];
      assert fx == [] || f0 == [];
      assert Insert(x, s) == [s0] + Insert(x, tail);
      calc {
        WithKey(Insert(x, s), v);
        { WithKeyCons(s0, Insert(x, tail), v); }
        f0 + WithKey(Insert(x, tail), v);
        { InsertKeepsTies(x, tail, v); }
        f0 + WithKey([x] + tail, v);
        { WithKeyCons(x, tail, v); }
        f0 + (fx + WithKey(tail, v));
        fx + (f0 + WithKey(tail, v));
        { WithKeyCons(s0, tail, v); assert s == [s0] + tail; }
        fx + WithKey(s, v);
        { WithKeyCons(x, s, v); }
        WithKey([x] + s, v);
      }
    }
  }

  /** Stability: among equal scores the sorted order is the input order. */
  lemma {:induction false} SortKeepsTies<T>(s: seq<(real, T)>, v: real)
    ensures WithKey(SortDesc(s), v) == WithKey(s, v)
  {
    if |s| > 0 {
      var rest := SortDesc(s[1..]);
      SortKeepsTies(s[1..], v);
      InsertKeepsTies(s[0], rest, v);
      WithKeyCons(s[0], rest, v);
      assert s == [s[0]] + s[1..];
      WithKeyCons(s[0], s[1..], v);
    }
  }

  /** Two sorted sequences with the same runs start with the same element
      and their tails again have the same runs. */
  lemma SortedHeadsAgree<T>(a: seq<(real, T)>, b: seq<(real, T)>)
    requires SortedDesc(a) && SortedDesc(b) && |a| > 0 && |b| > 0
    requires forall v :: WithKey(a, v) == WithKey(b, v)
    ensures a[0] == b[0]
    ensures forall v :: WithKey(a[1..], v) == WithKey(b[1..], v)
  {
    var k := a[0].0;
    WithKeyMembers(a, k, a[0]);
    WithKeyMembers(b, k, a[0]);
    WithKeyMembers(b, b[0].0, b[0]);
    WithKeyMembers(a, b[0].0, b[0]);
    assert b[0].0 == k;
    assert a == [a[0]] + a[1..] && b == [b[0]] + b[1..];
    WithKeyCons(a[0], a[1..], k);
    WithKeyCons(b[0], b[1..], k);
    var wa, wb := WithKey(a[1..], k), WithKey(b[1..], k);
    assert WithKey(a, k) == [a[0]] + wa && WithKey(b, k) == [b[0]] + wb;
    assert ([a[0]] + wa)[0] == a[0] && ([b[0]] + wb)[0] == b[0];
    assert wa == ([a[0]] + wa)[1..] == ([b[0]] + wb)[1..] == wb;
    forall v ensures WithKey(a[1..], v) == WithKey(b[1..], v) {
      WithKeyCons(a[0], a[1..], v);
      WithKeyCons(b[0], b[1..], v);
      if v != k {
        assert WithKey(a, v) == WithKey(a[1..], v);
        assert WithKey(b, v) == WithKey(b[1..], v);
      }
    }
  }

  /** A sorted sequence is determined by its runs of equal keys. */
  lemma {:induction false} SortedStableUnique<T>(a: seq<(real, T)>, b: seq<(real, T)>)
    requires SortedDesc(a) && SortedDesc(b)
    requires forall v :: WithKey(a, v) == WithKey(b, v)
    ensures a == b
    decreases |a| + |b|
  {
    // a non-empty side has a non-empty run, so both sides are empty or neither is
    if |a| > 0 { WithKeyMembers(a, a[0].0, a[0]); }
    if |b| > 0 { WithKeyMembers(b, b[0].0, b[0]); }
    if |a| > 0 && |b| > 0 {
      SortedHeadsAgree(a, b);
      SortedStableUnique(a[1..], b[1..]);
      assert a == [a[0]] + a[1..] && b == [b[0]] + b[1..];
    }
  }

  /** Any stable descending rearrangement of `s` is `SortDesc(s)`. */
  lemma StableSortUnique<T>(s: seq<(real, T)>, t: seq<(real, T)>)
    requires SortedDesc(t)
    requires forall v :: WithKey(t, v) == WithKey(s, v)
    ensures t == SortDesc(s)
  {
    forall v ensures WithKey(t, v) == WithKey(SortDesc(s), v) {
      SortKeepsTies(s, v);
    }
    SortedStableUnique(t, SortDesc(s));
  }

  // ---------------------------------------------------------------------
  // zip, the documents of the sorted pairs, and the slice
  // ---------------------------------------------------------------------

  /** `zip(keys, items)` for two lists of the same length. */
  function Zip<T>(keys: seq<real>, items: seq<T>): (z: seq<(real, T)>)
    requires |keys| == |items|
    ensures |z| == |keys|
    ensures forall i :: 0 <= i < |z| ==> z[i] == (keys[i], items[i])
  {
    seq(|keys|, i requires 0 <= i < |keys| => (keys[i], items[i]))
  }

  /** `[doc for _, doc in pairs]`. */
  function Items<T>(s: seq<(real, T)>): (r: seq<T>)
    ensures |r| == |s|
    ensures forall i :: 0 <= i < |s| ==> r[i] == s[i].1
  {
    seq(|s|, i requires 0 <= i < |s| => s[i].1)
  }

  lemma ItemsCons<T>(x: (real, T), s: seq<(real, T)>)
    ensures Items([x] + s) == [x.1] + Items(s)
  {
  }

  lemma {:induction false} InsertItems<T>(x: (real, T), s: seq<(real, T)>)
    ensures multiset(Items(Insert(x, s))) == multiset(Items(s)) + multiset{x.1}
  {
    if |s| == 0 || x.0 >= s[0].0 {
      ItemsCons(x, s);
    } else {
      InsertItems(x, s[1..]);
      ItemsCons(s[0], Insert(x, s[1..]));
      assert s == [s[0]] + s[1..];
      ItemsCons(s[0], s[1..]);
    }
  }

  /** Sorting moves the items around and loses or adds none. */
  lemma {:induction false} SortItemsPermutation<T>(s: seq<(real, T)>)
    ensures multiset(Items(SortDesc(s))) == multiset(Items(s))
  {
    if |s| > 0 {
      SortItemsPermutation(s[1..]);
      InsertItems(s[0], SortDesc(s[1..]));
      assert s == [s[0]] + s[1..];
      ItemsCons(s[0], s[1..]);
    }
  }

  /** `s[:k]`. */
  function TopK<T>(s: seq<T>, k: nat): (r: seq<T>)
    ensures |r| == if |s| < k then |s| else k
    ensures r == s[..|r|]
  {
    if |s| <= k then s else s[..k]
  }

  /** The candidates ordered by descending raw score, ties in input order. */
  function RankByScore<T>(scores: seq<real>, items: seq<T>): seq<T>
    requires |scores| == |items|
  {
    Items(SortDesc(Zip(scores, items)))
  }

  /** `sorted_docs[:NR_FINAL_DOCS]`. */
  function SelectTop<T>(scores: seq<real>, items: seq<T>): seq<T>
    requires |scores| == |items|
  {
    TopK(RankByScore(scores, items), NrFinalDocs)
  }

  /** What the reranking step promises about its ordering and its selection:
      the ranked list is a permutation of the candidates whose scores do not
      increase, each candidate keeping its own score; the output is its first
      `min(5, n)` entries, and no candidate left out scores higher than one
      kept. */
  lemma SelectTopSpec<T>(scores: seq<real>, items: seq<T>)
    requires |scores| == |items|
    ensures var sorted := SortDesc(Zip(scores, items));
      && multiset(sorted) == multiset(Zip(scores, items))
      && multiset(RankByScore(scores, items)) == multiset(items)
      && SortedDesc(sorted)
      && |SelectTop(scores, items)| == (if |items| < NrFinalDocs then |items| else NrFinalDocs)
      && SelectTop(scores, items) == RankByScore(scores, items)[..|SelectTop(scores, items)|]
      && (forall i, j :: 0 <= i < |SelectTop(scores, items)| <= j < |items| ==> sorted[i].0 >= sorted[j].0)
  {
    var z := Zip(scores, items);
    SortItemsPermutation(z);
    assert Items(z) == items;
  }

  /** The selection contains only candidates, each at most as often as it
      occurs among them. */
  lemma SelectTopSubset<T>(scores: seq<real>, items: seq<T>)
    requires |scores| == |items|
    ensures multiset(SelectTop(scores, items)) <= multiset(items)
  {
    SelectTopSpec(scores, items);
    var ranked := RankByScore(scores, items);
    var k := |SelectTop(scores, items)|;
    assert ranked == ranked[..k] + ranked[k..];
    assert multiset(ranked) == multiset(ranked[..k]) + multiset(ranked[k..]);
  }

  // ---------------------------------------------------------------------
  // The ranking only looks at the scores
  // ---------------------------------------------------------------------

  function MapSeq<T, U>(f: T -> U, s: seq<T>): (r: seq<U>)
    ensures |r| == |s|
    ensures forall i :: 0 <= i < |s| ==> r[i] == f(s[i])
  {
    seq(|s|, i requires 0 <= i < |s| => f(s[i]))
  }

  function MapItems<T, U>(f: T -> U, s: seq<(real, T)>): (r: seq<(real, U)>)
    ensures |r| == |s|
    ensures forall i :: 0 <= i < |s| ==> r[i] == (s[i].0, f(s[i].1))
  {
    seq(|s|, i requires 0 <= i < |s| => (s[i].0, f(s[i].1)))
  }

  lemma MapItemsCons<T, U>(f: T -> U, x: (real, T), s: seq<(real, T)>)
    ensures MapItems(f, [x] + s) == [(x.0, f(x.1))] + MapItems(f, s)
  {
    assert forall i :: 1 <= i <= |s| ==> ([x] + s)[i] == s[i - 1];
  }

  lemma {:induction false} InsertMapItems<T, U>(f: T -> U, x: (real, T), s: seq<(real, T)>)
    ensures Insert((x.0, f(x.1)), MapItems(f, s)) == MapItems(f, Insert(x, s))
  {
    var y := (x.0, f(x.1));
    if |s| == 0 || x.0 >= s[0].0 {
      MapItemsCons(f, x, s);
    } else {
      var rest := Insert(x, s[1..]);
      InsertMapItems(f, x, s[1..]);
      assert s == [s[0]] + s[1..];
      MapItemsCons(f, s[0], s[1..]);
      MapItemsCons(f, s[0], rest);
      var fs := MapItems(f, s);
      assert fs[1..] == MapItems(f, s[1..]);
      assert Insert(y, fs) == [fs[0]] + Insert(y, fs[1..]);
    }
  }

  /** Replacing each item by a function of it commutes with the sort. */
  lemma {:induction false} SortMapItems<T, U>(f: T -> U, s: seq<(real, T)>)
    ensures SortDesc(MapItems(f, s)) == MapItems(f, SortDesc(s))
  {
    if |s| > 0 {
      var fs := MapItems(f, s);
      SortMapItems(f, s[1..]);
      assert fs[1..] == MapItems(f, s[1..]);
      InsertMapItems(f, s[0], SortDesc(s[1..]));
    }
  }

  /** So the ranked texts of the documents are the ranking of their texts. */
  lemma SelectTopMap<T, U>(f: T -> U, scores: seq<real>, items: seq<T>)
    requires |scores| == |items|
    ensures SelectTop(scores, MapSeq(f, items)) == MapSeq(f, SelectTop(scores, items))
  {
    var z := Zip(scores, items);
    assert Zip(scores, MapSeq(f, items)) == MapItems(f, z);
    SortMapItems(f, z);
    var sorted := SortDesc(z);
    assert Items(MapItems(f, sorted)) == MapSeq(f, Items(sorted));
  }
}
