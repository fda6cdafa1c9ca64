/** The optional-value wrapper used for configuration settings that may be unset. */
module Wrappers {
  datatype Option<+T> = None | Some(value: T)
}

/** List filtering and counting, the shape of every comprehension and counting
    loop in the inventory consumers. */
module Collections {

  /** `[x for x in xs if p(x)]` */
  function Filter<T>(p: T -> bool, xs: seq<T>): (r: seq<T>)
    ensures |r| <= |xs|
  {
    if xs == [] then [] else (if p(xs[0]) then [xs[0]] else []) + Filter(p, xs[1..])
  }

  /** `Filter` keeps exactly the elements that satisfy the condition. */
  lemma {:induction false} FilterKeeps<T>(p: T -> bool, xs: seq<T>)
    ensures forall k :: 0 <= k < |Filter(p, xs)| ==> Filter(p, xs)[k] in xs && p(Filter(p, xs)[k])
    ensures forall k :: 0 <= k < |xs| && p(xs[k]) ==> xs[k] in Filter(p, xs)
  {
    if xs != [] {
      FilterKeeps(p, xs[1..]);
      var r := Filter(p, xs);
      var rest := Filter(p, xs[1..]);
      var head := if p(xs[0]) then [xs[0]] else [];
      assert r == head + rest;
      forall k | 0 <= k < |r|
        ensures r[k] in xs && p(r[k])
      {
        if k >= |head| {
          assert r[k] == rest[k - |head|];
          assert rest[k - |head|] in xs[1..];
        }
      }
      forall k | 0 <= k < |xs| && p(xs[k])
        ensures xs[k] in r
      {
        if k > 0 {
          assert xs[k] == xs[1..][k - 1];
        }
      }
    }
  }

  /** Filtering a list grown at its end: the loop-friendly view of `Filter`. */
  lemma {:induction false} FilterSnoc<T>(p: T -> bool, xs: seq<T>, x: T)
    ensures Filter(p, xs + [x]) == Filter(p, xs) + (if p(x) then [x] else [])
  {
    if xs != [] {
      assert (xs + [x])[1..] == xs[1..] + [x];
      FilterSnoc(p, xs[1..], x);
    }
  }

  /** A filter that keeps every element changes nothing. */
  lemma {:induction false} FilterKeepsAll<T>(p: T -> bool, xs: seq<T>)
    requires forall k :: 0 <= k < |xs| ==> p(xs[k])
    ensures Filter(p, xs) == xs
  {
    if xs != [] {
      FilterKeepsAll(p, xs[1..]);
    }
  }

  /** A filter on a predicate no element meets yields nothing. */
  lemma {:induction false} FilterKeepsNone<T>(p: T -> bool, xs: seq<T>)
    requires forall k :: 0 <= k < |xs| ==> !p(xs[k])
    ensures Filter(p, xs) == []
  {
    if xs != [] {
      FilterKeepsNone(p, xs[1..]);
    }
  }

  /** Filtering on a weaker predicate keeps at least as many elements. */
  lemma {:induction false} FilterMonotone<T>(p: T -> bool, q: T -> bool, xs: seq<T>)
    requires forall k :: 0 <= k < |xs| && p(xs[k]) ==> q(xs[k])
    ensures |Filter(p, xs)| <= |Filter(q, xs)|
  {
    if xs != [] {
      FilterMonotone(p, q, xs[1..]);
    }
  }

  /** Filtering first on a weaker condition and then on a stronger one is
      filtering on the stronger one alone. */
  lemma {:induction false} FilterNarrows<T>(p: T -> bool, q: T -> bool, xs: seq<T>)
    requires forall k :: 0 <= k < |xs| && p(xs[k]) ==> q(xs[k])
    ensures Filter(p, Filter(q, xs)) == Filter(p, xs)
  {
    if xs != [] {
      FilterNarrows(p, q, xs[1..]);
      var head := if q(xs[0]) then [xs[0]] else [];
      assert Filter(q, xs) == head + Filter(q, xs[1..]);
      FilterAppend(p, head, Filter(q, xs[1..]));
      if q(xs[0]) {
        assert head[1..] == [];
      }
    }
  }

  /** `Filter` keeps every copy of an element that meets the condition and no
      copy of one that does not. */
  lemma {:induction false} FilterMultiplicity<T>(p: T -> bool, xs: seq<T>, x: T)
    ensures multiset(Filter(p, xs))[x] == if p(x) then multiset(xs)[x] else 0
  {
    if xs != [] {
      FilterMultiplicity(p, xs[1..], x);
      assert xs == [xs[0]] + xs[1..];
      var head := if p(xs[0]) then [xs[0]] else [];
      assert Filter(p, xs) == head + Filter(p, xs[1..]);
    }
  }

  /** Filters on predicates that agree on every element give the same list. */
  lemma {:induction false} FilterAgree<T>(p: T -> bool, q: T -> bool, xs: seq<T>)
    requires forall k :: 0 <= k < |xs| ==> p(xs[k]) == q(xs[k])
    ensures Filter(p, xs) == Filter(q, xs)
  {
    if xs != [] {
      FilterAgree(p, q, xs[1..]);
    }
  }

  /** Filtering a concatenation filters each part. */
  lemma {:induction false} FilterAppend<T>(p: T -> bool, xs: seq<T>, ys: seq<T>)
    ensures Filter(p, xs + ys) == Filter(p, xs) + Filter(p, ys)
  {
    if xs != [] {
      assert (xs + ys)[0] == xs[0];
      assert (xs + ys)[1..] == xs[1..] + ys;
      FilterAppend(p, xs[1..], ys);
    } else {
      assert xs + ys == ys;
    }
  }

  /** `[f(x) for x in xs]` */
  function MapSeq<T, U>(f: T -> U, xs: seq<T>): (r: seq<U>)
    ensures |r| == |xs|
    ensures forall i :: 0 <= i < |xs| ==> r[i] == f(xs[i])
  {
    if xs == [] then [] else MapSeq(f, xs[..|xs| - 1]) + [f(xs[|xs| - 1])]
  }

  /** Concatenation is associative. */
  lemma AppendAssoc<T>(a: seq<T>, b: seq<T>, c: seq<T>)
    ensures (a + b) + c == a + (b + c)
  {
  }

  /** Each part of a four-part concatenation occupies its own block. */
  lemma Blocks<T>(a: seq<T>, b: seq<T>, c: seq<T>, d: seq<T>)
    ensures var all := a + b + c + d;
            && |all| == |a| + |b| + |c| + |d|
            && all[..|a|] == a
            && all[|a|..|a| + |b|] == b
            && all[|a| + |b|..|a| + |b| + |c|] == c
            && all[|a| + |b| + |c|..] == d
  {
    var all := a + b + c + d;
    assert all[..|a|] == a;
    assert all[|a|..|a| + |b|] == b;
    assert all[|a| + |b|..|a| + |b| + |c|] == c;
    assert all[|a| + |b| + |c|..] == d;
  }

  /** Six parts joined by a one-element separator: each part starts one past
      the end of the previous one, with the separator in between. */
  lemma Joined<T>(p1: seq<T>, p2: seq<T>, p3: seq<T>, p4: seq<T>, p5: seq<T>, p6: seq<T>, sep: T)
    ensures var t := p1 + [sep] + p2 + [sep] + p3 + [sep] + p4 + [sep] + p5 + [sep] + p6;
            var o2 := |p1| + 1;
            var o3 := o2 + |p2| + 1;
            var o4 := o3 + |p3| + 1;
            var o5 := o4 + |p4| + 1;
            var o6 := o5 + |p5| + 1;
            && |t| == o6 + |p6|
            && t[..|p1|] == p1 && t[o2..o2 + |p2|] == p2 && t[o3..o3 + |p3|] == p3
            && t[o4..o4 + |p4|] == p4 && t[o5..o5 + |p5|] == p5 && t[o6..] == p6
            && t[o2 - 1] == sep && t[o3 - 1] == sep && t[o4 - 1] == sep && t[o5 - 1] == sep && t[o6 - 1] == sep
  {
    var t := p1 + [sep] + p2 + [sep] + p3 + [sep] + p4 + [sep] + p5 + [sep] + p6;
    var o2 := |p1| + 1;
    var o3 := o2 + |p2| + 1;
    var o4 := o3 + |p3| + 1;
    var o5 := o4 + |p4| + 1;
    var o6 := o5 + |p5| + 1;
    assert t[..|p1|] == p1;
    assert t[o2..o2 + |p2|] == p2;
    assert t[o3..o3 + |p3|] == p3;
    assert t[o4..o4 + |p4|] == p4;
    assert t[o5..o5 + |p5|] == p5;
    assert t[o6..] == p6;
  }

  /** Counting the elements kept after one more element. */
  lemma FilterCountSnoc<T>(f: T -> bool, xs: seq<T>, x: T)
    ensures |Filter(f, xs + [x])| == |Filter(f, xs)| + (if f(x) then 1 else 0)
  {
    FilterSnoc(f, xs, x);
  }

  /** Mapping the whole of `xs` as a slice. */
  lemma MapSeqWhole<T, U>(f: T -> U, xs: seq<T>)
    ensures MapSeq(f, xs[..|xs|]) == MapSeq(f, xs)
  {
    assert xs[..|xs|] == xs;
  }

  /** Mapping a list grown at its end. */
  lemma MapSeqSnoc<T, U>(f: T -> U, xs: seq<T>, x: T)
    ensures MapSeq(f, xs + [x]) == MapSeq(f, xs) + [f(x)]
  {
    assert (xs + [x])[..|xs|] == xs;
  }

  /** Mapping one more element of `xs` after a fixed prefix `p`. */
  lemma MapSeqGrow<T, U>(p: seq<U>, f: T -> U, xs: seq<T>, i: int)
    requires 0 <= i < |xs|
    ensures p + MapSeq(f, xs[..i + 1]) == (p + MapSeq(f, xs[..i])) + [f(xs[i])]
  {
    assert xs[..i + 1] == xs[..i] + [xs[i]];
    MapSeqSnoc(f, xs[..i], xs[i]);
    AppendAssoc(p, MapSeq(f, xs[..i]), [f(xs[i])]);
  }

  /** `idx` lists, in increasing order, the positions in `ys` that make up `xs`. */
  ghost predicate Embeds<T>(idx: seq<int>, xs: seq<T>, ys: seq<T>) {
    && |idx| == |xs|
    && (forall k :: 0 <= k < |idx| ==> 0 <= idx[k] < |ys| && xs[k] == ys[idx[k]])
    && (forall k, l :: 0 <= k < l < |idx| ==> idx[k] < idx[l])
  }

  /** `xs` is `ys` with some elements left out and the rest in their order. */
  ghost predicate IsSubsequence<T>(xs: seq<T>, ys: seq<T>) {
    exists idx :: Embeds(idx, xs, ys)
  }

  function Shifted(idx: seq<int>): (r: seq<int>)
    ensures |r| == |idx| && forall k :: 0 <= k < |idx| ==> r[k] == idx[k] + 1
  {
    seq(|idx|, k requires 0 <= k < |idx| => idx[k] + 1)
  }

  /** Positions into `ys[1..]` move up by one in `ys`. */
  lemma EmbedsShift<T>(idx: seq<int>, xs: seq<T>, ys: seq<T>)
    requires ys != [] && Embeds(idx, xs, ys[1..])
    ensures Embeds(Shifted(idx), xs, ys)
  {
  }

  /** Keeping the head of `ys` as well puts position 0 in front. */
  lemma EmbedsCons<T>(idx: seq<int>, xs: seq<T>, ys: seq<T>)
    requires ys != [] && Embeds(idx, xs, ys[1..])
    ensures Embeds([0] + Shifted(idx), [ys[0]] + xs, ys)
  {
    EmbedsShift(idx, xs, ys);
    var full := [0] + Shifted(idx);
    forall k | 0 <= k < |full|
      ensures 0 <= full[k] < |ys| && ([ys[0]] + xs)[k] == ys[full[k]]
    {
      if k > 0 {
        assert full[k] == Shifted(idx)[k - 1];
      }
    }
  }

  /** A filter keeps the elements it selects in their original order. */
  lemma {:induction false} FilterIsSubsequence<T>(p: T -> bool, xs: seq<T>)
    ensures IsSubsequence(Filter(p, xs), xs)
  {
    if xs == [] {
      assert Embeds([], Filter(p, xs), xs);
    } else {
      FilterIsSubsequence(p, xs[1..]);
      var tail := Filter(p, xs[1..]);
      var idx :| Embeds(idx, tail, xs[1..]);
      if p(xs[0]) {
        assert Filter(p, xs) == [xs[0]] + tail;
        EmbedsCons(idx, tail, xs);
        assert Embeds([0] + Shifted(idx), Filter(p, xs), xs);
      } else {
        assert Filter(p, xs) == tail;
        EmbedsShift(idx, tail, xs);
        assert Embeds(Shifted(idx), Filter(p, xs), xs);
      }
    }
  }

  /** The sum of the values `m` gives to `keys`. */
  ghost function SumOver<K>(m: map<K, nat>, keys: set<K>): nat
    requires keys <= m.Keys
    decreases keys
  {
    if keys == {} then 0
    else
      var k :| k in keys;
      m[k] + SumOver(m, keys - {k})
  }

  /** The sum of the values of a counting map. */
  ghost function SumValues<K>(m: map<K, nat>): nat {
    SumOver(m, m.Keys)
  }

  /** Any key may be taken out first when summing. */
  lemma {:induction false} SumOverRemove<K>(m: map<K, nat>, keys: set<K>, k: K)
    requires keys <= m.Keys && k in keys
    ensures SumOver(m, keys) == m[k] + SumOver(m, keys - {k})
    decreases keys
  {
    var j :| j in keys && SumOver(m, keys) == m[j] + SumOver(m, keys - {j});
    if j != k {
      SumOverRemove(m, keys - {j}, k);
      SumOverRemove(m, keys - {k}, j);
      assert keys - {j} - {k} == keys - {k} - {j};
    }
  }

  /** The sum over `keys` depends only on the values at `keys`. */
  lemma {:induction false} SumOverAgree<K>(m: map<K, nat>, m': map<K, nat>, keys: set<K>)
    requires keys <= m.Keys && keys <= m'.Keys
    requires forall k :: k in keys ==> m[k] == m'[k]
    ensures SumOver(m, keys) == SumOver(m', keys)
    decreases keys
  {
    if keys != {} {
      var k :| k in keys && SumOver(m, keys) == m[k] + SumOver(m, keys - {k});
      SumOverRemove(m', keys, k);
      SumOverAgree(m, m', keys - {k});
    }
  }

  /** Replacing the value of one key changes the sum by the difference. */
  lemma SumValuesUpdate<K>(m: map<K, nat>, k: K, v: nat)
    ensures SumValues(m[k := v]) == SumValues(m) - (if k in m then m[k] else 0) + v
  {
    var m' := m[k := v];
    SumOverRemove(m', m'.Keys, k);
    SumOverAgree(m', m, m'.Keys - {k});
    if k in m {
      SumOverRemove(m, m.Keys, k);
      assert m'.Keys - {k} == m.Keys - {k};
    } else {
      assert m'.Keys - {k} == m.Keys;
    }
  }

  /** `m[k] = m.get(k, 0) + 1` adds one to the sum of the map. */
  lemma SumValuesBump<K>(m: map<K, nat>, k: K)
    ensures SumValues(m[k := (if k in m then m[k] else 0) + 1]) == SumValues(m) + 1
  {
    SumValuesUpdate(m, k, (if k in m then m[k] else 0) + 1);
  }
}
