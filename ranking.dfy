/** The list operations behind the engine's output pipeline:
    `filter(s => s.score > 0)`, the stable `sort` by descending score and
    `slice(0, topN)`. */
module Ranking {
  import opened Types
  import opened Sequences

  /** The entries of `s` whose score is exactly `v`, in their order in `s`. */
  function ByScore(s: seq<ScoredHaircut>, v: real): seq<ScoredHaircut>
  {
    if s == [] then [] else (if s[0].score == v then [s[0]] else []) + ByScore(s[1..], v)
  }

  lemma {:induction false} ByScoreAppend(a: seq<ScoredHaircut>, b: seq<ScoredHaircut>, v: real)
    ensures ByScore(a + b, v) == ByScore(a, v) + ByScore(b, v)
  {
    if a == [] {
      assert a + b == b;
    } else {
      var head := if a[0].score == v then [a[0]] else [];
      assert (a + b)[0] == a[0];
      assert (a + b)[1..] == a[1..] + b;
      ByScoreAppend(a[1..], b, v);
      calc {
        ByScore(a + b, v);
        head + ByScore(a[1..] + b, v);
        head + (ByScore(a[1..], v) + ByScore(b, v));
        (head + ByScore(a[1..], v)) + ByScore(b, v);
      }
    }
  }

  /** Keeping only the first `m` entries keeps, for every score, a prefix of
      the entries with that score. */
  lemma ByScoreOfPrefix(s: seq<ScoredHaircut>, m: nat, v: real)
    requires m <= |s|
    ensures ByScore(s[..m], v) <= ByScore(s, v)
  {
    assert s == s[..m] + s[m..];
    ByScoreAppend(s[..m], s[m..], v);
  }

  /** Scores never increase from one position to a later one. */
  predicate SortedDesc(s: seq<ScoredHaircut>)
  {
    forall i, j :: 0 <= i < j < |s| ==> s[i].score >= s[j].score
  }

  /** `filter(s => s.score > 0)`. */
  function Positive(s: seq<ScoredHaircut>): (r: seq<ScoredHaircut>)
    ensures forall k :: 0 <= k < |r| ==> r[k].score > 0.0
  {
    if s == [] then []
    else (if s[0].score > 0.0 then [s[0]] else []) + Positive(s[1..])
  }

  /** The filter keeps exactly the positive entries, as many times as they
      occur, and for every positive score keeps the tying entries in order. */
  lemma {:induction false} PositiveKeeps(s: seq<ScoredHaircut>)
    ensures forall x :: multiset(Positive(s))[x] == if x.score > 0.0 then multiset(s)[x] else 0
    ensures forall v :: v > 0.0 ==> ByScore(Positive(s), v) == ByScore(s, v)
  {
    if s != [] {
      var rest := Positive(s[1..]);
      PositiveKeeps(s[1..]);
      assert s == [s[0]] + s[1..];
      if s[0].score > 0.0 {
        assert Positive(s) == [s[0]] + rest;
        assert ([s[0]] + rest)[1..] == rest;
      } else {
        assert Positive(s) == rest;
      }
    }
  }

  /** Inserts `x` in front of the first entry that does not score strictly
      higher, so `x` goes before the entries that tie with it. */
  function Insert(x: ScoredHaircut, t: seq<ScoredHaircut>): (r: seq<ScoredHaircut>)
    ensures |r| == |t| + 1
  {
    if t == [] || t[0].score <= x.score then [x] + t
    else [t[0]] + Insert(x, t[1..])
  }

  lemma {:induction false} InsertPermutes(x: ScoredHaircut, t: seq<ScoredHaircut>)
    ensures multiset(Insert(x, t)) == multiset(t) + multiset{x}
  {
    if !(t == [] || t[0].score <= x.score) {
      InsertPermutes(x, t[1..]);
      assert t == [t[0]] + t[1..];
    }
  }

  lemma ByScoreCons(y: ScoredHaircut, s: seq<ScoredHaircut>, v: real)
    ensures ByScore([y] + s, v) == (if y.score == v then [y] else []) + ByScore(s, v)
  {
    assert ([y] + s)[1..] == s;
  }

  /** Insertion puts `x` ahead of every entry of `t` with the same score. */
  lemma {:induction false} InsertByScore(x: ScoredHaircut, t: seq<ScoredHaircut>, v: real)
    ensures ByScore(Insert(x, t), v) == (if x.score == v then [x] else []) + ByScore(t, v)
  {
    if t == [] || t[0].score <= x.score {
      ByScoreCons(x, t, v);
    } else {
      var rest := Insert(x, t[1..]);
      InsertByScore(x, t[1..], v);
      ByScoreCons(t[0], rest, v);
      ByScoreCons(t[0], t[1..], v);
      assert t == [t[0]] + t[1..];
      if x.score == v {
        assert t[0].score != v;
        assert ByScore(Insert(x, t), v) == [x] + ByScore(t[1..], v);
      } else {
        assert ByScore(Insert(x, t), v) == (if t[0].score == v then [t[0]] else []) + ByScore(t[1..], v);
      }
    }
  }

  lemma {:induction false} InsertSorted(x: ScoredHaircut, t: seq<ScoredHaircut>)
    requires SortedDesc(t)
    ensures SortedDesc(Insert(x, t))
  {
    if !(t == [] || t[0].score <= x.score) {
      var rest := Insert(x, t[1..]);
      InsertSorted(x, t[1..]);
      assert t[0].score >= rest[0].score by {
        if |t| > 1 {
          assert t[1..][0] == t[1];
        }
      }
      var r := [t[0]] + rest;
      forall i, j | 0 <= i < j < |r| ensures r[i].score >= r[j].score {
        if i == 0 {
          assert r[j] == rest[j - 1];
        } else {
          assert r[i] == rest[i - 1] && r[j] == rest[j - 1];
        }
      }
    }
  }

  /** The stable sort by descending score (insertion from the back). */
  function SortDesc(s: seq<ScoredHaircut>): (r: seq<ScoredHaircut>)
    ensures |r| == |s|
  {
    if s == [] then [] else Insert(s[0], SortDesc(s[1..]))
  }

  /** The sort is a permutation, its result is sorted, and for every score
      the tying entries keep the order they had in `s`. */
  lemma {:induction false} SortDescCorrect(s: seq<ScoredHaircut>)
    ensures multiset(SortDesc(s)) == multiset(s)
    ensures SortedDesc(SortDesc(s))
    ensures forall v :: ByScore(SortDesc(s), v) == ByScore(s, v)
  {
    if s != [] {
      var rest := SortDesc(s[1..]);
      SortDescCorrect(s[1..]);
      InsertPermutes(s[0], rest);
      InsertSorted(s[0], rest);
      assert s == [s[0]] + s[1..];
      forall v ensures ByScore(SortDesc(s), v) == ByScore(s, v) {
        InsertByScore(s[0], rest, v);
      }
    }
  }

  function Min(a: int, b: int): int
  {
    if a <= b then a else b
  }

  function Max(a: int, b: int): int
  {
    if a >= b then a else b
  }

  /** `s.slice(0, n)`: a prefix of `s`; a negative `n` counts from the end. */
  function Slice(s: seq<ScoredHaircut>, n: int): (r: seq<ScoredHaircut>)
    ensures |r| == if n >= 0 then Min(n, |s|) else Max(|s| + n, 0)
    ensures r == s[..|r|]
  {
    var end := if n >= 0 then Min(n, |s|) else Max(|s| + n, 0);
    s[..end]
  }

  // ---------------------------------------------------------------------
  // filter, then sort, then slice
  // ---------------------------------------------------------------------

  lemma PrefixMultiset(s: seq<ScoredHaircut>, m: nat)
    requires m <= |s|
    ensures multiset(s[..m]) + multiset(s[m..]) == multiset(s)
  {
    assert s == s[..m] + s[m..];
  }

  /** After filtering, sorting and slicing, every entry is positive and the
      list is sorted. */
  lemma TopPositiveAndSorted(s: seq<ScoredHaircut>, n: int)
    ensures forall k :: 0 <= k < |Slice(SortDesc(Positive(s)), n)| ==> Slice(SortDesc(Positive(s)), n)[k].score > 0.0
    ensures SortedDesc(Slice(SortDesc(Positive(s)), n))
  {
    var p := Positive(s);
    var ranked := SortDesc(p);
    SortDescCorrect(p);
    var r := Slice(ranked, n);
    forall k | 0 <= k < |r| ensures r[k].score > 0.0 {
      assert r[k] == ranked[k];
      assert ranked[k] in multiset(ranked);
      assert r[k] in multiset(p);
    }
  }

  /** No entry is selected more often than it occurs. */
  lemma TopWithin(s: seq<ScoredHaircut>, n: int)
    ensures multiset(Slice(SortDesc(Positive(s)), n)) <= multiset(s)
  {
    var ranked := SortDesc(Positive(s));
    assert multiset(ranked) <= multiset(s) by {
      SortDescCorrect(Positive(s));
      PositiveKeeps(s);
    }
    PrefixMultiset(ranked, |Slice(ranked, n)|);
  }

  /** The selected entries and the positive entries left out make up all
      positive entries, and no entry left out scores higher than a selected one. */
  lemma TopAreBest(s: seq<ScoredHaircut>, n: int)
    ensures var ranked := SortDesc(Positive(s));
            var r := Slice(ranked, n);
            && multiset(r) + multiset(ranked[|r|..]) == multiset(Positive(s))
            && forall i, j :: 0 <= i < |r| && 0 <= j < |ranked| - |r| ==> r[i].score >= ranked[|r|..][j].score
  {
    var ranked := SortDesc(Positive(s));
    var r := Slice(ranked, n);
    SortDescCorrect(Positive(s));
    PrefixMultiset(ranked, |r|);
    SortedSplit(ranked, |r|);
  }

  /** In a sorted list, every entry before position `m` scores at least as
      high as every entry from `m` on. */
  lemma SortedSplit(s: seq<ScoredHaircut>, m: nat)
    requires SortedDesc(s) && m <= |s|
    ensures forall i, j :: 0 <= i < m && 0 <= j < |s| - m ==> s[..m][i].score >= s[m..][j].score
  {
    forall i, j | 0 <= i < m && 0 <= j < |s| - m
      ensures s[..m][i].score >= s[m..][j].score
    {
      assert s[..m][i] == s[i] && s[m..][j] == s[m + j];
    }
  }

  /** For a positive score, the selected entries with that score are the
      first entries of `s` with that score, in their order in `s`. */
  lemma TopStable(s: seq<ScoredHaircut>, n: int, v: real)
    requires v > 0.0
    ensures ByScore(Slice(SortDesc(Positive(s)), n), v) <= ByScore(s, v)
  {
    var ranked := SortDesc(Positive(s));
    SortDescCorrect(Positive(s));
    PositiveKeeps(s);
    ByScoreOfPrefix(ranked, |Slice(ranked, n)|, v);
  }

  /** Entries of `s` that are all for different haircuts stay so after
      filtering, sorting and slicing. */
  lemma TopDistinctHaircuts(s: seq<ScoredHaircut>, n: int)
    requires forall i, j :: 0 <= i < j < |s| ==> s[i].haircut != s[j].haircut
    ensures var r := Slice(SortDesc(Positive(s)), n);
            forall i, j :: 0 <= i < j < |r| ==> r[i].haircut != r[j].haircut
  {
    var r := Slice(SortDesc(Positive(s)), n);
    TopWithin(s, n);
    DistinctIffCounts(s);
    assert forall x :: multiset(r)[x] <= multiset(s)[x];
    DistinctIffCounts(r);
    forall i, j | 0 <= i < j < |r| ensures r[i].haircut != r[j].haircut {
      assert r[i] in multiset(s) && r[j] in multiset(s);
      var ki :| 0 <= ki < |s| && s[ki] == r[i];
      var kj :| 0 <= kj < |s| && s[kj] == r[j];
      assert r[i] != r[j];
      assert ki != kj;
    }
  }
}
