/** Facts about repetition in sequences, shared by the recommendation
    pipeline and the vibe selection. */
module Sequences {

  /** No element occurs twice. */
  predicate Distinct<T(==)>(s: seq<T>)
  {
    forall i, j :: 0 <= i < j < |s| ==> s[i] != s[j]
  }

  /** A sequence is free of repeats exactly when each value occurs at most once. */
  lemma {:induction false} DistinctIffCounts<T>(s: seq<T>)
    ensures Distinct(s) <==> forall x :: multiset(s)[x] <= 1
  {
    if s != [] {
      var t := s[1..];
      DistinctIffCounts(t);
      assert s == [s[0]] + t;
      if Distinct(s) {
        assert forall j :: 0 <= j < |t| ==> t[j] == s[j + 1];
        assert Distinct(t) by {
          forall i, j | 0 <= i < j < |t| ensures t[i] != t[j] {
            assert t[i] == s[i + 1] && t[j] == s[j + 1];
          }
        }
      } else {
        var i, j :| 0 <= i < j < |s| && s[i] == s[j];
        assert multiset(s) == multiset{s[0]} + multiset(t);
        if i == 0 {
          assert t[j - 1] == s[0];
          assert multiset(s)[s[0]] >= 2;
        } else {
          assert t[i - 1] == s[i] && t[j - 1] == s[j];
          assert !Distinct(t);
          var y :| multiset(t)[y] > 1;
          assert multiset(s)[y] > 1;
        }
      }
    }
  }
}
