/** Sums over a list that may repeat its elements, and over each once. */
module Repeats {

  /** The elements in order of their first occurrence. */
  function Firsts<T(==)>(s: seq<T>): seq<T> {
    if s == [] then []
    else
      var init, last := s[..|s| - 1], s[|s| - 1];
      Firsts(init) + if last in init then [] else [last]
  }

  function Sum<T>(s: seq<T>, weight: T -> nat): nat {
    if s == [] then 0 else Sum(s[..|s| - 1], weight) + weight(s[|s| - 1])
  }

  lemma {:induction false} SumSnoc<T>(s: seq<T>, x: T, weight: T -> nat)
    ensures Sum(s + [x], weight) == Sum(s, weight) + weight(x)
  {
    assert (s + [x])[..|s|] == s;
  }

  lemma {:induction false} SumConcat<T>(s: seq<T>, t: seq<T>, weight: T -> nat)
    ensures Sum(s + t, weight) == Sum(s, weight) + Sum(t, weight)
  {
    if t == [] {
      assert s + t == s;
    } else {
      var init, last := t[..|t| - 1], t[|t| - 1];
      assert s + t == (s + init) + [last];
      SumConcat(s, init, weight);
      SumSnoc(s + init, last, weight);
    }
  }

  /** What occurs more than once weighs nothing. */
  ghost predicate RepeatsWeightless<T>(s: seq<T>, weight: T -> nat) {
    forall i, j :: 0 <= i < j < |s| && s[i] == s[j] ==> weight(s[i]) == 0
  }

  lemma {:induction false} WeightlessSnoc<T>(s: seq<T>, x: T, weight: T -> nat)
    ensures RepeatsWeightless(s + [x], weight) <==> RepeatsWeightless(s, weight) && (x in s ==> weight(x) == 0)
  {
    var t := s + [x];
    if RepeatsWeightless(t, weight) {
      forall i, j | 0 <= i < j < |s| && s[i] == s[j]
        ensures weight(s[i]) == 0
      {
        assert t[i] == s[i] && t[j] == s[j];
      }
      if x in s {
        var i :| 0 <= i < |s| && s[i] == x;
        assert t[i] == x && t[|s|] == x;
      }
    }
  }

  /** Counting every element once gives less, or the same exactly if only
      weightless elements repeat. */
  lemma {:induction false} SumFirsts<T>(s: seq<T>, weight: T -> nat)
    ensures Sum(Firsts(s), weight) <= Sum(s, weight)
    ensures Sum(Firsts(s), weight) == Sum(s, weight) <==> RepeatsWeightless(s, weight)
  {
    if s != [] {
      var init, last := s[..|s| - 1], s[|s| - 1];
      assert s == init + [last];
      SumFirsts(init, weight);
      SumSnoc(Firsts(init), last, weight);
      WeightlessSnoc(init, last, weight);
      if last in init {
        assert Firsts(s) == Firsts(init);
      }
    }
  }
}
