/** Greedy coin selection over the wallet's UTXOs. */
module CoinSelection {
  import opened Prelude
  import opened Bitcoin
  import opened Sorting

  function Descending(u: TrackedUtxo): int { 0 - u.utxo.value }

  /** The stable, value-descending copy both selections work on. */
  function ByValue(us: seq<TrackedUtxo>): (r: seq<TrackedUtxo>)
    ensures multiset(r) == multiset(us) && |r| == |us|
  {
    SortByKey(us, Descending)
  }

  /** `sel` can be taken from `us`: it uses no UTXO more often than `us` holds it. */
  ghost predicate Selection(sel: seq<TrackedUtxo>, us: seq<TrackedUtxo>) {
    multiset(sel) <= multiset(us)
  }

  /** The shortest prefix worth at least `target`. */
  function ShortestPrefix(s: seq<TrackedUtxo>, target: int): Option<seq<TrackedUtxo>> {
    if target <= 0 then Some([])
    else if s == [] then None
    else
      match ShortestPrefix(s[1..], target - s[0].utxo.value)
      case None => None
      case Some(rest) => Some([s[0]] + rest)
  }

  function Select(us: seq<TrackedUtxo>, target: nat): Option<seq<TrackedUtxo>> {
    ShortestPrefix(ByValue(us), target)
  }

  lemma {:induction false} ShortestPrefixIs(s: seq<TrackedUtxo>, target: int, k: nat)
    requires k <= |s|
    requires Total(s[..k]) >= target
    requires forall j :: 0 <= j < k ==> Total(s[..j]) < target
    ensures ShortestPrefix(s, target) == Some(s[..k])
  {
    if k == 0 {
      assert s[..0] == [];
    } else {
      assert s[..0] == [];
      var t := s[1..];
      assert s[..k][1..] == t[..k - 1];
      forall j | 0 <= j < k - 1
        ensures Total(t[..j]) < target - s[0].utxo.value
      {
        assert s[..j + 1][1..] == t[..j];
      }
      ShortestPrefixIs(t, target - s[0].utxo.value, k - 1);
      assert [s[0]] + t[..k - 1] == s[..k];
    }
  }

  lemma {:induction false} ShortestPrefixNone(s: seq<TrackedUtxo>, target: int)
    requires target > 0 && Total(s) < target
    ensures ShortestPrefix(s, target) == None
  {
    if s != [] {
      ShortestPrefixNone(s[1..], target - s[0].utxo.value);
    }
  }

  lemma {:induction false} TotalPermutation(a: seq<TrackedUtxo>, b: seq<TrackedUtxo>)
    requires multiset(a) == multiset(b)
    ensures Total(a) == Total(b)
  {
    if a == [] {
      assert |b| == |multiset(b)|;
    } else {
      var b' := RemoveOne(b, a[0]);
      assert a == [a[0]] + a[1..];
      assert multiset(a[1..]) == multiset(b');
      TotalPermutation(a[1..], b');
    }
  }

  /** Takes one occurrence of `x` out of `s`. */
  lemma {:induction false} RemoveOne(s: seq<TrackedUtxo>, x: TrackedUtxo) returns (r: seq<TrackedUtxo>)
    requires x in multiset(s)
    ensures multiset(r) == multiset(s) - multiset{x}
    ensures Total(s) == x.utxo.value + Total(r)
    ensures |s| == |r| + 1
  {
    var i :| 0 <= i < |s| && s[i] == x;
    r := s[..i] + s[i + 1..];
    assert s == s[..i] + [x] + s[i + 1..];
    TotalConcat(s[..i], s[i + 1..]);
    TotalConcat(s[..i] + [x], s[i + 1..]);
    TotalConcat(s[..i], [x]);
    assert [x][1..] == [];
  }

  lemma {:induction false} ShiftedPrefix(s: seq<TrackedUtxo>, k: nat)
    requires SortedBy(s, Descending) && k < |s|
    ensures Total(s[1..][..k]) <= Total(s[..k])
  {
    if k > 0 {
      var t := s[1..];
      ShiftedPrefix(t, k - 1);
      assert t[..k][1..] == t[1..][..k - 1];
      assert s[..k][1..] == t[..k - 1];
      assert Descending(s[0]) <= Descending(s[1]);
    }
  }

  lemma {:induction false} SelectionSize(sel: seq<TrackedUtxo>, us: seq<TrackedUtxo>)
    requires Selection(sel, us)
    ensures |sel| <= |us|
  {
    var rest := multiset(us) - multiset(sel);
    assert multiset(us) == multiset(sel) + rest;
    assert |multiset(us)| == |us| && |multiset(sel)| == |sel|;
  }

  lemma {:induction false} TailSelection(s: seq<TrackedUtxo>, sel: seq<TrackedUtxo>)
    requires s != [] && Selection(sel, s) && s[0] !in sel
    ensures Selection(sel, s[1..])
  {
    assert s == [s[0]] + s[1..];
    assert multiset(s) == multiset{s[0]} + multiset(s[1..]);
    assert multiset(sel)[s[0]] == 0;
  }

  lemma {:induction false} HeadTaken(s: seq<TrackedUtxo>, sel: seq<TrackedUtxo>) returns (rest: seq<TrackedUtxo>)
    requires s != [] && Selection(sel, s) && s[0] in sel
    ensures Selection(rest, s[1..])
    ensures multiset(rest) == multiset(sel) - multiset{s[0]}
    ensures Total(sel) == s[0].utxo.value + Total(rest)
    ensures |sel| == |rest| + 1
  {
    rest := RemoveOne(sel, s[0]);
    assert s == [s[0]] + s[1..];
    assert multiset(s) == multiset{s[0]} + multiset(s[1..]);
  }

  lemma {:induction false} PrefixCons(s: seq<TrackedUtxo>, k: nat)
    requires k < |s|
    ensures Total(s[..k + 1]) == s[0].utxo.value + Total(s[1..][..k])
  {
    assert s[..k + 1][1..] == s[1..][..k];
  }

  lemma {:induction false} TailSorted(s: seq<TrackedUtxo>)
    requires s != [] && SortedBy(s, Descending)
    ensures SortedBy(s[1..], Descending)
  {
  }

  /** Exchange argument: no selection of `k` UTXOs is worth more than the first
      `k` of the value-descending list. */
  lemma {:induction false} PrefixIsRichest(s: seq<TrackedUtxo>, sel: seq<TrackedUtxo>)
    requires SortedBy(s, Descending) && Selection(sel, s)
    ensures |sel| <= |s| && Total(sel) <= Total(s[..|sel|])
  {
    SelectionSize(sel, s);
    if s != [] {
      TailSorted(s);
      if s[0] in sel {
        var rest := HeadTaken(s, sel);
        PrefixIsRichest(s[1..], rest);
        PrefixCons(s, |rest|);
      } else {
        TailSelection(s, sel);
        PrefixIsRichest(s[1..], sel);
        ShiftedPrefix(s, |sel|);
      }
    } else {
      assert sel == [];
    }
  }

  /** Greedy selection finds funds whenever there are enough, never takes a
      UTXO twice, and no selection with fewer members reaches the target. */
  lemma {:induction false} SelectOptimal(us: seq<TrackedUtxo>, target: nat)
    ensures Select(us, target).None? <==> Total(us) < target
    ensures Select(us, target).Some? ==>
              var sel := Select(us, target).value;
              && Selection(sel, us)
              && Total(sel) >= target
              && sel <= ByValue(us)
              && forall other :: Selection(other, us) && Total(other) >= target ==> |sel| <= |other|
  {
    var s := ByValue(us);
    SortSorted(us, Descending);
    TotalPermutation(us, s);
    if Total(us) < target {
      ShortestPrefixNone(s, target);
    } else {
      var k := ShortestLength(s, target);
      ShortestPrefixIs(s, target, k);
      assert s == s[..k] + s[k..];
      forall other | Selection(other, us) && Total(other) >= target
        ensures k <= |other|
      {
        PrefixIsRichest(s, other);
      }
    }
  }

  lemma {:induction false} ShortestLength(s: seq<TrackedUtxo>, target: nat) returns (k: nat)
    requires Total(s) >= target
    ensures k <= |s| && Total(s[..k]) >= target
    ensures forall j :: 0 <= j < k ==> Total(s[..j]) < target
  {
    k := 0;
    assert s[..|s|] == s;
    while Total(s[..k]) < target
      invariant k <= |s|
      invariant forall j :: 0 <= j < k ==> Total(s[..j]) < target
      decreases |s| - k
    {
      k := k + 1;
    }
  }

  lemma {:induction false} TotalSnoc(s: seq<TrackedUtxo>, k: nat)
    requires k < |s|
    ensures Total(s[..k + 1]) == Total(s[..k]) + s[k].utxo.value
  {
    assert s[..k + 1] == s[..k] + [s[k]];
    TotalConcat(s[..k], [s[k]]);
    assert [s[k]][1..] == [];
  }

  /** `select_utxos`. */
  method SelectUtxos(us: seq<TrackedUtxo>, target: nat) returns (r: Option<seq<TrackedUtxo>>)
    ensures r == Select(us, target)
  {
    var sorted := ByValue(us);
    var selected: seq<TrackedUtxo> := [];
    var total := 0;
    var i := 0;
    assert sorted[..0] == [];
    while i < |sorted| && total < target
      invariant 0 <= i <= |sorted|
      invariant selected == sorted[..i]
      invariant total == Total(sorted[..i])
      invariant forall j :: 0 <= j < i ==> Total(sorted[..j]) < target
    {
      TotalSnoc(sorted, i);
      selected := selected + [sorted[i]];
      total := total + sorted[i].utxo.value;
      i := i + 1;
    }
    if total >= target {
      ShortestPrefixIs(sorted, target, i);
      r := Some(selected);
    } else {
      assert sorted[..i] == sorted;
      ShortestPrefixNone(sorted, target);
      r := None;
    }
  }
}
