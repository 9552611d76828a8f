/** The input search behind one payout transaction per block: every
    combination of UTXOs is tried, smallest first, against an exact fee. */
module PayoutSearch {
  import opened Prelude
  import opened Bitcoin
  import opened Sorting
  import opened CoinSelection

  // Sizes in half virtual bytes, so that the overhead of 10.5 is a whole number.
  const IN_HALF_VBYTES: nat := 136
  const OUT_HALF_VBYTES: nat := 62
  const OVERHEAD_HALF_VBYTES: nat := 21
  const DUST: nat := 546

  /** Fee of a transaction with `k` inputs and `n` outputs, rounded up. */
  function Fee(k: nat, n: nat, rate: nat): nat {
    ((OVERHEAD_HALF_VBYTES + k * IN_HALF_VBYTES + n * OUT_HALF_VBYTES) * rate + 1) / 2
  }

  lemma {:induction false} OutputCost(k: nat, n: nat, rate: nat)
    ensures Fee(k, n + 1, rate) == Fee(k, n, rate) + 31 * rate
  {
    var w := OVERHEAD_HALF_VBYTES + k * IN_HALF_VBYTES + n * OUT_HALF_VBYTES;
    assert (w + 62) * rate == w * rate + 62 * rate;
    assert OVERHEAD_HALF_VBYTES + k * IN_HALF_VBYTES + (n + 1) * OUT_HALF_VBYTES == w + 62;
  }

  /** A further input costs 68 virtual bytes, and a transaction without any costs
      its 10.5 bytes of overhead, rounded up. */
  lemma {:induction false} InputCost(k: nat, n: nat, rate: nat)
    ensures Fee(k + 1, n, rate) == Fee(k, n, rate) + 68 * rate
    ensures 21 * rate <= 2 * Fee(0, 0, rate) <= 21 * rate + 1
  {
    var w := OVERHEAD_HALF_VBYTES + k * IN_HALF_VBYTES + n * OUT_HALF_VBYTES;
    assert (w + 136) * rate == w * rate + 136 * rate;
    assert OVERHEAD_HALF_VBYTES + (k + 1) * IN_HALF_VBYTES + n * OUT_HALF_VBYTES == w + 136;
  }

  // ---------- Enumeration ----------

  /** Strictly increasing indices from `[lo, n)`. */
  predicate Combination(c: seq<nat>, lo: nat, n: nat)
    decreases |c|
  {
    c == [] || (lo <= c[0] < n && Combination(c[1..], c[0] + 1, n))
  }

  function Prepend(x: nat, cs: seq<seq<nat>>): (r: seq<seq<nat>>)
    ensures |r| == |cs|
    ensures forall i :: 0 <= i < |cs| ==> r[i] == [x] + cs[i]
  {
    seq(|cs|, i requires 0 <= i < |cs| => [x] + cs[i])
  }

  /** The `k`-combinations of `[lo, n)` in the order the iterator yields them. */
  function Combinations(lo: nat, n: nat, k: nat): seq<seq<nat>>
    decreases n - lo
  {
    if k == 0 then [[]]
    else if lo >= n then []
    else Prepend(lo, Combinations(lo + 1, n, k - 1)) + Combinations(lo + 1, n, k)
  }

  ghost predicate LexLess(a: seq<nat>, b: seq<nat>) {
    a != [] && b != [] && (a[0] < b[0] || (a[0] == b[0] && LexLess(a[1..], b[1..])))
  }

  lemma {:induction false} CombinationCons(c: seq<nat>, lo: nat, n: nat)
    requires lo < n && Combination(c, lo + 1, n)
    ensures Combination([lo] + c, lo, n)
  {
    assert ([lo] + c)[1..] == c;
  }

  lemma {:induction false} EnumeratedIsCombination(lo: nat, n: nat, k: nat, i: nat)
    requires i < |Combinations(lo, n, k)|
    ensures |Combinations(lo, n, k)[i]| == k && Combination(Combinations(lo, n, k)[i], lo, n)
    decreases n - lo
  {
    if k > 0 {
      var head, tail := Combinations(lo + 1, n, k - 1), Combinations(lo + 1, n, k);
      assert Combinations(lo, n, k) == Prepend(lo, head) + tail;
      if i < |head| {
        EnumeratedIsCombination(lo + 1, n, k - 1, i);
        CombinationCons(head[i], lo, n);
      } else {
        EnumeratedIsCombination(lo + 1, n, k, i - |head|);
      }
    }
  }

  /** Every combination is yielded. */
  lemma {:induction false} CombinationIsEnumerated(lo: nat, n: nat, c: seq<nat>) returns (i: nat)
    requires Combination(c, lo, n)
    ensures i < |Combinations(lo, n, |c|)| && Combinations(lo, n, |c|)[i] == c
    decreases n - lo
  {
    if c == [] {
      i := 0;
    } else if c[0] == lo {
      i := CombinationIsEnumerated(lo + 1, n, c[1..]);
      assert [lo] + c[1..] == c;
    } else {
      assert Combination(c, lo + 1, n);
      var j := CombinationIsEnumerated(lo + 1, n, c);
      i := j + |Combinations(lo + 1, n, |c| - 1)|;
    }
  }

  /** The iterator runs in strict lexicographic order, so nothing comes twice. */
  lemma {:induction false} EnumerationIncreasing(lo: nat, n: nat, k: nat, i: nat, j: nat)
    requires i < j < |Combinations(lo, n, k)|
    ensures LexLess(Combinations(lo, n, k)[i], Combinations(lo, n, k)[j])
    decreases n - lo
  {
    if k > 0 {
      var head, tail := Combinations(lo + 1, n, k - 1), Combinations(lo + 1, n, k);
      if j < |head| {
        EnumerationIncreasing(lo + 1, n, k - 1, i, j);
        assert ([lo] + head[i])[1..] == head[i] && ([lo] + head[j])[1..] == head[j];
      } else if i < |head| {
        EnumeratedIsCombination(lo + 1, n, k, j - |head|);
      } else {
        EnumerationIncreasing(lo + 1, n, k, i - |head|, j - |head|);
      }
    }
  }

  // ---------- Combinations as selections ----------

  predicate Within(c: seq<nat>, n: nat) {
    forall j :: 0 <= j < |c| ==> c[j] < n
  }

  function Pick(s: seq<TrackedUtxo>, c: seq<nat>): (r: seq<TrackedUtxo>)
    requires Within(c, |s|)
    ensures |r| == |c|
    ensures forall j :: 0 <= j < |c| ==> r[j] == s[c[j]]
  {
    seq(|c|, j requires 0 <= j < |c| => s[c[j]])
  }

  lemma {:induction false} CombinationRange(c: seq<nat>, lo: nat, n: nat)
    requires Combination(c, lo, n)
    ensures Within(c, n)
  {
    if c != [] {
      CombinationRange(c[1..], c[0] + 1, n);
      assert c == [c[0]] + c[1..];
    }
  }

  lemma {:induction false} PickCons(s: seq<TrackedUtxo>, c: seq<nat>)
    requires c != [] && Within(c, |s|)
    ensures Within(c[1..], |s|) && Pick(s, c) == [s[c[0]]] + Pick(s, c[1..])
  {
  }

  lemma {:induction false} WidenSelection(s: seq<TrackedUtxo>, lo: nat, i: nat, rest: seq<TrackedUtxo>)
    requires lo <= i < |s| && multiset(rest) <= multiset(s[i + 1..])
    ensures multiset([s[i]] + rest) <= multiset(s[lo..])
  {
    assert s[lo..] == s[lo..i] + [s[i]] + s[i + 1..];
  }

  lemma {:induction false} PickIsSelection(s: seq<TrackedUtxo>, c: seq<nat>, lo: nat)
    requires lo <= |s| && Combination(c, lo, |s|)
    requires Within(c, |s|)
    ensures multiset(Pick(s, c)) <= multiset(s[lo..])
    decreases |c|
  {
    if c == [] {
      assert Pick(s, c) == [];
    } else {
      PickCons(s, c);
      var rest := Pick(s, c[1..]);
      assert multiset(rest) <= multiset(s[c[0] + 1..]) by {
        PickIsSelection(s, c[1..], c[0] + 1);
      }
      WidenSelection(s, lo, c[0], rest);
    }
  }

  /** Any selection is matched, in size and worth, by a combination. */
  lemma {:induction false} SelectionIsCombination(s: seq<TrackedUtxo>, sel: seq<TrackedUtxo>, lo: nat)
    returns (c: seq<nat>)
    requires lo <= |s| && Selection(sel, s[lo..])
    ensures Combination(c, lo, |s|) && |c| == |sel|
    ensures Within(c, |s|)
    ensures Total(Pick(s, c)) == Total(sel)
    decreases |s| - lo
  {
    SelectionSize(sel, s[lo..]);
    if sel == [] {
      c := [];
    } else {
      assert s[lo..][1..] == s[lo + 1..];
      if s[lo] in sel {
        var rest := HeadTaken(s[lo..], sel);
        var c' := SelectionIsCombination(s, rest, lo + 1);
        c := [lo] + c';
        assert c[1..] == c';
        assert Pick(s, c)[1..] == Pick(s, c');
      } else {
        TailSelection(s[lo..], sel);
        c := SelectionIsCombination(s, sel, lo + 1);
      }
    }
  }

  // ---------- The search ----------

  datatype Choice = Choice(inputs: seq<TrackedUtxo>, change: nat, fee: nat)

  datatype Demand = Demand(payout: nat, payees: nat, rate: nat)

  /** The surplus over payouts and the fee with a change output is nothing, or
      leaves a change above dust once the change output's own cost is returned. */
  ghost predicate Acceptable(worth: nat, k: nat, d: Demand) {
    var s := worth - d.payout - Fee(k, d.payees + 1, d.rate);
    s >= 0 && (s == 0 || s + 31 * d.rate >= DUST)
  }

  ghost predicate Settled(c: Choice, d: Demand) {
    var k := |c.inputs|;
    var s := Total(c.inputs) - d.payout - Fee(k, d.payees + 1, d.rate);
    && c.fee == (if 0 < s < DUST then Fee(k, d.payees, d.rate) else Fee(k, d.payees + 1, d.rate))
    && c.change == Total(c.inputs) - d.payout - c.fee
  }

  ghost predicate AcceptableAt(s: seq<TrackedUtxo>, c: seq<nat>, d: Demand) {
    && Within(c, |s|)
    && Acceptable(Total(Pick(s, c)), |c|, d)
  }

  /** `c` is the first acceptable combination of its size. */
  ghost predicate FirstOfSize(s: seq<TrackedUtxo>, c: seq<nat>, d: Demand) {
    && Combination(c, 0, |s|)
    && AcceptableAt(s, c, d)
    && forall o :: Combination(o, 0, |s|) && |o| == |c| && LexLess(o, c) ==> !AcceptableAt(s, o, d)
  }

  /** The search reports failure exactly when no non-empty selection is
      acceptable; otherwise no acceptable selection has fewer inputs than the
      chosen one, which is the first acceptable combination of its size. */
  ghost predicate SearchResult(us: seq<TrackedUtxo>, d: Demand, r: Option<Choice>) {
    match r
    case None => forall sel :: Selection(sel, us) && sel != [] ==> !Acceptable(Total(sel), |sel|, d)
    case Some(c) =>
      && Selection(c.inputs, us) && c.inputs != []
      && Acceptable(Total(c.inputs), |c.inputs|, d)
      && Settled(c, d)
      && (forall sel :: Selection(sel, us) && sel != [] && Acceptable(Total(sel), |sel|, d) ==> |c.inputs| <= |sel|)
      && exists idx :: FirstOfSize(ByValue(us), idx, d) && c.inputs == Pick(ByValue(us), idx)
  }

  /** No combination of fewer than `k` inputs is acceptable. */
  ghost predicate NoneBelow(s: seq<TrackedUtxo>, k: nat, d: Demand) {
    forall c :: Combination(c, 0, |s|) && 0 < |c| < k ==> !AcceptableAt(s, c, d)
  }

  lemma {:induction false} NoneBelowSelections(us: seq<TrackedUtxo>, k: nat, d: Demand)
    requires NoneBelow(ByValue(us), k, d)
    ensures forall sel :: Selection(sel, us) && 0 < |sel| < k ==> !Acceptable(Total(sel), |sel|, d)
  {
    var s := ByValue(us);
    forall sel | Selection(sel, us) && 0 < |sel| < k
      ensures !Acceptable(Total(sel), |sel|, d)
    {
      assert s[0..] == s;
      var c := SelectionIsCombination(s, sel, 0);
    }
  }

  /** A whole size has been tried without success. */
  lemma {:induction false} SizeExhausted(s: seq<TrackedUtxo>, k: nat, d: Demand)
    requires k > 0 && NoneBelow(s, k, d)
    requires forall i :: 0 <= i < |Combinations(0, |s|, k)| ==> !AcceptableAt(s, Combinations(0, |s|, k)[i], d)
    ensures NoneBelow(s, k + 1, d)
  {
    forall c | Combination(c, 0, |s|) && 0 < |c| < k + 1
      ensures !AcceptableAt(s, c, d)
    {
      if |c| == k {
        var i := CombinationIsEnumerated(0, |s|, c);
      }
    }
  }

  lemma {:induction false} LexAsymmetric(a: seq<nat>, b: seq<nat>)
    requires LexLess(a, b)
    ensures !LexLess(b, a) && a != b
  {
    if a[0] == b[0] {
      LexAsymmetric(a[1..], b[1..]);
    }
  }

  lemma {:induction false} FirstFound(s: seq<TrackedUtxo>, k: nat, j: nat, d: Demand)
    requires j < |Combinations(0, |s|, k)|
    requires forall i :: 0 <= i < j ==> !AcceptableAt(s, Combinations(0, |s|, k)[i], d)
    requires AcceptableAt(s, Combinations(0, |s|, k)[j], d)
    ensures FirstOfSize(s, Combinations(0, |s|, k)[j], d)
  {
    var cs := Combinations(0, |s|, k);
    EnumeratedIsCombination(0, |s|, k, j);
    forall o | Combination(o, 0, |s|) && |o| == |cs[j]| && LexLess(o, cs[j])
      ensures !AcceptableAt(s, o, d)
    {
      var i := CombinationIsEnumerated(0, |s|, o);
      if i == j {
        LexAsymmetric(o, cs[j]);
      } else if j < i {
        EnumerationIncreasing(0, |s|, k, j, i);
        LexAsymmetric(o, cs[j]);
      }
    }
  }

  lemma {:induction false} FoundResult(us: seq<TrackedUtxo>, d: Demand, k: nat, idx: seq<nat>, c: Choice)
    requires k > 0 && |idx| == k && NoneBelow(ByValue(us), k, d)
    requires FirstOfSize(ByValue(us), idx, d)
    requires c.inputs == Pick(ByValue(us), idx)
    requires Settled(c, d)
    ensures SearchResult(us, d, Some(c))
  {
    var s := ByValue(us);
    assert s[0..] == s;
    PickIsSelection(s, idx, 0);
    NoneBelowSelections(us, k, d);
  }

  /** The loop body: the fee is first taken with a change output, and taken
      again without one when the change would be dust. */
  method TryInputs(inputs: seq<TrackedUtxo>, d: Demand) returns (r: Option<Choice>)
    ensures r.Some? <==> Acceptable(Total(inputs), |inputs|, d)
    ensures r.Some? ==> r.value.inputs == inputs && Settled(r.value, d)
  {
    var worth := Total(inputs);
    var k := |inputs|;
    var outs := d.payees + 1;
    var fee := Fee(k, outs, d.rate);
    if worth < d.payout + fee {
      return None;
    }
    var change := worth - d.payout - fee;
    if 0 < change < DUST {
      OutputCost(k, d.payees, d.rate);
      outs := outs - 1;
      fee := Fee(k, outs, d.rate);
      change := worth - d.payout - fee;
    }
    if change == 0 || change >= DUST {
      return Some(Choice(inputs, change, fee));
    }
    return None;
  }

  /** The inner loop: the first acceptable one of the listed combinations. */
  method TryListed(candidates: seq<TrackedUtxo>, idxSets: seq<seq<nat>>, d: Demand) returns (r: Option<Choice>, j: nat)
    requires forall i :: 0 <= i < |idxSets| ==> Within(idxSets[i], |candidates|)
    ensures j <= |idxSets| && forall i :: 0 <= i < j ==> !AcceptableAt(candidates, idxSets[i], d)
    ensures r.None? ==> j == |idxSets|
    ensures r.Some? ==>
              && j < |idxSets| && AcceptableAt(candidates, idxSets[j], d)
              && r.value.inputs == Pick(candidates, idxSets[j]) && Settled(r.value, d)
  {
    j := 0;
    while j < |idxSets|
      invariant 0 <= j <= |idxSets|
      invariant forall i :: 0 <= i < j ==> !AcceptableAt(candidates, idxSets[i], d)
    {
      r := TryInputs(Pick(candidates, idxSets[j]), d);
      if r.Some? {
        return;
      }
      j := j + 1;
    }
    r := None;
  }

  lemma {:induction false} AllWithin(n: nat, k: nat)
    ensures forall i :: 0 <= i < |Combinations(0, n, k)| ==> Within(Combinations(0, n, k)[i], n)
  {
    forall i | 0 <= i < |Combinations(0, n, k)|
      ensures Within(Combinations(0, n, k)[i], n)
    {
      EnumeratedIsCombination(0, n, k, i);
      CombinationRange(Combinations(0, n, k)[i], 0, n);
    }
  }

  /** The combinations of one size, in the iterator's order. */
  method TrySize(candidates: seq<TrackedUtxo>, k: nat, d: Demand) returns (r: Option<Choice>, ghost idx: seq<nat>)
    requires k > 0 && NoneBelow(candidates, k, d)
    ensures r.None? ==> NoneBelow(candidates, k + 1, d)
    ensures r.Some? ==>
              && |idx| == k && FirstOfSize(candidates, idx, d)
              && r.value.inputs == Pick(candidates, idx) && Settled(r.value, d)
  {
    AllWithin(|candidates|, k);
    var idxSets := Combinations(0, |candidates|, k);
    var j;
    r, j := TryListed(candidates, idxSets, d);
    if r.Some? {
      FirstFound(candidates, k, j, d);
      EnumeratedIsCombination(0, |candidates|, k, j);
      idx := idxSets[j];
    } else {
      SizeExhausted(candidates, k, d);
      idx := [];
    }
  }

  /** The nested loops of `get_transaction_for_block`. */
  method ChooseInputs(us: seq<TrackedUtxo>, d: Demand) returns (r: Option<Choice>)
    ensures SearchResult(us, d, r)
  {
    var candidates := ByValue(us);
    var k := 1;
    while k <= |candidates|
      invariant 1 <= k <= |candidates| + 1
      invariant NoneBelow(candidates, k, d)
    {
      ghost var idx;
      r, idx := TrySize(candidates, k, d);
      if r.Some? {
        FoundResult(us, d, k, idx, r.value);
        return;
      }
      k := k + 1;
    }
    NothingFound(us, k, d);
    r := None;
  }

  lemma {:induction false} NothingFound(us: seq<TrackedUtxo>, k: nat, d: Demand)
    requires k > |us| && NoneBelow(ByValue(us), k, d)
    ensures SearchResult(us, d, None)
  {
    NoneBelowSelections(us, k, d);
    forall sel | Selection(sel, us) && sel != []
      ensures !Acceptable(Total(sel), |sel|, d)
    {
      SelectionSize(sel, us);
    }
  }

  // ---------- Consequences ----------

  lemma {:induction false} SettledBracket(c: Choice, d: Demand)
    requires Settled(c, d) && Acceptable(Total(c.inputs), |c.inputs|, d)
    ensures Total(c.inputs) == d.payout + c.change + c.fee
    ensures Fee(|c.inputs|, d.payees, d.rate) <= c.fee <= Fee(|c.inputs|, d.payees + 1, d.rate)
    ensures Fee(|c.inputs|, d.payees + 1, d.rate) == Fee(|c.inputs|, d.payees, d.rate) + 31 * d.rate
    ensures c.change == 0 || c.change >= DUST
  {
    OutputCost(|c.inputs|, d.payees, d.rate);
  }

  /** Inputs split exactly into payouts, change and fee; the fee lies between
      those without and with a change output, which are `31 * rate` apart; and
      change is either absent or above dust. */
  lemma {:induction false} FeeBracket(us: seq<TrackedUtxo>, d: Demand, c: Choice)
    requires SearchResult(us, d, Some(c))
    ensures Total(c.inputs) == d.payout + c.change + c.fee
    ensures Fee(|c.inputs|, d.payees, d.rate) <= c.fee <= Fee(|c.inputs|, d.payees + 1, d.rate)
    ensures Fee(|c.inputs|, d.payees + 1, d.rate) == Fee(|c.inputs|, d.payees, d.rate) + 31 * d.rate
    ensures c.change == 0 || c.change >= DUST
  {
    SettledBracket(c, d);
  }

  lemma {:induction false} LexTrichotomy(a: seq<nat>, b: seq<nat>)
    requires |a| == |b|
    ensures LexLess(a, b) || LexLess(b, a) || a == b
  {
    if a != [] && a[0] == b[0] {
      LexTrichotomy(a[1..], b[1..]);
      assert a == [a[0]] + a[1..] && b == [b[0]] + b[1..];
    }
  }

  lemma {:induction false} FirstUnique(s: seq<TrackedUtxo>, a: seq<nat>, b: seq<nat>, d: Demand)
    requires FirstOfSize(s, a, d) && FirstOfSize(s, b, d) && |a| == |b|
    ensures a == b
  {
    LexTrichotomy(a, b);
  }

  lemma {:induction false} SameSize(us: seq<TrackedUtxo>, d: Demand, c1: Choice, c2: Choice)
    requires SearchResult(us, d, Some(c1)) && SearchResult(us, d, Some(c2))
    ensures |c1.inputs| == |c2.inputs|
  {
    assert |c1.inputs| <= |c2.inputs| && |c2.inputs| <= |c1.inputs|;
  }

  lemma {:induction false} FirstWitness(us: seq<TrackedUtxo>, d: Demand, c: Choice) returns (idx: seq<nat>)
    requires SearchResult(us, d, Some(c))
    ensures FirstOfSize(ByValue(us), idx, d) && c.inputs == Pick(ByValue(us), idx)
    ensures Settled(c, d)
  {
    idx :| FirstOfSize(ByValue(us), idx, d) && c.inputs == Pick(ByValue(us), idx);
  }

  /** The result of the search is determined. */
  lemma {:induction false} SearchDeterministic(us: seq<TrackedUtxo>, d: Demand, c1: Choice, c2: Choice)
    requires SearchResult(us, d, Some(c1)) && SearchResult(us, d, Some(c2))
    ensures c1 == c2
  {
    SameSize(us, d, c1, c2);
    var a := FirstWitness(us, d, c1);
    var b := FirstWitness(us, d, c2);
    FirstUnique(ByValue(us), a, b, d);
    assert c1.inputs == c2.inputs;
  }

  function FirstIndices(k: nat): (c: seq<nat>)
    ensures |c| == k && forall i :: 0 <= i < k ==> c[i] == i
  {
    seq(k, i => i)
  }

  lemma {:induction false} RangeIsCombination(c: seq<nat>, lo: nat, n: nat)
    requires lo + |c| <= n
    requires forall i :: 0 <= i < |c| ==> c[i] == lo + i
    ensures Combination(c, lo, n)
    decreases |c|
  {
    if c != [] {
      RangeIsCombination(c[1..], lo + 1, n);
    }
  }

  lemma {:induction false} RangeIsFirst(c: seq<nat>, o: seq<nat>, lo: nat, n: nat)
    requires |c| == |o| && Combination(o, lo, n)
    requires forall i :: 0 <= i < |c| ==> c[i] == lo + i
    ensures c == o || LexLess(c, o)
    decreases |c|
  {
    if c != [] && o[0] == lo {
      RangeIsFirst(c[1..], o[1..], lo + 1, n);
      assert c == [c[0]] + c[1..] && o == [o[0]] + o[1..];
    }
  }

  /** The `k` most valuable UTXOs pay for payouts and fee. */
  ghost predicate Covers(us: seq<TrackedUtxo>, k: nat, d: Demand)
    requires k <= |us|
  {
    Total(ByValue(us)[..k]) >= d.payout + Fee(k, d.payees + 1, d.rate)
  }

  lemma {:induction false} CoversIsAcceptable(us: seq<TrackedUtxo>, k: nat, d: Demand)
    requires d.rate >= 18 && k <= |us|
    ensures Covers(us, k, d) <==> Acceptable(Total(ByValue(us)[..k]), k, d)
    ensures Selection(ByValue(us)[..k], us) && Pick(ByValue(us), FirstIndices(k)) == ByValue(us)[..k]
  {
    var s := ByValue(us);
    assert s == s[..k] + s[k..];
  }

  /** A covering prefix bounds the search. */
  lemma {:induction false} CoverBoundsSearch(us: seq<TrackedUtxo>, d: Demand, r: Option<Choice>, j: nat)
    requires d.rate >= 18 && SearchResult(us, d, r)
    requires 0 < j <= |us| && Covers(us, j, d)
    ensures r.Some? && |r.value.inputs| <= j
  {
    CoversIsAcceptable(us, j, d);
    assert |ByValue(us)[..j]| == j;
  }

  /** The first combination of a size is the richest one. */
  lemma {:induction false} FirstIsPrefix(us: seq<TrackedUtxo>, d: Demand, idx: seq<nat>)
    requires d.rate >= 18 && FirstOfSize(ByValue(us), idx, d)
    ensures |idx| <= |us| && Pick(ByValue(us), idx) == ByValue(us)[..|idx|] && Covers(us, |idx|, d)
  {
    var s, k := ByValue(us), |idx|;
    SortSorted(us, Descending);
    assert s[0..] == s;
    PickIsSelection(s, idx, 0);
    PrefixIsRichest(s, Pick(s, idx));
    CoversIsAcceptable(us, k, d);
    RangeIsCombination(FirstIndices(k), 0, |s|);
    RangeIsFirst(FirstIndices(k), idx, 0, |s|);
    assert AcceptableAt(s, FirstIndices(k), d);
  }

  /** From 18 sat/vB on, the exhaustive search is the greedy one: it takes the
      shortest prefix of the value-descending list that pays for everything. */
  lemma {:induction false} SearchIsGreedy(us: seq<TrackedUtxo>, d: Demand, r: Option<Choice>)
    requires d.rate >= 18 && SearchResult(us, d, r)
    ensures r.None? ==> forall k :: 0 < k <= |us| ==> !Covers(us, k, d)
    ensures r.Some? ==>
              var k := |r.value.inputs|;
              && 0 < k <= |us| && r.value.inputs == ByValue(us)[..k]
              && Covers(us, k, d)
              && forall j :: 0 < j < k ==> !Covers(us, j, d)
  {
    forall j | 0 < j <= |us| && Covers(us, j, d)
      ensures r.Some? && |r.value.inputs| <= j
    {
      CoverBoundsSearch(us, d, r, j);
    }
    if r.Some? {
      var idx :| FirstOfSize(ByValue(us), idx, d) && r.value.inputs == Pick(ByValue(us), idx);
      FirstIsPrefix(us, d, idx);
    }
  }

  /** Below that rate the two differ: one UTXO a satoshi above cost is refused
      by the search, although it covers everything. */
  lemma {:induction false} GreedyNeedsRate18(u: TrackedUtxo, d: Demand)
    requires d.rate < 18
    requires u.utxo.value == d.payout + Fee(1, d.payees + 1, d.rate) + 1
    ensures SearchResult([u], d, None) && Covers([u], 1, d)
  {
    assert ByValue([u]) == [u] by {
      assert [u][1..] == [];
    }
    assert [u][..1] == [u] && Total([u]) == u.utxo.value by {
      assert [u][1..] == [];
    }
    forall sel | Selection(sel, [u]) && sel != []
      ensures !Acceptable(Total(sel), |sel|, d)
    {
      SelectionSize(sel, [u]);
      assert sel[0] in multiset([u]);
      assert sel == [u];
    }
  }
}
