/** Leader election by rotation over the sorted validators. */
module LeaderElection {
  import opened Prelude
  import opened Sorting
  import opened Chain

  const ROUND_LIMIT: int := 0x1_0000_0000

  /** Rounds are 32-bit. */
  type Round = x: int | 0 <= x < ROUND_LIMIT

  function Rank(p: PeerId): int { p }

  /** A repeat-free listing of the set, in whatever order. */
  ghost predicate Lists(s: seq<PeerId>, vs: set<PeerId>) {
    Distinct(s) && forall p :: p in s <==> p in vs
  }

  lemma {:induction false} ListsSize(s: seq<PeerId>, vs: set<PeerId>)
    requires Lists(s, vs)
    ensures |s| == |vs|
    decreases |s|
  {
    if s == [] {
      assert vs == {};
    } else {
      var rest := vs - {s[0]};
      assert s == [s[0]] + s[1..];
      forall p
        ensures p in s[1..] <==> p in rest
      {
        if p in s[1..] {
          var i :| 0 <= i < |s[1..]| && s[1..][i] == p;
          assert s[i + 1] == p && s[0] != s[i + 1];
        }
      }
      ListsSize(s[1..], rest);
    }
  }

  lemma {:induction false} ListingExists(vs: set<PeerId>) returns (s: seq<PeerId>)
    ensures Lists(s, vs)
  {
    if vs == {} {
      s := [];
    } else {
      var p :| p in vs;
      var rest := ListingExists(vs - {p});
      s := [p] + rest;
    }
  }

  lemma {:induction false} SortedListing(s: seq<PeerId>, vs: set<PeerId>)
    requires Lists(s, vs)
    ensures Lists(SortByKey(s, Rank), vs) && SortedBy(SortByKey(s, Rank), Rank)
  {
    SortSorted(s, Rank);
    SortedMembers(s, Rank);
  }

  /** The validators in ascending order. */
  ghost function Ordered(vs: set<PeerId>): (r: seq<PeerId>)
    ensures Lists(r, vs) && SortedBy(r, Rank)
    ensures |r| == |vs|
  {
    ghost var s := Listing(vs);
    SortedListing(s, vs);
    ListsSize(SortByKey(s, Rank), vs);
    SortByKey(s, Rank)
  }

  ghost function Listing(vs: set<PeerId>): (s: seq<PeerId>)
    ensures Lists(s, vs)
  {
    assert exists s :: Lists(s, vs) by {
      var s := ListingExists(vs);
    }
    var s :| Lists(s, vs);
    s
  }

  ghost function Leader(vs: set<PeerId>, round: Round): Option<PeerId> {
    if vs == {} then None else Some(Ordered(vs)[round % |vs|])
  }

  /** However the set is iterated, sorting it gives the same list. */
  lemma {:induction false} IterationOrderIrrelevant(s: seq<PeerId>, vs: set<PeerId>)
    requires Lists(s, vs)
    ensures SortByKey(s, Rank) == Ordered(vs)
  {
    SortedListing(s, vs);
    DistinctSameElements(SortByKey(s, Rank), Ordered(vs));
    SortedUnique(SortByKey(s, Rank), Ordered(vs), Rank);
  }

  /** `select_leader`: the set is collected in an arbitrary order. */
  method SelectLeader(validators: set<PeerId>, round: Round) returns (r: Option<PeerId>)
    ensures r == Leader(validators, round)
    ensures r.Some? ==> r.value in validators
  {
    if validators == {} {
      return None;
    }
    var collected: seq<PeerId> := [];
    var rest := validators;
    while rest != {}
      invariant rest <= validators
      invariant Distinct(collected)
      invariant forall p :: p in collected <==> p in validators - rest
      decreases |rest|
    {
      var p :| p in rest;
      assert p !in collected;
      collected := collected + [p];
      rest := rest - {p};
    }
    IterationOrderIrrelevant(collected, validators);
    var sorted := SortByKey(collected, Rank);
    var index := round % |validators|;
    r := Some(sorted[index]);
    assert sorted[index] in Ordered(validators);
  }

  lemma {:induction false} AtLeast(k: int, n: nat)
    requires k >= 1
    ensures k * n >= n
  {
    var j: nat := k - 1;
    assert j * n >= 0;
    assert k * n == j * n + n;
  }

  lemma {:induction false} QuotientUnique(q: int, i: int, d: int, m: int, n: nat)
    requires 0 <= i < n && 0 <= m < n
    requires q * n + i == d * n + m
    ensures q == d && i == m
  {
    if q > d {
      AtLeast(q - d, n);
    } else if d > q {
      AtLeast(d - q, n);
    }
  }

  lemma {:induction false} ModOfSum(q: nat, n: nat, i: nat)
    requires i < n
    ensures (q * n + i) % n == i
  {
    var x := q * n + i;
    assert x == (x / n) * n + x % n;
    QuotientUnique(q, i, x / n, x % n, n);
  }

  /** In a window of `n` rounds, exactly one has residue `i`. */
  lemma {:induction false} WindowResidue(start: nat, n: nat, i: nat) returns (r: nat)
    requires i < n
    ensures start <= r < start + n && r % n == i
    ensures forall x :: start <= x < start + n && x % n == i ==> x == r
  {
    var q, s := start / n, start % n;
    assert start == q * n + s;
    if i >= s {
      r := start + (i - s);
      assert r == q * n + i;
      ModOfSum(q, n, i);
    } else {
      r := start + n - s + i;
      assert r == (q + 1) * n + i;
      ModOfSum(q + 1, n, i);
    }
    forall x | start <= x < start + n && x % n == i
      ensures x == r
    {
      SameResidue(x, r, n);
    }
  }

  lemma {:induction false} SameResidue(x: nat, y: nat, n: nat)
    requires n > 0 && x % n == y % n && x - y < n && y - x < n
    ensures x == y
  {
    var a, b := x / n, y / n;
    assert x == a * n + x % n && y == b * n + y % n;
    if a > b {
      AtLeast(a - b, n);
    } else if b > a {
      AtLeast(b - a, n);
    }
  }

  // ---------- Fairness ----------

  /** The round `k` after `start`, counted on 32 bits. */
  function RoundAt(start: Round, k: nat): Round {
    (start + k) % ROUND_LIMIT
  }

  /** Of the `n` rounds from `start` on, `v` leads the one at `k` and no other. */
  ghost predicate LeadsOnly(vs: set<PeerId>, start: Round, v: PeerId, k: nat) {
    && k < |vs| && Leader(vs, RoundAt(start, k)) == Some(v)
    && forall j: nat :: j < |vs| && Leader(vs, RoundAt(start, j)) == Some(v) ==> j == k
  }

  /** Each of `n` validators leads exactly one of `n` consecutive rounds. */
  ghost predicate Fair(vs: set<PeerId>, start: Round) {
    forall v :: v in vs ==> exists k: nat :: LeadsOnly(vs, start, v, k)
  }

  lemma {:induction false} SameLeader(vs: set<PeerId>, x: Round, y: Round)
    requires vs != {}
    ensures Leader(vs, x) == Leader(vs, y) <==> x % |vs| == y % |vs|
  {
    var order := Ordered(vs);
    assert Distinct(order);
  }

  lemma {:induction false} LedTwice(vs: set<PeerId>, start: Round, j: nat, k: nat)
    requires j < k < |vs| && RoundAt(start, j) % |vs| == RoundAt(start, k) % |vs|
    ensures !Fair(vs, start)
  {
    var v := Leader(vs, RoundAt(start, j)).value;
    SameLeader(vs, RoundAt(start, j), RoundAt(start, k));
    assert v in Ordered(vs);
    forall i: nat
      ensures !LeadsOnly(vs, start, v, i)
    {
    }
    assert v in vs;
  }

  /** A window whose rounds keep their residues after the wrap is fair. */
  lemma {:induction false} FairByResidues(vs: set<PeerId>, start: Round)
    requires vs != {}
    requires forall k: nat :: k < |vs| ==> RoundAt(start, k) % |vs| == (start + k) % |vs|
    ensures Fair(vs, start)
  {
    var order, n := Ordered(vs), |vs|;
    forall v | v in vs
      ensures exists k: nat :: LeadsOnly(vs, start, v, k)
    {
      var i :| 0 <= i < |order| && order[i] == v;
      var r := WindowResidue(start, n, i);
      var k: nat := r - start;
      assert Leader(vs, RoundAt(start, k)) == Some(v);
      forall j: nat | j < n && Leader(vs, RoundAt(start, j)) == Some(v)
        ensures j == k
      {
        SameLeader(vs, RoundAt(start, j), RoundAt(start, k));
        assert start + j == r;
      }
      assert LeadsOnly(vs, start, v, k);
    }
  }

  lemma {:induction false} WrapKeepsResidue(x: nat, n: nat)
    requires n > 0 && ROUND_LIMIT % n == 0 && ROUND_LIMIT <= x < 2 * ROUND_LIMIT
    ensures (x % ROUND_LIMIT) % n == x % n
  {
    var y, q := x - ROUND_LIMIT, ROUND_LIMIT / n;
    assert x % ROUND_LIMIT == y;
    assert ROUND_LIMIT == q * n;
    assert y == (y / n) * n + y % n;
    assert x == (q + y / n) * n + y % n;
    ModOfSum(q + y / n, n, y % n);
  }

  lemma {:induction false} RoundAtIs(start: Round, k: nat)
    requires k <= ROUND_LIMIT
    ensures RoundAt(start, k) == if start + k < ROUND_LIMIT then start + k else start + k - ROUND_LIMIT
  {
  }

  /** Two rounds of a window that crosses a wrap which moves residues agree in
      theirs: one before it and one after. */
  lemma {:induction false} WrapMeets(start: Round, n: nat, q: nat, r: nat) returns (j: nat, k: nat)
    requires start + n > ROUND_LIMIT && n <= ROUND_LIMIT
    requires ROUND_LIMIT == q * n + r && 0 < r < n
    ensures j < k < n && RoundAt(start, j) % n == RoundAt(start, k) % n
  {
    var c := ROUND_LIMIT - start;
    if r <= c {
      j, k := c - r, c;
      assert q * n + 0 == start + j;
      ModOfSum(q, n, 0);
      ModOfSum(0, n, 0);
    } else {
      j, k := 0, r;
      assert q * n + (r - c) == start + j;
      ModOfSum(q, n, r - c);
      ModOfSum(0, n, r - c);
    }
    RoundAtIs(start, j);
    RoundAtIs(start, k);
  }

  lemma {:induction false} WrapIsUnfair(vs: set<PeerId>, start: Round)
    requires vs != {} && start + |vs| > ROUND_LIMIT && ROUND_LIMIT % |vs| != 0
    ensures !Fair(vs, start)
  {
    var n := |vs|;
    if n > ROUND_LIMIT {
      RoundAtIs(start, 0);
      RoundAtIs(start, ROUND_LIMIT);
      LedTwice(vs, start, 0, ROUND_LIMIT);
    } else {
      var j, k := WrapMeets(start, n, ROUND_LIMIT / n, ROUND_LIMIT % n);
      LedTwice(vs, start, j, k);
    }
  }

  /** Of any `n` consecutive rounds with a fixed set of `n` validators each
      validator leads exactly one, exactly if the rounds do not cross the wrap
      of the round number or `n` divides 2^32. */
  lemma {:induction false} LeaderIsFair(vs: set<PeerId>, start: Round)
    requires vs != {}
    ensures Fair(vs, start) <==> start + |vs| <= ROUND_LIMIT || ROUND_LIMIT % |vs| == 0
  {
    var n := |vs|;
    if start + n <= ROUND_LIMIT || ROUND_LIMIT % n == 0 {
      forall k: nat | k < n
        ensures RoundAt(start, k) % n == (start + k) % n
      {
        if start + k >= ROUND_LIMIT {
          assert n <= ROUND_LIMIT;
          WrapKeepsResidue(start + k, n);
        }
      }
      FairByResidues(vs, start);
    } else {
      WrapIsUnfair(vs, start);
    }
  }
}
