/** When a deposit is credited more than once. The pool only refuses what is
    pending, and a block that succeeds empties it. */
module Replays {
  import opened Prelude
  import opened Bytes
  import opened Sets
  import opened Sorting
  import opened Repeats
  import opened Protocol
  import opened Executor
  import opened Programs
  import opened Chain
  import opened Convergence

  // ---------- The pool from block to block ----------

  /** What is received before a block, and whether the block succeeds. */
  datatype Turn = Turn(received: seq<Transaction>, ok: bool)

  /** What is pending after the turns. */
  function Left(pool: seq<Transaction>, turns: seq<Turn>): seq<Transaction> {
    if turns == [] then pool
    else
      var n := |turns| - 1;
      if turns[n].ok then [] else AddAll(Left(pool, turns[..n]), turns[n].received)
  }

  /** What the block of turn `k` is proposed from. */
  function Pooled(pool: seq<Transaction>, turns: seq<Turn>, k: nat): seq<Transaction>
    requires k < |turns|
  {
    AddAll(Left(pool, turns[..k]), turns[k].received)
  }

  /** The block of turn `k` succeeds and has `t` in it. */
  ghost predicate Holds(pool: seq<Transaction>, turns: seq<Turn>, k: nat, t: Transaction) {
    k < |turns| && turns[k].ok && t in Pooled(pool, turns, k)
  }

  /** The transactions of all blocks that succeed. */
  function Held(pool: seq<Transaction>, turns: seq<Turn>, key: Transaction -> int): seq<Transaction> {
    if turns == [] then []
    else
      var n := |turns| - 1;
      Held(pool, turns[..n], key) + if turns[n].ok then SortByKey(Pooled(pool, turns, n), key) else []
  }

  lemma {:induction false} PooledPrefix(pool: seq<Transaction>, turns: seq<Turn>, n: nat, k: nat)
    requires k < n <= |turns|
    ensures Pooled(pool, turns[..n], k) == Pooled(pool, turns, k)
  {
    assert turns[..n][..k] == turns[..k] && turns[..n][k] == turns[k];
  }

  lemma {:induction false} LeftDistinct(pool: seq<Transaction>, turns: seq<Turn>)
    requires Distinct(pool)
    ensures Distinct(Left(pool, turns))
  {
    if turns != [] {
      var n := |turns| - 1;
      LeftDistinct(pool, turns[..n]);
      AddAllDistinct(Left(pool, turns[..n]), turns[n].received);
    }
  }

  // ---------- What is pending was received since the last success ----------

  /** `t` comes in at turn `r`; what was pending at the start comes in at 0. */
  predicate Arrives(pool: seq<Transaction>, turns: seq<Turn>, r: nat, t: Transaction) {
    r < |turns| && (t in turns[r].received || (r == 0 && t in pool))
  }

  ghost predicate NoneOk(turns: seq<Turn>, from: nat, to: nat) {
    forall i :: from <= i < to && i < |turns| ==> !turns[i].ok
  }

  /** `t` came in at `r`, and no block has succeeded since. */
  ghost predicate Waits(pool: seq<Transaction>, turns: seq<Turn>, r: nat, k: nat, t: Transaction) {
    r <= k && Arrives(pool, turns, r, t) && NoneOk(turns, r, k)
  }

  lemma {:induction false} WaitsPooled(pool: seq<Transaction>, turns: seq<Turn>, r: nat, k: nat, t: Transaction)
    requires k < |turns| && Waits(pool, turns, r, k, t)
    ensures t in Pooled(pool, turns, k)
    decreases k
  {
    AddAllMembers(Left(pool, turns[..k]), turns[k].received);
    if r < k {
      WaitsPooled(pool, turns, r, k - 1, t);
      LeftBefore(pool, turns, k);
    } else if t !in turns[k].received {
      assert turns[..0] == [];
    }
  }

  lemma {:induction false} LeftBefore(pool: seq<Transaction>, turns: seq<Turn>, k: nat)
    requires 0 < k <= |turns|
    ensures Left(pool, turns[..k]) == if turns[k - 1].ok then [] else Pooled(pool, turns, k - 1)
  {
    assert turns[..k][..k - 1] == turns[..k - 1];
  }

  lemma {:induction false} PooledWaits(pool: seq<Transaction>, turns: seq<Turn>, k: nat, t: Transaction)
    returns (r: nat)
    requires k < |turns| && t in Pooled(pool, turns, k)
    ensures Waits(pool, turns, r, k, t)
    decreases k
  {
    AddAllMembers(Left(pool, turns[..k]), turns[k].received);
    if t in turns[k].received {
      r := k;
    } else if k == 0 {
      assert turns[..0] == [];
      r := 0;
    } else {
      LeftBefore(pool, turns, k);
      r := PooledWaits(pool, turns, k - 1, t);
    }
  }

  // ---------- Held twice ----------

  /** After the block of turn `i`, which held it, `t` is received at `r`, and the
      block of turn `j`, not earlier, succeeds. */
  ghost predicate Replay(pool: seq<Transaction>, turns: seq<Turn>, i: nat, r: nat, j: nat, t: Transaction) {
    i < r <= j < |turns| && Holds(pool, turns, i, t) && t in turns[r].received && turns[j].ok
  }

  ghost predicate ReceivedAgain(pool: seq<Transaction>, turns: seq<Turn>, t: Transaction) {
    exists i: nat, r: nat, j: nat :: Replay(pool, turns, i, r, j, t)
  }

  lemma {:induction false} NextOk(turns: seq<Turn>, r: nat, j: nat) returns (k: nat)
    requires r <= j < |turns| && turns[j].ok
    ensures r <= k <= j && turns[k].ok && NoneOk(turns, r, k)
  {
    k := r;
    while !turns[k].ok
      invariant r <= k <= j && NoneOk(turns, r, k)
      decreases j - k
    {
      k := k + 1;
    }
  }

  lemma {:induction false} ReplayHolds(pool: seq<Transaction>, turns: seq<Turn>, i: nat, r: nat, j: nat, t: Transaction)
    returns (k: nat)
    requires Replay(pool, turns, i, r, j, t)
    ensures i < k && Holds(pool, turns, k, t)
  {
    k := NextOk(turns, r, j);
    WaitsPooled(pool, turns, r, k, t);
  }

  lemma {:induction false} HoldsReplay(pool: seq<Transaction>, turns: seq<Turn>, i: nat, k: nat, t: Transaction)
    requires i < k && Holds(pool, turns, i, t) && Holds(pool, turns, k, t)
    ensures ReceivedAgain(pool, turns, t)
  {
    var r := PooledWaits(pool, turns, k, t);
    assert Replay(pool, turns, i, r, k, t);
  }

  /** A transaction is in two blocks that succeed exactly if it is received again
      after one that held it, and another succeeds later. */
  lemma {:induction false} HeldTwiceIff(pool: seq<Transaction>, turns: seq<Turn>, t: Transaction)
    ensures (exists i: nat, k: nat :: i < k && Holds(pool, turns, i, t) && Holds(pool, turns, k, t))
            <==> ReceivedAgain(pool, turns, t)
  {
    if i: nat, k: nat :| i < k && Holds(pool, turns, i, t) && Holds(pool, turns, k, t) {
      HoldsReplay(pool, turns, i, k, t);
    }
    if i: nat, r: nat, j: nat :| Replay(pool, turns, i, r, j, t) {
      var k := ReplayHolds(pool, turns, i, r, j, t);
    }
  }

  ghost function HoldTurns(pool: seq<Transaction>, turns: seq<Turn>, t: Transaction): set<nat> {
    set k: nat | k < |turns| && Holds(pool, turns, k, t)
  }

  lemma {:induction false} HoldTurnsSnoc(pool: seq<Transaction>, turns: seq<Turn>, n: nat, t: Transaction)
    requires |turns| == n + 1
    ensures HoldTurns(pool, turns, t) ==
            HoldTurns(pool, turns[..n], t) + (if Holds(pool, turns, n, t) then {n} else {})
    ensures n !in HoldTurns(pool, turns[..n], t)
  {
    forall k: nat | k < n
      ensures Holds(pool, turns[..n], k, t) <==> Holds(pool, turns, k, t)
    {
      PooledPrefix(pool, turns, n, k);
    }
  }

  lemma {:induction false} SortedCount(s: seq<Transaction>, key: Transaction -> int, t: Transaction)
    requires Distinct(s)
    ensures multiset(SortByKey(s, key))[t] == if t in s then 1 else 0
  {
    DistinctCount(s, t);
  }

  lemma {:induction false} HeldCount(pool: seq<Transaction>, turns: seq<Turn>, key: Transaction -> int, t: Transaction)
    requires Distinct(pool)
    ensures multiset(Held(pool, turns, key))[t] == |HoldTurns(pool, turns, t)|
  {
    if turns != [] {
      var n := |turns| - 1;
      HeldCount(pool, turns[..n], key, t);
      HoldTurnsSnoc(pool, turns, n, t);
      LeftDistinct(pool, turns[..n]);
      AddAllDistinct(Left(pool, turns[..n]), turns[n].received);
      SortedCount(Pooled(pool, turns, n), key, t);
    }
  }

  lemma {:induction false} AtMostOneHold(pool: seq<Transaction>, turns: seq<Turn>, t: Transaction)
    ensures |HoldTurns(pool, turns, t)| <= 1 <==> !ReceivedAgain(pool, turns, t)
  {
    var ks := HoldTurns(pool, turns, t);
    HeldTwiceIff(pool, turns, t);
    AtMostOne(ks);
    if i: nat, k: nat :| i < k && Holds(pool, turns, i, t) && Holds(pool, turns, k, t) {
      assert i in ks && k in ks;
    }
  }

  lemma {:induction false} AtMostOne(ks: set<nat>)
    ensures |ks| <= 1 <==> !exists i, k :: i in ks && k in ks && i < k
  {
    if i, k :| i in ks && k in ks && i < k {
      SubsetSize({i, k}, ks);
    } else if ks != {} {
      var k :| k in ks;
      forall i | i in ks
        ensures i == k
      {
        assert !(i < k) && !(k < i);
      }
      OneElement(ks, k);
    }
  }

  /** How often a transaction takes effect, and when at most once. */
  lemma {:induction false} HeldOnceIff(pool: seq<Transaction>, turns: seq<Turn>, key: Transaction -> int,
                                       t: Transaction)
    requires Distinct(pool)
    ensures multiset(Held(pool, turns, key))[t] == |HoldTurns(pool, turns, t)|
    ensures multiset(Held(pool, turns, key))[t] <= 1 <==> !ReceivedAgain(pool, turns, t)
  {
    HeldCount(pool, turns, key, t);
    AtMostOneHold(pool, turns, t);
  }

  // ---------- One program in several transactions ----------

  ghost predicate Runs(t: Transaction, ops: seq<Operation>) {
    t.operations == ops
  }

  ghost predicate Has(s: seq<Transaction>, ops: seq<Operation>) {
    exists t :: t in s && Runs(t, ops)
  }

  ghost predicate Both(s: seq<Transaction>, i: nat, j: nat, ops: seq<Operation>) {
    i < j < |s| && Runs(s[i], ops) && Runs(s[j], ops)
  }

  ghost predicate Twice(s: seq<Transaction>, ops: seq<Operation>) {
    exists i: nat, j: nat :: Both(s, i, j, ops)
  }

  ghost predicate TwoOf(s: seq<Transaction>, ops: seq<Operation>) {
    exists t, u :: t in s && u in s && t != u && Runs(t, ops) && Runs(u, ops)
  }

  lemma {:induction false} TwiceConcat(a: seq<Transaction>, b: seq<Transaction>, ops: seq<Operation>)
    ensures Twice(a + b, ops) <==> Twice(a, ops) || Twice(b, ops) || (Has(a, ops) && Has(b, ops))
  {
    var s := a + b;
    if i: nat, j: nat :| Both(a, i, j, ops) {
      assert Both(s, i, j, ops);
    }
    if i: nat, j: nat :| Both(b, i, j, ops) {
      assert Both(s, |a| + i, |a| + j, ops);
    }
    if Has(a, ops) && Has(b, ops) {
      var t :| t in a && Runs(t, ops);
      var u :| u in b && Runs(u, ops);
      var i :| 0 <= i < |a| && a[i] == t;
      var j :| 0 <= j < |b| && b[j] == u;
      assert Both(s, i, |a| + j, ops);
    }
    if i: nat, j: nat :| Both(s, i, j, ops) {
      if j < |a| {
        assert Both(a, i, j, ops);
      } else if i >= |a| {
        assert Both(b, i - |a|, j - |a|, ops);
      } else {
        assert s[i] in a && s[j] in b;
      }
    }
  }

  lemma {:induction false} TwiceDistinct(s: seq<Transaction>, ops: seq<Operation>)
    requires Distinct(s)
    ensures Twice(s, ops) <==> TwoOf(s, ops)
  {
    if i: nat, j: nat :| Both(s, i, j, ops) {
      assert s[i] in s && s[j] in s && s[i] != s[j];
    }
    if TwoOf(s, ops) {
      var t, u :| t in s && u in s && t != u && Runs(t, ops) && Runs(u, ops);
      var i :| 0 <= i < |s| && s[i] == t;
      var j :| 0 <= j < |s| && s[j] == u;
      assert if i < j then Both(s, i, j, ops) else Both(s, j, i, ops);
    }
  }

  // ---------- Held under one program ----------

  /** Two different places, in time or in the block, hold the program. */
  ghost predicate HeldPair(pool: seq<Transaction>, turns: seq<Turn>, i: nat, t: Transaction, k: nat, u: Transaction,
                           ops: seq<Operation>) {
    && Holds(pool, turns, i, t) && Holds(pool, turns, k, u) && Runs(t, ops) && Runs(u, ops)
    && i <= k && (i == k ==> t != u)
  }

  ghost predicate HeldTwice(pool: seq<Transaction>, turns: seq<Turn>, ops: seq<Operation>) {
    exists i: nat, t, k: nat, u :: HeldPair(pool, turns, i, t, k, u, ops)
  }

  ghost predicate HeldOnce(pool: seq<Transaction>, turns: seq<Turn>, ops: seq<Operation>) {
    exists i: nat, t :: Holds(pool, turns, i, t) && Runs(t, ops)
  }

  lemma {:induction false} HoldsPrefix(pool: seq<Transaction>, turns: seq<Turn>, n: nat, k: nat, t: Transaction)
    requires n <= |turns| && k < n
    ensures Holds(pool, turns[..n], k, t) <==> Holds(pool, turns, k, t)
  {
    PooledPrefix(pool, turns, n, k);
  }

  lemma {:induction false} HeldOnceSnoc(pool: seq<Transaction>, turns: seq<Turn>, n: nat, ops: seq<Operation>)
    requires |turns| == n + 1
    ensures HeldOnce(pool, turns, ops) <==>
            HeldOnce(pool, turns[..n], ops) || (turns[n].ok && Has(Pooled(pool, turns, n), ops))
  {
    if i: nat, t :| Holds(pool, turns, i, t) && Runs(t, ops) {
      if i < n {
        HoldsPrefix(pool, turns, n, i, t);
      }
    }
    if i: nat, t :| Holds(pool, turns[..n], i, t) && Runs(t, ops) {
      HoldsPrefix(pool, turns, n, i, t);
    }
    if turns[n].ok && Has(Pooled(pool, turns, n), ops) {
      var t :| t in Pooled(pool, turns, n) && Runs(t, ops);
      assert Holds(pool, turns, n, t);
    }
  }

  lemma {:induction false} HeldTwiceSnoc(pool: seq<Transaction>, turns: seq<Turn>, n: nat, ops: seq<Operation>)
    requires |turns| == n + 1
    ensures var now := Pooled(pool, turns, n);
            HeldTwice(pool, turns, ops) <==>
            || HeldTwice(pool, turns[..n], ops)
            || (turns[n].ok && (TwoOf(now, ops) || (HeldOnce(pool, turns[..n], ops) && Has(now, ops))))
  {
    if HeldTwice(pool, turns, ops) {
      var i: nat, t, k: nat, u :| HeldPair(pool, turns, i, t, k, u, ops);
      PairSnoc(pool, turns, n, i, t, k, u, ops);
    }
    if HeldTwice(pool, turns[..n], ops) {
      var i: nat, t, k: nat, u :| HeldPair(pool, turns[..n], i, t, k, u, ops);
      HoldsPrefix(pool, turns, n, i, t);
      HoldsPrefix(pool, turns, n, k, u);
      assert HeldPair(pool, turns, i, t, k, u, ops);
    }
    if turns[n].ok {
      NewPair(pool, turns, n, ops);
    }
  }

  lemma {:induction false} PairSnoc(pool: seq<Transaction>, turns: seq<Turn>, n: nat, i: nat, t: Transaction, k: nat,
                                    u: Transaction, ops: seq<Operation>)
    requires |turns| == n + 1 && HeldPair(pool, turns, i, t, k, u, ops)
    ensures var now := Pooled(pool, turns, n);
            || HeldTwice(pool, turns[..n], ops)
            || (turns[n].ok && (TwoOf(now, ops) || (HeldOnce(pool, turns[..n], ops) && Has(now, ops))))
  {
    if i < n {
      HoldsPrefix(pool, turns, n, i, t);
      if k < n {
        HoldsPrefix(pool, turns, n, k, u);
        assert HeldPair(pool, turns[..n], i, t, k, u, ops);
      }
    }
  }

  lemma {:induction false} NewPair(pool: seq<Transaction>, turns: seq<Turn>, n: nat, ops: seq<Operation>)
    requires |turns| == n + 1 && turns[n].ok
    ensures var now := Pooled(pool, turns, n);
            TwoOf(now, ops) || (HeldOnce(pool, turns[..n], ops) && Has(now, ops)) ==> HeldTwice(pool, turns, ops)
  {
    var now := Pooled(pool, turns, n);
    if TwoOf(now, ops) {
      var t, u :| t in now && u in now && t != u && Runs(t, ops) && Runs(u, ops);
      assert HeldPair(pool, turns, n, t, n, u, ops);
    } else if HeldOnce(pool, turns[..n], ops) && Has(now, ops) {
      var i: nat, t :| Holds(pool, turns[..n], i, t) && Runs(t, ops);
      var u :| u in now && Runs(u, ops);
      HoldsPrefix(pool, turns, n, i, t);
      assert HeldPair(pool, turns, i, t, n, u, ops);
    }
  }

  lemma {:induction false} HeldIs(pool: seq<Transaction>, turns: seq<Turn>, key: Transaction -> int,
                                  ops: seq<Operation>)
    requires Distinct(pool)
    ensures Has(Held(pool, turns, key), ops) <==> HeldOnce(pool, turns, ops)
    ensures Twice(Held(pool, turns, key), ops) <==> HeldTwice(pool, turns, ops)
  {
    if turns != [] {
      var n := |turns| - 1;
      var before, now := Held(pool, turns[..n], key), Pooled(pool, turns, n);
      HeldIs(pool, turns[..n], key, ops);
      HeldOnceSnoc(pool, turns, n, ops);
      HeldTwiceSnoc(pool, turns, n, ops);
      if turns[n].ok {
        LeftDistinct(pool, turns[..n]);
        AddAllDistinct(Left(pool, turns[..n]), turns[n].received);
        BlockIs(before, now, SortByKey(now, key), key, ops);
      } else {
        assert Held(pool, turns, key) == before;
      }
    }
  }

  lemma {:induction false} BlockIs(before: seq<Transaction>, now: seq<Transaction>, block: seq<Transaction>,
                                   key: Transaction -> int, ops: seq<Operation>)
    requires Distinct(now) && block == SortByKey(now, key)
    ensures Has(before + block, ops) <==> Has(before, ops) || Has(now, ops)
    ensures Twice(before + block, ops) <==> Twice(before, ops) || TwoOf(now, ops) || (Has(before, ops) && Has(now, ops))
  {
    SortedMembers(now, key);
    TwiceConcat(before, block, ops);
    TwiceDistinct(block, ops);
    if t :| t in before && Runs(t, ops) {
      assert t in before + block;
    }
    if t :| t in now && Runs(t, ops) {
      assert t in before + block;
    }
  }

  /** The program is run again: a transaction that runs it is received again, or
      two different ones run it and both get into blocks that succeed. */
  ghost predicate Replayed(pool: seq<Transaction>, turns: seq<Turn>, ops: seq<Operation>) {
    || (exists t :: Runs(t, ops) && ReceivedAgain(pool, turns, t))
    || (exists t, u :: t != u && Runs(t, ops) && Runs(u, ops) && Reaches(pool, turns, t) && Reaches(pool, turns, u))
  }

  ghost predicate ReachesAt(pool: seq<Transaction>, turns: seq<Turn>, r: nat, j: nat, t: Transaction) {
    r <= j < |turns| && Arrives(pool, turns, r, t) && turns[j].ok
  }

  /** `t` comes in, and some block succeeds then or later. */
  ghost predicate Reaches(pool: seq<Transaction>, turns: seq<Turn>, t: Transaction) {
    exists r: nat, j: nat :: ReachesAt(pool, turns, r, j, t)
  }

  lemma {:induction false} ReachesIff(pool: seq<Transaction>, turns: seq<Turn>, t: Transaction)
    ensures Reaches(pool, turns, t) <==> exists k: nat :: Holds(pool, turns, k, t)
  {
    if r: nat, j: nat :| ReachesAt(pool, turns, r, j, t) {
      var k := NextOk(turns, r, j);
      WaitsPooled(pool, turns, r, k, t);
      assert Holds(pool, turns, k, t);
    }
    if k: nat :| Holds(pool, turns, k, t) {
      var r := PooledWaits(pool, turns, k, t);
      assert ReachesAt(pool, turns, r, k, t);
    }
  }

  lemma {:induction false} HeldTwiceIsReplayed(pool: seq<Transaction>, turns: seq<Turn>, ops: seq<Operation>)
    ensures HeldTwice(pool, turns, ops) <==> Replayed(pool, turns, ops)
  {
    if HeldTwice(pool, turns, ops) {
      var i: nat, t, k: nat, u :| HeldPair(pool, turns, i, t, k, u, ops);
      if t == u {
        HoldsReplay(pool, turns, i, k, t);
      } else {
        ReachesIff(pool, turns, t);
        ReachesIff(pool, turns, u);
      }
    }
    if t :| Runs(t, ops) && ReceivedAgain(pool, turns, t) {
      var i: nat, r: nat, j: nat :| Replay(pool, turns, i, r, j, t);
      var k := ReplayHolds(pool, turns, i, r, j, t);
      assert HeldPair(pool, turns, i, t, k, t, ops);
    }
    if t, u :| t != u && Runs(t, ops) && Runs(u, ops) && Reaches(pool, turns, t) && Reaches(pool, turns, u) {
      ReachesIff(pool, turns, t);
      ReachesIff(pool, turns, u);
      var i: nat :| Holds(pool, turns, i, t);
      var k: nat :| Holds(pool, turns, k, u);
      assert if i <= k then HeldPair(pool, turns, i, t, k, u, ops) else HeldPair(pool, turns, k, u, i, t, ops);
    }
  }

  // ---------- Epochs as turns ----------

  lemma {:induction false} EpochsSnoc(env: ChainEnv, l: Ledger, batches: seq<Batch>, batch: Batch)
    ensures Epochs(env, l, batches + [batch]) == Epoch(env, Epochs(env, l, batches), batch)
    decreases |batches|
  {
    if batches == [] {
      assert [] + [batch] == [batch] && [batch][1..] == [];
    } else {
      assert (batches + [batch])[1..] == batches[1..] + [batch];
      EpochsSnoc(env, Epoch(env, l, batches[0]), batches[1..], batch);
    }
  }

  function BlockOf(env: ChainEnv, l: Ledger, batch: Batch): Block {
    ProposedBlock(env, Gather(l, batch.received).chain, None, batch.proposer)
  }

  predicate Succeeds(env: ChainEnv, l: Ledger, batch: Batch) {
    Finalize(env, Gather(l, batch.received), BlockOf(env, l, batch)).1.None?
  }

  /** What was received before each block, and which blocks succeeded. */
  function Turns(env: ChainEnv, l: Ledger, batches: seq<Batch>): (r: seq<Turn>)
    ensures |r| == |batches|
  {
    if batches == [] then []
    else
      var n := |batches| - 1;
      Turns(env, l, batches[..n]) + [Turn(batches[n].received, Succeeds(env, Epochs(env, l, batches[..n]), batches[n]))]
  }

  lemma {:induction false} TurnsSnoc(env: ChainEnv, l: Ledger, batches: seq<Batch>, n: nat)
    requires |batches| == n + 1
    ensures Turns(env, l, batches)[..n] == Turns(env, l, batches[..n])
    ensures Turns(env, l, batches)[n] ==
            Turn(batches[n].received, Succeeds(env, Epochs(env, l, batches[..n]), batches[n]))
  {
  }

  lemma {:induction false} EpochPending(env: ChainEnv, l: Ledger, batch: Batch)
    ensures Epoch(env, l, batch).chain.pending ==
            if Succeeds(env, l, batch) then [] else AddAll(l.chain.pending, batch.received)
  {
    PoolAfter(env, Gather(l, batch.received), BlockOf(env, l, batch));
  }

  lemma {:induction false} LastEpoch(env: ChainEnv, l: Ledger, batches: seq<Batch>, n: nat)
    requires |batches| == n + 1
    ensures Epochs(env, l, batches) == Epoch(env, Epochs(env, l, batches[..n]), batches[n])
  {
    assert batches[..n] + [batches[n]] == batches;
    EpochsSnoc(env, l, batches[..n], batches[n]);
  }

  lemma {:induction false} LeftSnoc(pool: seq<Transaction>, turns: seq<Turn>, n: nat)
    requires |turns| == n + 1
    ensures Left(pool, turns) == if turns[n].ok then [] else AddAll(Left(pool, turns[..n]), turns[n].received)
  {
  }

  lemma {:induction false} PendingIsLeft(env: ChainEnv, l: Ledger, batches: seq<Batch>)
    ensures Epochs(env, l, batches).chain.pending == Left(l.chain.pending, Turns(env, l, batches))
  {
    if batches != [] {
      var n := |batches| - 1;
      PendingIsLeft(env, l, batches[..n]);
      LastEpoch(env, l, batches, n);
      EpochPending(env, Epochs(env, l, batches[..n]), batches[n]);
      TurnsSnoc(env, l, batches, n);
      LeftSnoc(l.chain.pending, Turns(env, l, batches), n);
    }
  }

  function HeldBy(env: ChainEnv, l: Ledger, batches: seq<Batch>): seq<Transaction> {
    Held(l.chain.pending, Turns(env, l, batches), env.id)
  }

  lemma {:induction false} HeldBySnoc(env: ChainEnv, l: Ledger, batches: seq<Batch>, n: nat)
    requires |batches| == n + 1
    ensures var l' := Epochs(env, l, batches[..n]);
            && Epochs(env, l, batches) == Epoch(env, l', batches[n])
            && HeldBy(env, l, batches) ==
               HeldBy(env, l, batches[..n]) +
               if Succeeds(env, l', batches[n]) then BlockOf(env, l', batches[n]).transactions else []
  {
    LastEpoch(env, l, batches, n);
    PendingIsLeft(env, l, batches[..n]);
    TurnsSnoc(env, l, batches, n);
  }

  // ---------- What the blocks pay and draw ----------

  /** What a program credits to `a` if it succeeds. */
  function PaidTo(a: Text): seq<Operation> -> nat {
    (ops: seq<Operation>) =>
      if |ops| == 7 && ops[4].OpPush? && |ops[4].value| == 8 && ops[5] == OpPush(a) && ops[6].OpIncrementBalance?
      then DecodeU64(ops[4].value) else 0
  }

  /** What a program takes from `a` if it succeeds. */
  function DrawnFrom(a: Text): seq<Operation> -> nat {
    (ops: seq<Operation>) =>
      if |ops| == 3 && ops[0].OpPush? && |ops[0].value| == 8 && ops[1] == OpPush(a) && ops[2].OpDecrementBalance?
      then DecodeU64(ops[0].value) else 0
  }

  function Listed(txs: seq<Transaction>): (r: seq<seq<Operation>>)
    ensures |r| == |txs| && forall i :: 0 <= i < |txs| ==> r[i] == txs[i].operations
  {
    seq(|txs|, i requires 0 <= i < |txs| => txs[i].operations)
  }

  lemma {:induction false} MovementAmounts(env: Executor.Env, tx: Transaction, mv: Movement, a: Text)
    requires Encodes(env, tx, mv)
    ensures PaidTo(a)(tx.operations) == if mv.Paid? && mv.user == a then mv.amount else 0
    ensures DrawnFrom(a)(tx.operations) == if mv.Drawn? && mv.user == a then mv.amount else 0
  {
    U64RoundTrip(mv.amount, EncodeU64(mv.amount));
  }

  function BalanceOf(c: ChainState, a: Text): nat {
    AccountOf(c.accounts, a).balance
  }

  lemma {:induction false} MoveBalance(env: Executor.Env, c: ChainState, tx: Transaction, mv: Movement, a: Text)
    requires Encodes(env, tx, mv) && Move(env, c, mv).Some?
    requires BalanceOf(c, a) + PaidTo(a)(tx.operations) < U64_LIMIT
    ensures BalanceOf(Move(env, c, mv).value, a) + DrawnFrom(a)(tx.operations) ==
            BalanceOf(c, a) + PaidTo(a)(tx.operations)
  {
    MovementAmounts(env, tx, mv, a);
  }

  lemma {:induction false} SumCons(s: seq<seq<Operation>>, weight: seq<Operation> -> nat)
    requires s != []
    ensures Sum(s, weight) == weight(s[0]) + Sum(s[1..], weight)
  {
    assert s == [s[0]] + s[1..];
    SumConcat([s[0]], s[1..], weight);
    assert [] + [s[0]] == [s[0]];
    SumSnoc([], s[0], weight);
  }

  /** What the programs pay and draw, from the first on. */
  lemma {:induction false} ListedCons(txs: seq<Transaction>, weight: seq<Operation> -> nat)
    requires txs != []
    ensures Sum(Listed(txs), weight) == weight(txs[0].operations) + Sum(Listed(txs[1..]), weight)
  {
    assert Listed(txs)[1..] == Listed(txs[1..]);
    SumCons(Listed(txs), weight);
  }

  lemma {:induction false} MoveFirst(env: Executor.Env, c: ChainState, mvs: seq<Movement>)
    requires mvs != [] && MoveAll(env, c, mvs).Some?
    ensures Move(env, c, mvs[0]).Some? && MoveAll(env, c, mvs) == MoveAll(env, Move(env, c, mvs[0]).value, mvs[1..])
  {
  }

  /** A block of built transactions that succeeds, and fits in 64 bits. */
  lemma {:induction false} MovesBalance(env: Executor.Env, c: ChainState, txs: seq<Transaction>, mvs: seq<Movement>,
                                        a: Text)
    requires |txs| == |mvs| && (forall i :: 0 <= i < |txs| ==> Encodes(env, txs[i], mvs[i]))
    requires MoveAll(env, c, mvs).Some? && BalanceOf(c, a) + Sum(Listed(txs), PaidTo(a)) < U64_LIMIT
    ensures BalanceOf(MoveAll(env, c, mvs).value, a) + Sum(Listed(txs), DrawnFrom(a)) ==
            BalanceOf(c, a) + Sum(Listed(txs), PaidTo(a))
    decreases |txs|
  {
    if txs != [] {
      var tx, mv := txs[0], mvs[0];
      MoveFirst(env, c, mvs);
      var c' := Move(env, c, mv).value;
      ListedCons(txs, PaidTo(a));
      ListedCons(txs, DrawnFrom(a));
      assert BalanceOf(c', a) + DrawnFrom(a)(tx.operations) == BalanceOf(c, a) + PaidTo(a)(tx.operations) by {
        MoveBalance(env, c, tx, mv, a);
      }
      MovesBalance(env, c', txs[1..], mvs[1..], a);
    }
  }

  lemma {:induction false} BlockBuilt(env: ChainEnv, l: Ledger, batch: Batch, all: seq<Transaction>)
    requires AllBuilt(env, all) && AllIn(l.chain.pending, all) && AllIn(batch.received, all)
    ensures forall t :: t in BlockOf(env, l, batch).transactions ==> Built(env.exec, t)
  {
    AddAllMembers(l.chain.pending, batch.received);
    SortedMembers(Gather(l, batch.received).chain.pending, env.id);
  }

  lemma {:induction false} EpochBalance(env: ChainEnv, l: Ledger, batch: Batch, all: seq<Transaction>, a: Text)
    requires Settled(l) && AllBuilt(env, all) && AllIn(l.chain.pending, all) && AllIn(batch.received, all)
    requires var txs := BlockOf(env, l, batch).transactions;
             Succeeds(env, l, batch) ==> BalanceOf(l.chain, a) + Sum(Listed(txs), PaidTo(a)) < U64_LIMIT
    ensures var l', txs := Epoch(env, l, batch), BlockOf(env, l, batch).transactions;
            if Succeeds(env, l, batch)
            then BalanceOf(l'.chain, a) + Sum(Listed(txs), DrawnFrom(a)) ==
                 BalanceOf(l.chain, a) + Sum(Listed(txs), PaidTo(a))
            else BalanceOf(l'.chain, a) == BalanceOf(l.chain, a)
  {
    var g, b := Gather(l, batch.received), BlockOf(env, l, batch);
    AllOrNothing(env, g, b);
    if Succeeds(env, l, batch) {
      BlockBuilt(env, l, batch, all);
      var mvs := MovementsOf(env.exec, b.transactions);
      var m := Machine(g.stack, g.allowance, NextState(g.chain));
      assert NoAllowance(m) by {
        forall x ensures Allowance(m, x) == 0 { assert Entry(l.allowance, x) == 0; }
      }
      BlockIsMovements(env.exec, m, b.transactions, mvs);
      MovesBalance(env.exec, m.chain, b.transactions, mvs, a);
    }
  }

  lemma {:induction false} ListedConcat(s: seq<Transaction>, t: seq<Transaction>, weight: seq<Operation> -> nat)
    ensures Sum(Listed(s + t), weight) == Sum(Listed(s), weight) + Sum(Listed(t), weight)
  {
    assert Listed(s + t) == Listed(s) + Listed(t);
    SumConcat(Listed(s), Listed(t), weight);
  }

  /** Over any number of blocks of built transactions, failed ones included: an
      account gains what the transactions of the blocks that succeeded pay it,
      each as often as it is in one, less what they draw. */
  lemma {:induction false} BalanceIsHeld(env: ChainEnv, l: Ledger, batches: seq<Batch>, all: seq<Transaction>, a: Text)
    requires Settled(l) && AllBuilt(env, all) && AllIn(l.chain.pending, all)
    requires forall i :: 0 <= i < |batches| ==> AllIn(batches[i].received, all)
    requires BalanceOf(l.chain, a) + Sum(Listed(HeldBy(env, l, batches)), PaidTo(a)) < U64_LIMIT
    ensures var held := Listed(HeldBy(env, l, batches));
            BalanceOf(Epochs(env, l, batches).chain, a) + Sum(held, DrawnFrom(a)) ==
            BalanceOf(l.chain, a) + Sum(held, PaidTo(a))
  {
    if batches != [] {
      var n := |batches| - 1;
      var l', held := Epochs(env, l, batches[..n]), HeldBy(env, l, batches[..n]);
      var block := if Succeeds(env, l', batches[n]) then BlockOf(env, l', batches[n]).transactions else [];
      HeldBySnoc(env, l, batches, n);
      ListedConcat(held, block, PaidTo(a));
      ListedConcat(held, block, DrawnFrom(a));
      BalanceIsHeld(env, l, batches[..n], all, a);
      EpochsSettled(env, l, batches[..n], all);
      EpochsPending(env, l, batches[..n], all);
      EpochBalance(env, l', batches[n], all, a);
    }
  }

  lemma {:induction false} EpochsPending(env: ChainEnv, l: Ledger, batches: seq<Batch>, all: seq<Transaction>)
    requires AllIn(l.chain.pending, all) && forall i :: 0 <= i < |batches| ==> AllIn(batches[i].received, all)
    ensures AllIn(Epochs(env, l, batches).chain.pending, all)
  {
    if batches != [] {
      var n := |batches| - 1;
      var l' := Epochs(env, l, batches[..n]);
      EpochsPending(env, l, batches[..n], all);
      LastEpoch(env, l, batches, n);
      EpochPending(env, l', batches[n]);
      AddAllMembers(l'.chain.pending, batches[n].received);
    }
  }

  // ---------- Credited once ----------

  lemma {:induction false} RepeatsAreTwice(txs: seq<Transaction>, a: Text)
    ensures RepeatsWeightless(Listed(txs), PaidTo(a)) <==> forall ops :: PaidTo(a)(ops) > 0 ==> !Twice(txs, ops)
  {
    var s := Listed(txs);
    if RepeatsWeightless(s, PaidTo(a)) {
      forall ops | Twice(txs, ops)
        ensures PaidTo(a)(ops) == 0
      {
        var i: nat, j: nat :| Both(txs, i, j, ops);
        assert s[i] == ops && s[j] == ops;
      }
    }
    if forall ops :: PaidTo(a)(ops) > 0 ==> !Twice(txs, ops) {
      forall i, j | 0 <= i < j < |s| && s[i] == s[j]
        ensures PaidTo(a)(s[i]) == 0
      {
        assert Both(txs, i, j, s[i]);
      }
    }
  }

  /** What the blocks credit to an account is what its deposits pay, each
      counted once, exactly if none of a positive amount is replayed: received
      again after a block that held it succeeded and before another does, or
      sent in two different transactions. */
  lemma {:induction false} CreditedOnceIff(env: ChainEnv, l: Ledger, batches: seq<Batch>, a: Text)
    requires Distinct(l.chain.pending)
    ensures var held, turns := Listed(HeldBy(env, l, batches)), Turns(env, l, batches);
            && Sum(Firsts(held), PaidTo(a)) <= Sum(held, PaidTo(a))
            && (Sum(held, PaidTo(a)) == Sum(Firsts(held), PaidTo(a)) <==>
                forall ops :: PaidTo(a)(ops) > 0 ==> !Replayed(l.chain.pending, turns, ops))
  {
    var txs, turns := HeldBy(env, l, batches), Turns(env, l, batches);
    SumFirsts(Listed(txs), PaidTo(a));
    RepeatsAreTwice(txs, a);
    forall ops
      ensures Twice(txs, ops) <==> Replayed(l.chain.pending, turns, ops)
    {
      HeldIs(l.chain.pending, turns, env.id, ops);
      HeldTwiceIsReplayed(l.chain.pending, turns, ops);
    }
  }

  // ---------- Runs in which a deposit is credited twice ----------

  lemma {:induction false} DepositAlone(env: ChainEnv, l: Ledger, t: Transaction, user: Text, amount: u64, txid: Bytes,
                                        p: Option<PeerId>)
    requires Settled(l) && l.chain.pending == [] && Encodes(env.exec, t, Paid(user, amount, txid))
    requires env.exec.oracle(user, amount, txid).Approved? && BalanceOf(l.chain, user) + amount < U64_LIMIT
    ensures var l' := Epoch(env, l, Batch([t], p));
            Settled(l') && l'.chain.pending == [] && BalanceOf(l'.chain, user) == BalanceOf(l.chain, user) + amount
  {
    var batch := Batch([t], p);
    var g, b, mv := Gather(l, [t]), BlockOf(env, l, batch), Paid(user, amount, txid);
    assert Built(env.exec, t);
    assert g.chain.pending == [t] by {
      assert [t][1..] == [] && AddPending([], t) == [t];
      assert AddAll([], [t]) == AddAll([t], []);
    }
    assert b.transactions == [t] by {
      SortedMembers([t], env.id);
    }
    var m := Machine(g.stack, g.allowance, NextState(g.chain));
    assert NoAllowance(m) by {
      forall x ensures Allowance(m, x) == 0 { assert Entry(l.allowance, x) == 0; }
    }
    BlockIsMovements(env.exec, m, [t], [mv]);
    assert [mv][1..] == [];
    assert MoveAll(env.exec, m.chain, [mv]) == Move(env.exec, m.chain, mv);
    PoolAfter(env, g, b);
    EpochSettled(env, l, batch, [t]);
    AllOrNothing(env, g, b);
  }

  /** One approved deposit, received again once its block has succeeded, is
      credited twice. */
  lemma {:induction false} ReceivedTwiceCreditedTwice(env: ChainEnv, l: Ledger, t: Transaction, user: Text, amount: u64,
                                                      txid: Bytes, p: Option<PeerId>)
    requires Settled(l) && l.chain.pending == [] && Encodes(env.exec, t, Paid(user, amount, txid))
    requires env.exec.oracle(user, amount, txid).Approved? && BalanceOf(l.chain, user) + 2 * amount < U64_LIMIT
    ensures var l' := Epochs(env, l, [Batch([t], p), Batch([t], p)]);
            BalanceOf(l'.chain, user) == BalanceOf(l.chain, user) + 2 * amount
  {
    var b := Batch([t], p);
    var l1 := Epoch(env, l, b);
    DepositAlone(env, l, t, user, amount, txid, p);
    DepositAlone(env, l1, t, user, amount, txid, p);
    assert [b, b][1..] == [b] && [b][1..] == [];
    assert Epochs(env, l, [b, b]) == Epochs(env, l1, [b]);
    assert Epochs(env, l1, [b]) == Epochs(env, Epoch(env, l1, b), []);
  }
}
