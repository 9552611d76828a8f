/** What the database keeps of the blocks that were finalised. */
module History {
  import opened Prelude
  import opened Protocol
  import opened Chain
  import opened Convergence
  import opened Replays

  /** The block of a height can be looked up. */
  ghost predicate Recorded(s: Store, h: nat, b: Block) {
    && b.header.height == h && h in s.byHeight && s.byHeight[h] == HashOf(b)
    && HashOf(b) in s.blocks && s.blocks[HashOf(b)] == b
  }

  function AllTransactions(blocks: seq<Block>): seq<Transaction> {
    if blocks == [] then [] else AllTransactions(blocks[..|blocks| - 1]) + blocks[|blocks| - 1].transactions
  }

  /** Nothing recorded up to a height is lost. */
  ghost predicate Keeps(s: Store, s': Store, h: nat) {
    forall k: nat, b :: k <= h && Recorded(s, k, b) ==> Recorded(s', k, b)
  }

  /** `blocks` are what the store gained, from height `h` on. */
  ghost predicate Gained(s: Store, s': Store, h: nat, blocks: seq<Block>) {
    && (forall i :: 0 <= i < |blocks| ==> Recorded(s', h + 1 + i, blocks[i])) && Keeps(s, s', h)
    && (if blocks == [] then s' == s else s'.tip == Some(HashOf(blocks[|blocks| - 1])))
  }

  /** The state last written, if a block was, is that of the chain: what a restart
      would find. */
  ghost predicate Flushed(s': Store, chain: Executor.ChainState) {
    s'.flushed.Some? && s'.flushed.value.accounts == chain.accounts && s'.flushed.value.height == chain.height
  }

  lemma {:induction false} FinalizeStores(env: ChainEnv, l: Ledger, b: Block)
    requires b.header.height == l.chain.height + 1
    ensures var (l', error) := Finalize(env, l, b);
            if error.Some? then l'.store == l.store && l'.chain == l.chain
            else
              && l'.chain.height == l.chain.height + 1 && Recorded(l'.store, l'.chain.height, b)
              && Keeps(l.store, l'.store, l.chain.height) && l'.store.tip == Some(HashOf(b))
              && Flushed(l'.store, l'.chain)
  {
    AllOrNothing(env, l, b);
    var m := Executor.Machine(l.stack, l.allowance, NextState(l.chain));
    BlockIsOneProgram(env.exec, m, b.transactions);
    RunKeeps(env.exec, m, Operations(b.transactions));
  }

  lemma {:induction false} EpochStores(env: ChainEnv, l: Ledger, batch: Batch)
    ensures var l' := Epoch(env, l, batch);
            var b := BlockOf(env, l, batch);
            if Succeeds(env, l, batch) then
              && l'.chain.height == l.chain.height + 1 && Recorded(l'.store, l'.chain.height, b)
              && Keeps(l.store, l'.store, l.chain.height) && l'.store.tip == Some(HashOf(b))
              && Flushed(l'.store, l'.chain)
            else l'.store == l.store && l'.chain.height == l.chain.height && l'.chain.accounts == l.chain.accounts
  {
    FinalizeStores(env, Gather(l, batch.received), BlockOf(env, l, batch));
  }

  lemma {:induction false} GainedSnoc(s: Store, mid: Store, s': Store, h: nat, blocks: seq<Block>, b: Block)
    requires Gained(s, mid, h, blocks) && Recorded(s', h + 1 + |blocks|, b) && s'.tip == Some(HashOf(b))
    requires Keeps(mid, s', h + |blocks|)
    ensures Gained(s, s', h, blocks + [b])
  {
    var all := blocks + [b];
    forall i | 0 <= i < |all|
      ensures Recorded(s', h + 1 + i, all[i])
    {
      if i < |blocks| {
        assert Recorded(mid, h + 1 + i, blocks[i]);
      }
    }
  }

  /** `blocks`, which hold `held`, lead from one ledger to the other. */
  ghost predicate Kept(l: Ledger, l': Ledger, blocks: seq<Block>, held: seq<Transaction>) {
    && l'.chain.height == l.chain.height + |blocks| && Gained(l.store, l'.store, l.chain.height, blocks)
    && AllTransactions(blocks) == held && (blocks != [] ==> Flushed(l'.store, l'.chain))
  }

  lemma {:induction false} KeptSnoc(l: Ledger, mid: Ledger, l': Ledger, blocks: seq<Block>, held: seq<Transaction>,
                                    b: Block)
    requires Kept(l, mid, blocks, held)
    requires l'.chain.height == mid.chain.height + 1 && Recorded(l'.store, l'.chain.height, b)
    requires Keeps(mid.store, l'.store, mid.chain.height) && l'.store.tip == Some(HashOf(b))
    requires Flushed(l'.store, l'.chain)
    ensures Kept(l, l', blocks + [b], held + b.transactions)
  {
    GainedSnoc(l.store, mid.store, l'.store, l.chain.height, blocks, b);
    assert (blocks + [b])[..|blocks|] == blocks;
  }

  lemma {:induction false} KeptSame(l: Ledger, mid: Ledger, l': Ledger, blocks: seq<Block>, held: seq<Transaction>)
    requires Kept(l, mid, blocks, held) && l'.store == mid.store
    requires l'.chain.height == mid.chain.height && l'.chain.accounts == mid.chain.accounts
    ensures Kept(l, l', blocks, held)
  {
  }

  /** Over any number of blocks, failed ones included, the database gains exactly
      the blocks that succeeded, one per height, each with the transactions it
      held; nothing recorded before is lost, the tip is the last of them, and the
      state written with it has the accounts and the height of the chain. */
  lemma {:induction false} HistoryKept(env: ChainEnv, l: Ledger, batches: seq<Batch>) returns (blocks: seq<Block>)
    ensures Kept(l, Epochs(env, l, batches), blocks, HeldBy(env, l, batches))
  {
    if batches == [] {
      blocks := [];
      NothingHeld(env, l);
    } else {
      var n := |batches| - 1;
      var mid, l' := Epochs(env, l, batches[..n]), Epochs(env, l, batches);
      var held := HeldBy(env, l, batches[..n]);
      blocks := HistoryKept(env, l, batches[..n]);
      HeldBySnoc(env, l, batches, n);
      EpochStores(env, mid, batches[n]);
      if Succeeds(env, mid, batches[n]) {
        var b := BlockOf(env, mid, batches[n]);
        KeptSnoc(l, mid, l', blocks, held, b);
        blocks := blocks + [b];
      } else {
        assert held + [] == held;
        KeptSame(l, mid, l', blocks, held);
      }
    }
  }

  lemma {:induction false} NothingHeld(env: ChainEnv, l: Ledger)
    ensures HeldBy(env, l, []) == []
  {
  }
}
