/** The chain actor: pending pool, proposed blocks, and their finalisation. */
module Chain {
  import opened Prelude
  import opened Bytes
  import opened Sorting
  import opened Protocol
  import opened Executor

  /** A peer, by its place in the library's total order on peer ids. */
  type PeerId = nat

  // Hashes are taken to be free of collisions, so a hash is what was hashed.
  datatype BlockHash = ZeroHash | HashOf(block: Block)

  datatype StateRoot = StateRoot(transactions: seq<Transaction>, proposer: Option<PeerId>, height: nat)

  datatype BlockHeader = BlockHeader(version: nat, previous: BlockHash, stateRoot: StateRoot, height: nat,
                                     proposer: Option<PeerId>)

  datatype Block = Block(header: BlockHeader, transactions: seq<Transaction>)

  datatype Store = Store(blocks: map<BlockHash, Block>, byHeight: map<nat, BlockHash>, tip: Option<BlockHash>,
                         flushed: Option<ChainState>)

  /** `id` is the transaction id read as a number. */
  datatype ChainEnv = ChainEnv(exec: Executor.Env, id: Transaction -> int)

  /** The chain state, what the executor carries from block to block, the database. */
  datatype Ledger = Ledger(chain: ChainState, stack: seq<Bytes>, allowance: map<Text, u64>, store: Store)

  function NewBlock(previous: BlockHash, height: nat, txs: seq<Transaction>, proposer: Option<PeerId>): Block {
    Block(BlockHeader(1, previous, StateRoot(txs, proposer, height), height, proposer), txs)
  }

  function ProposedBlock(env: ChainEnv, c: ChainState, previous: Option<Block>, proposer: Option<PeerId>): Block {
    NewBlock(if previous.None? then ZeroHash else HashOf(previous.value), c.height + 1,
             SortByKey(c.pending, env.id), proposer)
  }

  function NextState(c: ChainState): ChainState {
    c.(height := c.height + 1)
  }

  function RunAll(env: Executor.Env, m: Machine, txs: seq<Transaction>): Outcome
    decreases |txs|
  {
    if txs == [] then Outcome(m, None)
    else
      var r := Run(env, m, txs[0].operations);
      if r.error.Some? then r else RunAll(env, r.m, txs[1..])
  }

  function Stored(s: Store, b: Block, c: ChainState): Store {
    Store(s.blocks[HashOf(b) := b], s.byHeight[b.header.height := HashOf(b)], Some(HashOf(b)), Some(c))
  }

  function Execution(env: ChainEnv, l: Ledger, b: Block): Outcome {
    RunAll(env.exec, Machine(l.stack, l.allowance, NextState(l.chain)), b.transactions)
  }

  function Finalize(env: ChainEnv, l: Ledger, b: Block): (Ledger, Option<Error>) {
    var r := Execution(env, l, b);
    if r.error.Some? then (l.(stack := r.m.stack, allowance := r.m.allowance), r.error)
    else (Ledger(r.m.chain.(pending := []), r.m.stack, r.m.allowance, Stored(l.store, b, r.m.chain)), None)
  }

  /** The four writes of a block, in order: the block, its height, the tip and
      the chain state. The first `writes` of them succeed. */
  const WRITES: nat := 4

  function Written(s: Store, b: Block, c: ChainState, writes: nat): Store {
    Store(if writes > 0 then s.blocks[HashOf(b) := b] else s.blocks,
          if writes > 1 then s.byHeight[b.header.height := HashOf(b)] else s.byHeight,
          if writes > 2 then Some(HashOf(b)) else s.tip,
          if writes > 3 then Some(c) else s.flushed)
  }

  /** Finalisation on a database that may fail. */
  function FinalizeOn(env: ChainEnv, l: Ledger, b: Block, writes: nat): (Ledger, Option<Error>) {
    var r := Execution(env, l, b);
    if r.error.Some? || writes >= WRITES then Finalize(env, l, b)
    else (Ledger(l.chain, r.m.stack, r.m.allowance, Written(l.store, b, r.m.chain, writes)), Some(StorageFailed))
  }

  function Operations(txs: seq<Transaction>): seq<Operation> {
    if txs == [] then [] else txs[0].operations + Operations(txs[1..])
  }

  /** Transactions share one machine: a block is one long program. */
  lemma {:induction false} BlockIsOneProgram(env: Executor.Env, m: Machine, txs: seq<Transaction>)
    ensures RunAll(env, m, txs) == Run(env, m, Operations(txs))
    decreases |txs|
  {
    if txs != [] {
      var r := Run(env, m, txs[0].operations);
      RunConcat(env, m, txs[0].operations, Operations(txs[1..]));
      if r.error.None? {
        BlockIsOneProgram(env, r.m, txs[1..]);
      }
    }
  }

  /** Operations touch nothing of the chain state but accounts. */
  lemma {:induction false} RunKeeps(env: Executor.Env, m: Machine, ops: seq<Operation>)
    ensures var c := Run(env, m, ops).m.chain;
            c == m.chain.(accounts := c.accounts)
    decreases |ops|
  {
    if ops != [] {
      var r := Step(env, m, ops[0]);
      if r.error.None? {
        RunKeeps(env, r.m, ops[1..]);
      }
    }
  }

  /** A block is applied whole or not at all: after a failure accounts, height,
      intents, pool and database are untouched; after success the block is the
      stored tip at the new height and nothing is pending. */
  lemma {:induction false} AllOrNothing(env: ChainEnv, l: Ledger, b: Block)
    ensures var (l', error) := Finalize(env, l, b);
            if error.Some? then l'.chain == l.chain && l'.store == l.store
            else
              && l'.chain.height == l.chain.height + 1 && l'.chain.pending == [] && l'.chain.intents == l.chain.intents
              && l'.chain.accounts == Run(env.exec, Machine(l.stack, l.allowance, NextState(l.chain)),
                                          Operations(b.transactions)).m.chain.accounts
              && l'.store.tip == Some(HashOf(b)) && HashOf(b) in l'.store.blocks && l'.store.blocks[HashOf(b)] == b
              && b.header.height in l'.store.byHeight && l'.store.byHeight[b.header.height] == HashOf(b)
  {
    var m := Machine(l.stack, l.allowance, NextState(l.chain));
    BlockIsOneProgram(env.exec, m, b.transactions);
    RunKeeps(env.exec, m, Operations(b.transactions));
  }

  /** A block that succeeds empties the pool, so a pending transaction is lost,
      neither executed nor pending any more, exactly if the block does not
      contain it. A node asks for its block and has it finalised in two steps:
      what is received in between is lost, and nothing else. */
  lemma {:induction false} LostBetween(env: ChainEnv, l: Ledger, received: seq<Transaction>, proposer: Option<PeerId>)
    ensures var b := ProposedBlock(env, l.chain, None, proposer);
            var now := l.(chain := l.chain.(pending := AddAll(l.chain.pending, received)));
            var (l', error) := Finalize(env, now, b);
            error.None? ==>
              forall t :: t in now.chain.pending ==>
                            (t !in b.transactions && t !in l'.chain.pending <==> t in received && t !in l.chain.pending)
  {
    AddAllMembers(l.chain.pending, received);
    SortedMembers(l.chain.pending, env.id);
  }

  /** Whatever fails, the node's own chain state moves whole or not at all; but
      a database that fails late is left with the tip of a block that the chain
      state, in memory and stored, does not have. */
  lemma {:induction false} FailedWrites(env: ChainEnv, l: Ledger, b: Block, writes: nat)
    ensures var (l', error) := FinalizeOn(env, l, b, writes);
            && (error.Some? ==> l'.chain == l.chain && l'.store.flushed == l.store.flushed)
            && (error.None? ==> l'.chain.height == l.chain.height + 1 && l'.store.tip == Some(HashOf(b)))
            && (error == Some(StorageFailed) && l.store.tip != Some(HashOf(b)) ==>
                  (l'.store.tip == Some(HashOf(b)) <==> writes == 3))
            && (error.None? <==> writes >= WRITES && Execution(env, l, b).error.None?)
  {
    AllOrNothing(env, l, b);
    NeverStorage(env.exec, Machine(l.stack, l.allowance, NextState(l.chain)), b.transactions);
  }

  lemma {:induction false} NeverStorage(env: Executor.Env, m: Machine, txs: seq<Transaction>)
    ensures RunAll(env, m, txs).error != Some(StorageFailed)
    decreases |txs|
  {
    BlockIsOneProgram(env, m, txs);
    RunNeverStorage(env, m, Operations(txs));
  }

  lemma {:induction false} RunNeverStorage(env: Executor.Env, m: Machine, ops: seq<Operation>)
    ensures Run(env, m, ops).error != Some(StorageFailed)
    decreases |ops|
  {
    if ops != [] {
      var r := Step(env, m, ops[0]);
      assert r.error != Some(StorageFailed);
      if r.error.None? {
        RunNeverStorage(env, r.m, ops[1..]);
      }
    }
  }

  class ChainInterface {
    const env: ChainEnv
    const executor: TransactionExecutor
    var chainState: ChainState
    var store: Store

    ghost predicate Valid() {
      executor.env == env.exec
    }

    ghost function View(): Ledger
      reads this, executor
    {
      Ledger(chainState, executor.stack, executor.allowanceList, store)
    }

    constructor (env: ChainEnv, executor: TransactionExecutor, chainState: ChainState, store: Store)
      requires executor.env == env.exec
      ensures Valid() && this.env == env && this.executor == executor
      ensures View() == Ledger(chainState, executor.stack, executor.allowanceList, store)
    {
      this.env, this.executor, this.chainState, this.store := env, executor, chainState, store;
    }

    method AddTransactionToBlock(tx: Transaction)
      modifies this`chainState
      ensures chainState == old(chainState).(pending := AddPending(old(chainState.pending), tx))
    {
      if tx !in chainState.pending {
        chainState := chainState.(pending := chainState.pending + [tx]);
      }
    }

    method GetProposedBlock(previous: Option<Block>, proposer: Option<PeerId>) returns (b: Block)
      ensures b == ProposedBlock(env, chainState, previous, proposer)
      ensures b.header.height == chainState.height + 1
      ensures multiset(b.transactions) == multiset(chainState.pending) && SortedBy(b.transactions, env.id)
    {
      var sorted := SortByKey(chainState.pending, env.id);
      SortSorted(chainState.pending, env.id);
      b := NewBlock(if previous.None? then ZeroHash else HashOf(previous.value), chainState.height + 1, sorted,
        proposer);
    }

    method FinalizeAndStoreBlock(b: Block, writes: nat) returns (error: Option<Error>)
      requires Valid()
      modifies this, executor
      ensures Valid()
      ensures (View(), error) == FinalizeOn(env, old(View()), b, writes)
    {
      var newChainState := NextState(chainState);
      ghost var start := Machine(executor.stack, executor.allowanceList, newChainState);
      ghost var out := RunAll(env.exec, start, b.transactions);
      var i := 0;
      assert b.transactions[0..] == b.transactions;
      while i < |b.transactions|
        invariant 0 <= i <= |b.transactions|
        invariant chainState == old(chainState) && store == old(store)
        invariant out == RunAll(env.exec, Machine(executor.stack, executor.allowanceList, newChainState),
                  b.transactions[i..])
      {
        assert b.transactions[i..][1..] == b.transactions[i + 1..];
        var r := executor.ExecuteTransaction(b.transactions[i], newChainState);
        if r.Err? {
          return Some(r.error);
        }
        newChainState := r.value;
        i := i + 1;
      }
      store := Written(store, b, newChainState, writes);
      if writes < WRITES {
        return Some(StorageFailed);
      }
      chainState := newChainState;
      chainState := chainState.(pending := []);
      return None;
    }
  }
}
