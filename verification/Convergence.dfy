/** Replicas that received the same transactions reach the same accounts. */
module Convergence {
  import opened Prelude
  import opened Bytes
  import opened Sorting
  import opened Protocol
  import opened Executor
  import opened Programs
  import opened Chain

  // ---------- The pool and the proposed list ----------

  lemma {:induction false} PoolContents(pool: seq<Transaction>, txs: seq<Transaction>)
    requires Distinct(pool)
    ensures Distinct(AddAll(pool, txs))
    ensures forall t :: t in AddAll(pool, txs) <==> t in pool || t in txs
  {
    AddAllMembers(pool, txs);
    AddAllDistinct(pool, txs);
  }

  ghost predicate SamePool(p1: seq<Transaction>, p2: seq<Transaction>) {
    Distinct(p1) && Distinct(p2) && forall t :: t in p1 <==> t in p2
  }

  lemma {:induction false} SamePoolGrows(p1: seq<Transaction>, p2: seq<Transaction>,
                                         received1: seq<Transaction>, received2: seq<Transaction>)
    requires SamePool(p1, p2)
    requires forall t :: t in received1 <==> t in received2
    ensures SamePool(AddAll(p1, received1), AddAll(p2, received2))
  {
    PoolContents(p1, received1);
    PoolContents(p2, received2);
  }

  /** The same pending transactions, in any order, give the same proposed list. */
  lemma {:induction false} SameProposal(env: ChainEnv, p1: seq<Transaction>, p2: seq<Transaction>)
    requires SamePool(p1, p2) && InjectiveOn(p1, env.id)
    ensures SortByKey(p1, env.id) == SortByKey(p2, env.id)
  {
    DistinctSameElements(p1, p2);
    SortedSame(p1, p2, env.id);
  }

  // ---------- Equal up to the stack ----------

  ghost predicate SameAllowances(t1: map<Text, u64>, t2: map<Text, u64>) {
    forall a :: Entry(t1, a) == Entry(t2, a)
  }

  ghost predicate Agree(m1: Machine, m2: Machine) {
    m1.chain.accounts == m2.chain.accounts && SameAllowances(m1.allowance, m2.allowance)
  }

  lemma {:induction false} UpdateAgrees(t1: map<Text, u64>, t2: map<Text, u64>, k: Text, v: u64)
    requires SameAllowances(t1, t2)
    ensures SameAllowances(t1[k := v], t2[k := v])
  {
    var u1, u2 := t1[k := v], t2[k := v];
    forall a
      ensures Entry(u1, a) == Entry(u2, a)
    {
      assert Entry(t1, a) == Entry(t2, a);
    }
  }

  lemma {:induction false} CheckOracleAgrees(env: Executor.Env, m1: Machine, m2: Machine)
    requires m1.stack == m2.stack && Agree(m1, m2)
    ensures var r1, r2 := CheckOracle(env, m1), CheckOracle(env, m2);
            r1.error == r2.error && r1.m.stack == r2.m.stack && Agree(r1.m, r2.m)
  {
    var q := PopQuery(env, m1.stack).args;
    if q.Ok? && env.oracle(q.value.address, q.value.amount, q.value.txHash).Approved? {
      var a := q.value.address;
      assert Entry(m1.allowance, a) == Entry(m2.allowance, a);
      var v := WrappingAdd(Entry(m1.allowance, a), q.value.amount);
      UpdateAgrees(m1.allowance, m2.allowance, a, v);
      assert CheckOracle(env, m1).m.allowance == m1.allowance[a := v];
      assert CheckOracle(env, m2).m.allowance == m2.allowance[a := v];
    }
  }

  lemma {:induction false} IncrementAgrees(env: Executor.Env, m1: Machine, m2: Machine)
    requires m1.stack == m2.stack && Agree(m1, m2)
    ensures var r1, r2 := IncrementBalance(env, m1), IncrementBalance(env, m2);
            r1.error == r2.error && r1.m.stack == r2.m.stack && Agree(r1.m, r2.m)
  {
    var t := PopTransfer(env, m1.stack).args;
    if t.Ok? {
      var a := t.value.address;
      assert Entry(m1.allowance, a) == Entry(m2.allowance, a);
      if t.value.amount <= Allowance(m1, a) {
        UpdateAgrees(m1.allowance, m2.allowance, a, Allowance(m1, a) - t.value.amount);
      }
    }
  }

  lemma {:induction false} StepAgrees(env: Executor.Env, m1: Machine, m2: Machine, op: Operation)
    requires m1.stack == m2.stack && Agree(m1, m2)
    ensures var r1, r2 := Step(env, m1, op), Step(env, m2, op);
            r1.error == r2.error && r1.m.stack == r2.m.stack && Agree(r1.m, r2.m)
  {
    match op
    case OpCheckOracle => CheckOracleAgrees(env, m1, m2);
    case OpIncrementBalance => IncrementAgrees(env, m1, m2);
    case OpPush(_) =>
    case OpDecrementBalance =>
  }

  lemma {:induction false} RunAgrees(env: Executor.Env, m1: Machine, m2: Machine, ops: seq<Operation>)
    requires m1.stack == m2.stack && Agree(m1, m2)
    ensures var r1, r2 := Run(env, m1, ops), Run(env, m2, ops);
            r1.error == r2.error && Agree(r1.m, r2.m)
    decreases |ops|
  {
    if ops != [] {
      StepAgrees(env, m1, m2, ops[0]);
      if Step(env, m1, ops[0]).error.None? {
        RunAgrees(env, Step(env, m1, ops[0]).m, Step(env, m2, ops[0]).m, ops[1..]);
      }
    }
  }

  lemma {:induction false} StackIrrelevant(env: Executor.Env, m: Machine, ops: seq<Operation>)
    requires SelfContained(ops)
    ensures var r, bare := Run(env, m, ops), Run(env, m.(stack := []), ops);
            r.error == bare.error && r.m.chain == bare.m.chain && r.m.allowance == bare.m.allowance
  {
    var empty := m.(stack := []);
    NoUnderflow(env, empty, ops);
    RunFrame(env, m.stack, empty, ops);
    assert m.stack + [] == m.stack;
    assert Under(m.stack, empty) == m;
  }

  lemma {:induction false} ContainedBlock(txs: seq<Transaction>)
    requires forall i :: 0 <= i < |txs| ==> SelfContained(txs[i].operations)
    ensures SelfContained(Operations(txs))
  {
    if txs != [] {
      var a, b := txs[0].operations, Operations(txs[1..]);
      ContainedBlock(txs[1..]);
      DepthConcat(a, b, 0);
      DepthMonotone(b, 0, Depth(a, 0).value);
    }
  }

  ghost predicate Replicas(l1: Ledger, l2: Ledger) {
    && l1.chain.accounts == l2.chain.accounts
    && l1.chain.height == l2.chain.height
    && SameAllowances(l1.allowance, l2.allowance)
  }

  lemma {:induction false} SameTransactionsSameResult(env: ChainEnv, l1: Ledger, l2: Ledger, b1: Block, b2: Block)
    requires Replicas(l1, l2)
    requires b1.transactions == b2.transactions
    requires forall i :: 0 <= i < |b1.transactions| ==> SelfContained(b1.transactions[i].operations)
    ensures Replicas(Finalize(env, l1, b1).0, Finalize(env, l2, b2).0)
    ensures Finalize(env, l1, b1).1 == Finalize(env, l2, b2).1
  {
    var txs := b1.transactions;
    var m1 := Machine(l1.stack, l1.allowance, NextState(l1.chain));
    var m2 := Machine(l2.stack, l2.allowance, NextState(l2.chain));
    var e1, e2 := m1.(stack := []), m2.(stack := []);
    BlockIsOneProgram(env.exec, m1, txs);
    BlockIsOneProgram(env.exec, m2, txs);
    ContainedBlock(txs);
    StackIrrelevant(env.exec, m1, Operations(txs));
    StackIrrelevant(env.exec, m2, Operations(txs));
    RunAgrees(env.exec, e1, e2, Operations(txs));
    AllOrNothing(env, l1, b1);
    AllOrNothing(env, l2, b2);
  }

  lemma {:induction false} ProposalContained(env: ChainEnv, pool: seq<Transaction>)
    requires forall t :: t in pool ==> Built(env.exec, t)
    ensures var txs := SortByKey(pool, env.id);
            forall i :: 0 <= i < |txs| ==> SelfContained(txs[i].operations)
  {
    var txs := SortByKey(pool, env.id);
    forall i | 0 <= i < |txs|
      ensures SelfContained(txs[i].operations)
    {
      assert txs[i] in multiset(txs);
      assert txs[i] in multiset(pool);
      BuiltSelfContained(env.exec, txs[i]);
    }
  }

  /** Two replicas with the same constructor-built transactions pending, in any
      order, propose the same list, and on finalising their own proposals both
      fail or both reach the same accounts and height, whatever their leftover
      stacks and whoever they name as proposer. */
  lemma {:induction false} ReplicasConverge(env: ChainEnv, l1: Ledger, l2: Ledger,
                                            proposer1: Option<PeerId>, proposer2: Option<PeerId>)
    requires Replicas(l1, l2) && SamePool(l1.chain.pending, l2.chain.pending)
    requires InjectiveOn(l1.chain.pending, env.id)
    requires forall t :: t in l1.chain.pending ==> Built(env.exec, t)
    ensures var b1 := ProposedBlock(env, l1.chain, None, proposer1);
            var b2 := ProposedBlock(env, l2.chain, None, proposer2);
            && b1.transactions == b2.transactions && b1.header.height == b2.header.height
            && Finalize(env, l1, b1).1 == Finalize(env, l2, b2).1
            && Replicas(Finalize(env, l1, b1).0, Finalize(env, l2, b2).0)
  {
    SameProposal(env, l1.chain.pending, l2.chain.pending);
    var b1 := ProposedBlock(env, l1.chain, None, proposer1);
    var b2 := ProposedBlock(env, l2.chain, None, proposer2);
    ProposalContained(env, l1.chain.pending);
    SameTransactionsSameResult(env, l1, l2, b1, b2);
  }

  // ---------- Whole runs ----------

  /** What a replica receives before it finalises its own next proposal. */
  datatype Batch = Batch(received: seq<Transaction>, proposer: Option<PeerId>)

  function Gather(l: Ledger, received: seq<Transaction>): Ledger {
    l.(chain := l.chain.(pending := AddAll(l.chain.pending, received)))
  }

  function Epoch(env: ChainEnv, l: Ledger, batch: Batch): Ledger {
    var g := Gather(l, batch.received);
    Finalize(env, g, ProposedBlock(env, g.chain, None, batch.proposer)).0
  }

  function Epochs(env: ChainEnv, l: Ledger, batches: seq<Batch>): Ledger
    decreases |batches|
  {
    if batches == [] then l else Epochs(env, Epoch(env, l, batches[0]), batches[1..])
  }

  ghost predicate SameBatches(batches1: seq<Batch>, batches2: seq<Batch>) {
    && |batches1| == |batches2|
    && forall i :: 0 <= i < |batches1| ==> SameElements(batches1[i].received, batches2[i].received)
  }

  ghost predicate SameElements(s: seq<Transaction>, t: seq<Transaction>) {
    forall x :: x in s <==> x in t
  }

  ghost predicate AllIn(s: seq<Transaction>, all: seq<Transaction>) {
    forall x :: x in s ==> x in all
  }

  /** Transactions from the constructors. */
  ghost predicate AllBuilt(env: ChainEnv, all: seq<Transaction>) {
    forall t :: t in all ==> Built(env.exec, t)
  }

  /** And told apart by their ids. */
  ghost predicate Universe(env: ChainEnv, all: seq<Transaction>) {
    InjectiveOn(all, env.id) && AllBuilt(env, all)
  }

  lemma {:induction false} GatherAgrees(l1: Ledger, l2: Ledger, received1: seq<Transaction>,
                                        received2: seq<Transaction>,
                                        all: seq<Transaction>)
    requires Replicas(l1, l2) && SamePool(l1.chain.pending, l2.chain.pending)
    requires SameElements(received1, received2)
    requires AllIn(l1.chain.pending, all) && AllIn(received1, all)
    ensures var g1, g2 := Gather(l1, received1), Gather(l2, received2);
            Replicas(g1, g2) && SamePool(g1.chain.pending, g2.chain.pending) && AllIn(g1.chain.pending, all)
  {
    SamePoolGrows(l1.chain.pending, l2.chain.pending, received1, received2);
    PoolContents(l1.chain.pending, received1);
  }

  /** The pool after finalising: emptied, or as it was if the block failed. */
  lemma {:induction false} PoolAfter(env: ChainEnv, l: Ledger, b: Block)
    ensures Finalize(env, l, b).0.chain.pending == if Finalize(env, l, b).1.Some? then l.chain.pending else []
  {
  }

  lemma {:induction false} EpochAgrees(env: ChainEnv, l1: Ledger, l2: Ledger, batch1: Batch, batch2: Batch,
                                       all: seq<Transaction>)
    requires Replicas(l1, l2) && SamePool(l1.chain.pending, l2.chain.pending)
    requires SameElements(batch1.received, batch2.received) && Universe(env, all)
    requires AllIn(l1.chain.pending, all) && AllIn(batch1.received, all)
    ensures var e1, e2 := Epoch(env, l1, batch1), Epoch(env, l2, batch2);
            Replicas(e1, e2) && SamePool(e1.chain.pending, e2.chain.pending) && AllIn(e1.chain.pending, all)
  {
    var g1, g2 := Gather(l1, batch1.received), Gather(l2, batch2.received);
    GatherAgrees(l1, l2, batch1.received, batch2.received, all);
    InjectiveWithin(g1.chain.pending, all, env.id);
    ReplicasConverge(env, g1, g2, batch1.proposer, batch2.proposer);
    PoolAfter(env, g1, ProposedBlock(env, g1.chain, None, batch1.proposer));
    PoolAfter(env, g2, ProposedBlock(env, g2.chain, None, batch2.proposer));
  }

  /** Over any number of blocks, failed ones included: replicas that receive the
      same transactions between finalisations, each in its own order and with
      its own repeats, keep the same accounts, height and pending set. */
  lemma {:induction false} RunsConverge(env: ChainEnv, l1: Ledger, l2: Ledger, batches1: seq<Batch>,
                                        batches2: seq<Batch>,
                                        all: seq<Transaction>)
    requires Replicas(l1, l2) && SamePool(l1.chain.pending, l2.chain.pending)
    requires SameBatches(batches1, batches2) && Universe(env, all)
    requires AllIn(l1.chain.pending, all) && forall i :: 0 <= i < |batches1| ==> AllIn(batches1[i].received, all)
    ensures var e1, e2 := Epochs(env, l1, batches1), Epochs(env, l2, batches2);
            Replicas(e1, e2) && SamePool(e1.chain.pending, e2.chain.pending)
    decreases |batches1|
  {
    if batches1 != [] {
      EpochAgrees(env, l1, l2, batches1[0], batches2[0], all);
      RunsConverge(env, Epoch(env, l1, batches1[0]), Epoch(env, l2, batches2[0]), batches1[1..], batches2[1..], all);
    }
  }

  // ---------- The ledger behind the machine ----------

  datatype Movement =
    | Paid(user: Text, amount: u64, txid: Bytes)
    | Drawn(user: Text, amount: u64)

  ghost predicate Encodes(env: Executor.Env, tx: Transaction, mv: Movement) {
    && env.utf8(mv.user)
    && match mv
       case Paid(user, amount, txid) => |txid| == TXID_BYTES && tx.operations == DepositOperations(txid, user, amount)
       case Drawn(user, amount) => tx.operations == WithdrawalOperations(user, amount)
  }

  function Move(env: Executor.Env, c: ChainState, mv: Movement): Option<ChainState> {
    match mv
    case Paid(user, amount, txid) =>
      if env.oracle(user, amount, txid).Approved? || (env.oracle(user, amount, txid).Rejected? && amount == 0)
      then Some(Credit(c, user, amount)) else None
    case Drawn(user, amount) =>
      if AccountOf(c.accounts, user).balance >= amount then Some(Debit(c, user, amount)) else None
  }

  function MoveAll(env: Executor.Env, c: ChainState, mvs: seq<Movement>): Option<ChainState>
    decreases |mvs|
  {
    if mvs == [] then Some(c)
    else
      match Move(env, c, mvs[0])
      case None => None
      case Some(c') => MoveAll(env, c', mvs[1..])
  }

  ghost predicate NoAllowance(m: Machine) {
    forall a :: Allowance(m, a) == 0
  }

  lemma {:induction false} TransactionIsMovement(env: Executor.Env, m: Machine, tx: Transaction, mv: Movement)
    requires NoAllowance(m) && Encodes(env, tx, mv)
    ensures var r := Run(env, m, tx.operations);
            && NoAllowance(r.m)
            && Move(env, m.chain, mv) == if r.error.None? then Some(r.m.chain) else None
  {
    assert Allowance(m, mv.user) == 0;
    match mv
    case Drawn(user, amount) =>
      WithdrawalIsDebit(env, m, user, amount);
      DrawnKeeps(m, Run(env, m, tx.operations).m);
    case Paid(user, amount, txid) =>
      if env.oracle(user, amount, txid).Approved? {
        ApprovedDepositIsCredit(env, m, txid, user, amount);
      } else {
        UnapprovedDeposit(env, m, txid, user, amount);
        UnapprovedKeeps(env, m, txid, user, amount);
      }
  }

  lemma {:induction false} DrawnKeeps(m: Machine, m': Machine)
    requires NoAllowance(m) && m'.allowance == m.allowance
    ensures NoAllowance(m')
  {
    forall a ensures Allowance(m', a) == 0 {
      assert Allowance(m, a) == 0;
    }
  }

  lemma {:induction false} UnapprovedKeeps(env: Executor.Env, m: Machine, txid: Bytes, user: Text, amount: u64)
    requires NoAllowance(m) && env.utf8(user) && |txid| == TXID_BYTES
    requires !env.oracle(user, amount, txid).Approved?
    ensures NoAllowance(Run(env, m, DepositOperations(txid, user, amount)).m)
  {
    var r := Run(env, m, DepositOperations(txid, user, amount));
    UnapprovedDeposit(env, m, txid, user, amount);
    assert Allowance(m, user) == 0;
    if r.error.Some? {
      DrawnKeeps(m, r.m);
    } else {
      forall a ensures Allowance(r.m, a) == 0 {
        assert Allowance(m, a) == 0;
      }
    }
  }

  /** A block of constructor-built transactions is a list of credits and
      debits: the machine fails exactly when one of them is refused, otherwise
      ends with their combined effect, and never leaves an allowance behind. */
  lemma {:induction false} BlockIsMovements(env: Executor.Env, m: Machine, txs: seq<Transaction>, mvs: seq<Movement>)
    requires NoAllowance(m) && |txs| == |mvs|
    requires forall i :: 0 <= i < |txs| ==> Encodes(env, txs[i], mvs[i])
    ensures var r := RunAll(env, m, txs);
            && NoAllowance(r.m)
            && MoveAll(env, m.chain, mvs) == if r.error.None? then Some(r.m.chain) else None
    decreases |txs|
  {
    if txs != [] {
      TransactionIsMovement(env, m, txs[0], mvs[0]);
      var r := Run(env, m, txs[0].operations);
      if r.error.None? {
        BlockIsMovements(env, r.m, txs[1..], mvs[1..]);
      }
    }
  }

  // ---------- Replicas with executors of their own ----------

  ghost predicate Settled(l: Ledger) {
    forall a :: Entry(l.allowance, a) == 0
  }

  lemma {:induction false} MovementOf(env: Executor.Env, tx: Transaction) returns (mv: Movement)
    requires Built(env, tx)
    ensures Encodes(env, tx, mv)
  {
    if user: Text, amount: u64 :| env.utf8(user) && tx.operations == WithdrawalOperations(user, amount) {
      mv := Drawn(user, amount);
    } else {
      var txid: Bytes, user: Text, amount: u64 :|
        env.utf8(user) && |txid| == TXID_BYTES && tx.operations == DepositOperations(txid, user, amount);
      mv := Paid(user, amount, txid);
    }
  }

  lemma {:induction false} MovementsOf(env: Executor.Env, txs: seq<Transaction>) returns (mvs: seq<Movement>)
    requires forall i :: 0 <= i < |txs| ==> Built(env, txs[i])
    ensures |mvs| == |txs| && forall i :: 0 <= i < |txs| ==> Encodes(env, txs[i], mvs[i])
  {
    if txs == [] {
      mvs := [];
    } else {
      var mv := MovementOf(env, txs[0]);
      var rest := MovementsOf(env, txs[1..]);
      mvs := [mv] + rest;
    }
  }

  /** A block of built transactions, failed or not, leaves no allowance. */
  lemma {:induction false} FinalizeSettled(env: ChainEnv, l: Ledger, b: Block)
    requires Settled(l) && forall i :: 0 <= i < |b.transactions| ==> Built(env.exec, b.transactions[i])
    ensures Settled(Finalize(env, l, b).0)
  {
    var m := Machine(l.stack, l.allowance, NextState(l.chain));
    var mvs := MovementsOf(env.exec, b.transactions);
    BlockIsMovements(env.exec, m, b.transactions, mvs);
    var r := RunAll(env.exec, m, b.transactions).m;
    forall a
      ensures Entry(Finalize(env, l, b).0.allowance, a) == 0
    {
      assert Allowance(r, a) == 0;
    }
  }

  lemma {:induction false} EpochSettled(env: ChainEnv, l: Ledger, batch: Batch, all: seq<Transaction>)
    requires Settled(l) && AllBuilt(env, all) && AllIn(l.chain.pending, all) && AllIn(batch.received, all)
    ensures Settled(Epoch(env, l, batch)) && AllIn(Epoch(env, l, batch).chain.pending, all)
  {
    var g := Gather(l, batch.received);
    AddAllMembers(l.chain.pending, batch.received);
    var b := ProposedBlock(env, g.chain, None, batch.proposer);
    forall i | 0 <= i < |b.transactions|
      ensures Built(env.exec, b.transactions[i])
    {
      assert b.transactions[i] in multiset(b.transactions);
      assert b.transactions[i] in multiset(g.chain.pending);
    }
    FinalizeSettled(env, g, b);
    PoolAfter(env, g, b);
  }

  lemma {:induction false} EpochsSettled(env: ChainEnv, l: Ledger, batches: seq<Batch>, all: seq<Transaction>)
    requires Settled(l) && AllBuilt(env, all) && AllIn(l.chain.pending, all)
    requires forall i :: 0 <= i < |batches| ==> AllIn(batches[i].received, all)
    ensures Settled(Epochs(env, l, batches))
    decreases |batches|
  {
    if batches != [] {
      EpochSettled(env, l, batches[0], all);
      EpochsSettled(env, Epoch(env, l, batches[0]), batches[1..], all);
    }
  }

  /** Replicas whose executors start without allowance, as fresh ones do, agree
      on accounts, height and pending set ever after, and never have allowance
      outstanding between blocks. */
  lemma {:induction false} FreshReplicasConverge(env: ChainEnv, l1: Ledger, l2: Ledger, batches1: seq<Batch>,
                                                 batches2: seq<Batch>, all: seq<Transaction>)
    requires Settled(l1) && Settled(l2) && SamePool(l1.chain.pending, l2.chain.pending)
    requires l1.chain.accounts == l2.chain.accounts && l1.chain.height == l2.chain.height
    requires SameBatches(batches1, batches2) && Universe(env, all)
    requires AllIn(l1.chain.pending, all) && forall i :: 0 <= i < |batches1| ==> AllIn(batches1[i].received, all)
    ensures var e1, e2 := Epochs(env, l1, batches1), Epochs(env, l2, batches2);
            && e1.chain.accounts == e2.chain.accounts && e1.chain.height == e2.chain.height
            && SamePool(e1.chain.pending, e2.chain.pending) && Settled(e1) && Settled(e2)
  {
    RunsConverge(env, l1, l2, batches1, batches2, all);
    EpochsSettled(env, l1, batches1, all);
    assert AllIn(l2.chain.pending, all);
    forall i | 0 <= i < |batches2|
      ensures AllIn(batches2[i].received, all)
    {
      assert SameElements(batches1[i].received, batches2[i].received) && AllIn(batches1[i].received, all);
    }
    EpochsSettled(env, l2, batches2, all);
  }
}
