/** Where every unit of value goes, over whole runs of arbitrary blocks. */
module Conservation {
  import opened Bytes
  import opened Repeats
  import opened Protocol
  import opened Executor
  import opened Chain

  /** For one address: what the oracle approved, what moved from its allowance
      to its balance, what it withdrew, and how often an addition to its
      allowance or to its balance went past 64 bits. */
  datatype Flow = Flow(granted: nat, moved: nat, withdrawn: nat, allowanceWraps: nat, balanceWraps: nat)

  const NO_FLOW := Flow(0, 0, 0, 0, 0)

  function Plus(f: Flow, g: Flow): Flow {
    Flow(f.granted + g.granted, f.moved + g.moved, f.withdrawn + g.withdrawn,
         f.allowanceWraps + g.allowanceWraps, f.balanceWraps + g.balanceWraps)
  }

  function Wraps(x: u64, y: u64): nat {
    if x + y < U64_LIMIT then 0 else 1
  }

  /** What `op` does for `a`. */
  function StepFlow(env: Executor.Env, m: Machine, op: Operation, a: Text): Flow {
    match op
    case OpPush(_) => NO_FLOW
    case OpCheckOracle =>
      (match PopQuery(env, m.stack).args
       case Err(_) => NO_FLOW
       case Ok(q) =>
         if q.address == a && env.oracle(q.address, q.amount, q.txHash).Approved?
         then Flow(q.amount, 0, 0, Wraps(Allowance(m, a), q.amount), 0) else NO_FLOW)
    case OpIncrementBalance =>
      (match PopTransfer(env, m.stack).args
       case Err(_) => NO_FLOW
       case Ok(t) =>
         if t.address == a && t.amount <= Allowance(m, a)
         then Flow(0, t.amount, 0, 0, Wraps(Balance(m, a), t.amount)) else NO_FLOW)
    case OpDecrementBalance =>
      (match PopTransfer(env, m.stack).args
       case Err(_) => NO_FLOW
       case Ok(t) => if t.address == a && t.amount <= Balance(m, a) then Flow(0, 0, t.amount, 0, 0) else NO_FLOW)
  }

  /** The two books of `a` balance: its allowance is fed by grants and drained
      by moves, its balance is fed by moves and drained by withdrawals. */
  ghost predicate Books(m: Machine, f: Flow, m': Machine, a: Text) {
    && Allowance(m', a) + f.moved + U64_LIMIT * f.allowanceWraps == Allowance(m, a) + f.granted
    && Balance(m', a) + f.withdrawn + U64_LIMIT * f.balanceWraps == Balance(m, a) + f.moved
  }

  lemma {:induction false} StepBooks(env: Executor.Env, m: Machine, op: Operation, a: Text)
    ensures Books(m, StepFlow(env, m, op, a), Step(env, m, op).m, a)
  {
    match op
    case OpPush(_) =>
    case OpCheckOracle => CheckOracleBooks(env, m, a);
    case OpIncrementBalance => IncrementBooks(env, m, a);
    case OpDecrementBalance => DecrementBooks(env, m, a);
  }

  lemma {:induction false} CheckOracleBooks(env: Executor.Env, m: Machine, a: Text)
    ensures Books(m, StepFlow(env, m, OpCheckOracle, a), CheckOracle(env, m).m, a)
  {
  }

  lemma {:induction false} IncrementBooks(env: Executor.Env, m: Machine, a: Text)
    ensures Books(m, StepFlow(env, m, OpIncrementBalance, a), IncrementBalance(env, m).m, a)
  {
  }

  lemma {:induction false} DecrementBooks(env: Executor.Env, m: Machine, a: Text)
    ensures Books(m, StepFlow(env, m, OpDecrementBalance, a), DecrementBalance(env, m).m, a)
  {
  }

  /** The checked decrement never saturates, whatever the state. */
  lemma {:induction false} NeverSaturates(env: Executor.Env, m: Machine)
    requires DecrementBalance(env, m).error.None?
    ensures var t := PopTransfer(env, m.stack).args;
            && t.Ok?
            && Balance(DecrementBalance(env, m).m, t.value.address) == Balance(m, t.value.address) - t.value.amount
  {
  }

  // ---------- A program ----------

  function RunFlow(env: Executor.Env, m: Machine, ops: seq<Operation>, a: Text): Flow
    decreases |ops|
  {
    if ops == [] then NO_FLOW
    else
      var r := Step(env, m, ops[0]);
      Plus(StepFlow(env, m, ops[0], a), if r.error.Some? then NO_FLOW else RunFlow(env, r.m, ops[1..], a))
  }

  lemma {:induction false} BooksThen(m: Machine, f: Flow, m1: Machine, g: Flow, m2: Machine, a: Text)
    requires Books(m, f, m1, a) && Books(m1, g, m2, a)
    ensures Books(m, Plus(f, g), m2, a)
  {
  }

  lemma {:induction false} RunBooks(env: Executor.Env, m: Machine, ops: seq<Operation>, a: Text)
    ensures Books(m, RunFlow(env, m, ops, a), Run(env, m, ops).m, a)
    decreases |ops|
  {
    if ops != [] {
      var r := Step(env, m, ops[0]);
      StepBooks(env, m, ops[0], a);
      if r.error.None? {
        RunBooks(env, r.m, ops[1..], a);
        BooksThen(m, StepFlow(env, m, ops[0], a), r.m, RunFlow(env, r.m, ops[1..], a), Run(env, m, ops).m, a);
      }
    }
  }

  // ---------- Blocks ----------

  function Committed(l: Ledger, a: Text): nat {
    AccountOf(l.chain.accounts, a).balance
  }

  function Unused(l: Ledger, a: Text): nat {
    Entry(l.allowance, a)
  }

  function FinalizeAll(env: ChainEnv, l: Ledger, blocks: seq<Block>): Ledger
    decreases |blocks|
  {
    if blocks == [] then l else FinalizeAll(env, Finalize(env, l, blocks[0]).0, blocks[1..])
  }

  function BlockFlow(env: ChainEnv, l: Ledger, b: Block, a: Text): Flow {
    RunFlow(env.exec, Machine(l.stack, l.allowance, NextState(l.chain)), Operations(b.transactions), a)
  }

  /** For one address over several blocks. Forfeited is what a failed block
      had moved out of the allowance: the allowance stays spent while the
      accounts, and with them any overflow of a balance, are put back. */
  datatype Totals = Totals(granted: nat, withdrawn: nat, forfeited: nat, wraps: nat)

  function BlockTotals(env: ChainEnv, l: Ledger, b: Block, a: Text): Totals {
    var f := BlockFlow(env, l, b, a);
    if Finalize(env, l, b).1.Some? then Totals(f.granted, 0, f.moved, f.allowanceWraps)
    else Totals(f.granted, f.withdrawn, 0, f.allowanceWraps + f.balanceWraps)
  }

  function AllTotals(env: ChainEnv, l: Ledger, blocks: seq<Block>, a: Text): Totals
    decreases |blocks|
  {
    if blocks == [] then Totals(0, 0, 0, 0)
    else
      var t := BlockTotals(env, l, blocks[0], a);
      var u := AllTotals(env, Finalize(env, l, blocks[0]).0, blocks[1..], a);
      Totals(t.granted + u.granted, t.withdrawn + u.withdrawn, t.forfeited + u.forfeited, t.wraps + u.wraps)
  }

  ghost predicate Accounted(l: Ledger, t: Totals, l': Ledger, a: Text) {
    Committed(l', a) + Unused(l', a) + t.withdrawn + t.forfeited + U64_LIMIT * t.wraps ==
    Committed(l, a) + Unused(l, a) + t.granted
  }

  lemma {:induction false} BlockAccounted(env: ChainEnv, l: Ledger, b: Block, a: Text)
    ensures Accounted(l, BlockTotals(env, l, b, a), Finalize(env, l, b).0, a)
  {
    var m, ops := Machine(l.stack, l.allowance, NextState(l.chain)), Operations(b.transactions);
    RunBooks(env.exec, m, ops, a);
    BlockIsOneProgram(env.exec, m, b.transactions);
  }

  /** Over every run of blocks, whatever they hold and wherever they fail: what
      an address holds, may still claim, has withdrawn and has forfeited is
      exactly what it started with plus what the oracle approved for it, less
      2^64 for every addition that did not fit and whose result was kept, which
      leaves out additions to balances in failed blocks. */
  lemma {:induction false} RunOfBlocksConserves(env: ChainEnv, l: Ledger, blocks: seq<Block>, a: Text)
    ensures Accounted(l, AllTotals(env, l, blocks, a), FinalizeAll(env, l, blocks), a)
    decreases |blocks|
  {
    if blocks != [] {
      BlockAccounted(env, l, blocks[0], a);
      RunOfBlocksConserves(env, Finalize(env, l, blocks[0]).0, blocks[1..], a);
    }
  }

  /** Every addition for `a` that went past 64 bits, also in failed blocks. */
  function AllWraps(env: ChainEnv, l: Ledger, blocks: seq<Block>, a: Text): nat
    decreases |blocks|
  {
    if blocks == [] then 0
    else
      var f := BlockFlow(env, l, blocks[0], a);
      f.allowanceWraps + f.balanceWraps + AllWraps(env, Finalize(env, l, blocks[0]).0, blocks[1..], a)
  }

  /** If what an address started with and what was approved for it fit in 64
      bits together, no addition for it overflows, in failed blocks neither. */
  lemma {:induction false} NothingOverflows(env: ChainEnv, l: Ledger, blocks: seq<Block>, a: Text)
    requires Committed(l, a) + Unused(l, a) + AllTotals(env, l, blocks, a).granted < U64_LIMIT
    ensures AllWraps(env, l, blocks, a) == 0
    decreases |blocks|
  {
    if blocks != [] {
      var b, rest := blocks[0], blocks[1..];
      var m := Machine(l.stack, l.allowance, NextState(l.chain));
      var f := BlockFlow(env, l, b, a);
      assert f.allowanceWraps == 0 && f.balanceWraps == 0 by {
        RunBooks(env.exec, m, Operations(b.transactions), a);
      }
      BlockAccounted(env, l, b, a);
      NothingOverflows(env, Finalize(env, l, b).0, rest, a);
    }
  }

  predicate AllCommitted(env: ChainEnv, l: Ledger, blocks: seq<Block>)
    decreases |blocks|
  {
    blocks == [] ||
    (Finalize(env, l, blocks[0]).1.None? && AllCommitted(env, Finalize(env, l, blocks[0]).0, blocks[1..]))
  }

  lemma {:induction false} NothingForfeited(env: ChainEnv, l: Ledger, blocks: seq<Block>, a: Text)
    requires AllCommitted(env, l, blocks)
    ensures AllTotals(env, l, blocks, a).forfeited == 0
    decreases |blocks|
  {
    if blocks != [] {
      NothingForfeited(env, Finalize(env, l, blocks[0]).0, blocks[1..], a);
    }
  }

  /** Nobody ends up with more than was approved for them, in any run, counting
      every approval each time it is given; and nothing is lost either if no
      block fails and what was approved fits in 64 bits. */
  lemma {:induction false} NoValueFromNothing(env: ChainEnv, l: Ledger, blocks: seq<Block>, a: Text)
    ensures var t, l' := AllTotals(env, l, blocks, a), FinalizeAll(env, l, blocks);
            && Committed(l', a) + Unused(l', a) + t.withdrawn <= Committed(l, a) + Unused(l, a) + t.granted
            && (AllCommitted(env, l, blocks) && Committed(l, a) + Unused(l, a) + t.granted < U64_LIMIT ==>
                  Committed(l', a) + Unused(l', a) + t.withdrawn == Committed(l, a) + Unused(l, a) + t.granted)
  {
    RunOfBlocksConserves(env, l, blocks, a);
    if AllCommitted(env, l, blocks) {
      NothingForfeited(env, l, blocks, a);
    }
  }

  // ---------- Approvals given more than once ----------

  /** The approval that `op` obtains. */
  function StepApprovals(env: Executor.Env, m: Machine, op: Operation): seq<Query> {
    if !op.OpCheckOracle? then []
    else
      match PopQuery(env, m.stack).args
      case Err(_) => []
      case Ok(q) => if env.oracle(q.address, q.amount, q.txHash).Approved? then [q] else []
  }

  function RunApprovals(env: Executor.Env, m: Machine, ops: seq<Operation>): seq<Query>
    decreases |ops|
  {
    if ops == [] then []
    else
      var r := Step(env, m, ops[0]);
      StepApprovals(env, m, ops[0]) + if r.error.Some? then [] else RunApprovals(env, r.m, ops[1..])
  }

  /** Every approval of a run of blocks, as often as it is given. */
  function AllApprovals(env: ChainEnv, l: Ledger, blocks: seq<Block>): seq<Query>
    decreases |blocks|
  {
    if blocks == [] then []
    else
      RunApprovals(env.exec, Machine(l.stack, l.allowance, NextState(l.chain)), Operations(blocks[0].transactions)) +
      AllApprovals(env, Finalize(env, l, blocks[0]).0, blocks[1..])
  }

  function AmountFor(a: Text): Query -> nat {
    (q: Query) => if q.address == a then q.amount else 0
  }

  lemma {:induction false} StepGranted(env: Executor.Env, m: Machine, op: Operation, a: Text)
    ensures StepFlow(env, m, op, a).granted == Sum(StepApprovals(env, m, op), AmountFor(a))
  {
    var qs := StepApprovals(env, m, op);
    if qs != [] {
      assert qs == [] + [qs[0]];
      SumSnoc([], qs[0], AmountFor(a));
    }
  }

  lemma {:induction false} RunGranted(env: Executor.Env, m: Machine, ops: seq<Operation>, a: Text)
    ensures RunFlow(env, m, ops, a).granted == Sum(RunApprovals(env, m, ops), AmountFor(a))
    decreases |ops|
  {
    if ops != [] {
      var r := Step(env, m, ops[0]);
      StepGranted(env, m, ops[0], a);
      if r.error.None? {
        RunGranted(env, r.m, ops[1..], a);
        SumConcat(StepApprovals(env, m, ops[0]), RunApprovals(env, r.m, ops[1..]), AmountFor(a));
      } else {
        assert RunApprovals(env, m, ops) == StepApprovals(env, m, ops[0]);
      }
    }
  }

  lemma {:induction false} GrantedIsApprovals(env: ChainEnv, l: Ledger, blocks: seq<Block>, a: Text)
    ensures AllTotals(env, l, blocks, a).granted == Sum(AllApprovals(env, l, blocks), AmountFor(a))
    decreases |blocks|
  {
    if blocks != [] {
      var m, ops := Machine(l.stack, l.allowance, NextState(l.chain)), Operations(blocks[0].transactions);
      var l', rest := Finalize(env, l, blocks[0]).0, blocks[1..];
      RunGranted(env.exec, m, ops, a);
      GrantedIsApprovals(env, l', rest, a);
      SumConcat(RunApprovals(env.exec, m, ops), AllApprovals(env, l', rest), AmountFor(a));
    }
  }

  /** What is granted to an address is the sum of the approvals for it, each
      counted once, exactly if none of a positive amount is given twice; then
      no run leaves the address with more than that sum. */
  lemma {:induction false} GrantedOnceIff(env: ChainEnv, l: Ledger, blocks: seq<Block>, a: Text)
    ensures var t, l', qs := AllTotals(env, l, blocks, a), FinalizeAll(env, l, blocks), AllApprovals(env, l, blocks);
            var once := Sum(Firsts(qs), AmountFor(a));
            && (t.granted == once <==> RepeatsWeightless(qs, AmountFor(a)))
            && (RepeatsWeightless(qs, AmountFor(a)) ==>
                  Committed(l', a) + Unused(l', a) + t.withdrawn <= Committed(l, a) + Unused(l, a) + once)
  {
    GrantedIsApprovals(env, l, blocks, a);
    SumFirsts(AllApprovals(env, l, blocks), AmountFor(a));
    NoValueFromNothing(env, l, blocks, a);
  }
}
