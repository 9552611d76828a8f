/** What the programs of constructor-built transactions amount to. */
module Programs {
  import opened Prelude
  import opened Bytes
  import opened Protocol
  import opened Executor

  function Credit(c: ChainState, user: Text, amount: u64): ChainState {
    WithBalance(c, user, WrappingAdd(AccountOf(c.accounts, user).balance, amount))
  }

  function Debit(c: ChainState, user: Text, amount: u64): ChainState
    requires AccountOf(c.accounts, user).balance >= amount
  {
    WithBalance(c, user, AccountOf(c.accounts, user).balance - amount)
  }

  lemma {:induction false} RunPush(env: Env, m: Machine, v: Bytes, rest: seq<Operation>)
    ensures Run(env, m, [OpPush(v)] + rest) == Run(env, m.(stack := m.stack + [v]), rest)
  {
    assert ([OpPush(v)] + rest)[1..] == rest;
  }

  lemma {:induction false} PopPushed(s: seq<Bytes>, v: Bytes)
    ensures Top(s + [v]) == v && Below(s + [v]) == s
  {
  }

  lemma {:induction false} QueryPushed(env: Env, s: seq<Bytes>, amount: u64, user: Text, txid: Bytes)
    requires env.utf8(user) && |txid| == TXID_BYTES
    ensures PopQuery(env, s + [EncodeU64(amount)] + [user] + [txid]) == Popped(s, Ok(Query(user, amount, txid)))
  {
    var s1 := s + [EncodeU64(amount)];
    var s2 := s1 + [user];
    PopPushed(s, EncodeU64(amount));
    PopPushed(s1, user);
    PopPushed(s2, txid);
    U64RoundTrip(amount, EncodeU64(amount));
  }

  lemma {:induction false} TransferPushed(env: Env, s: seq<Bytes>, amount: u64, user: Text)
    requires env.utf8(user)
    ensures PopTransfer(env, s + [EncodeU64(amount)] + [user]) == Popped(s, Ok(Transfer(user, amount)))
  {
    PopPushed(s, EncodeU64(amount));
    PopPushed(s + [EncodeU64(amount)], user);
    U64RoundTrip(amount, EncodeU64(amount));
  }

  lemma {:induction false} RunSingle(env: Env, m: Machine, op: Operation)
    ensures Run(env, m, [op]) == Step(env, m, op)
  {
    assert [op][1..] == [];
  }

  function TransferOperations(user: Text, amount: nat, op: Operation): seq<Operation> {
    [OpPush(EncodeU64(amount)), OpPush(user), op]
  }

  lemma {:induction false} RunTransfer(env: Env, m: Machine, user: Text, amount: u64, op: Operation)
    ensures Run(env, m, TransferOperations(user, amount, op)) ==
            Step(env, m.(stack := m.stack + [EncodeU64(amount)] + [user]), op)
  {
    var a, u := EncodeU64(amount), user;
    assert TransferOperations(user, amount, op) == [OpPush(a)] + ([OpPush(u)] + [op]);
    RunPush(env, m, a, [OpPush(u)] + [op]);
    var m1 := m.(stack := m.stack + [a]);
    RunPush(env, m1, u, [op]);
    RunSingle(env, m1.(stack := m1.stack + [u]), op);
  }

  /** From any state, a withdrawal program is exactly a debit, and succeeds
      exactly when the balance suffices. */
  lemma {:induction false} WithdrawalIsDebit(env: Env, m: Machine, user: Text, amount: u64)
    requires env.utf8(user)
    ensures var r := Run(env, m, WithdrawalOperations(user, amount));
            if Balance(m, user) >= amount
            then r == Outcome(m.(stack := m.stack + [Result64(true)], chain := Debit(m.chain, user, amount)), None)
            else r == Outcome(m, Some(InsufficientBalance))
  {
    RunTransfer(env, m, user, amount, OpDecrementBalance);
    TransferPushed(env, m.stack, amount, user);
  }

  /** From any state, the crediting half of a deposit succeeds exactly when the
      allowance suffices, and consumes it. */
  lemma {:induction false} IncrementWith(env: Env, m: Machine, rest: seq<Bytes>, user: Text, amount: u64)
    requires PopTransfer(env, m.stack) == Popped(rest, Ok(Transfer(user, amount)))
    ensures IncrementBalance(env, m) ==
            if Allowance(m, user) >= amount
            then Outcome(Machine(rest + [Result64(true)], m.allowance[user := Allowance(m, user) - amount],
                                 Credit(m.chain, user, amount)), None)
            else Outcome(m.(stack := rest), Some(InsufficientAllowance))
  {
  }

  lemma {:induction false} CreditHalf(env: Env, m: Machine, user: Text, amount: u64)
    requires env.utf8(user)
    ensures var r := Run(env, m, TransferOperations(user, amount, OpIncrementBalance));
            if Allowance(m, user) >= amount
            then r == Outcome(Machine(m.stack + [Result64(true)],
                                      m.allowance[user := Allowance(m, user) - amount],
                                      Credit(m.chain, user, amount)), None)
            else r == Outcome(m, Some(InsufficientAllowance))
  {
    var m1 := m.(stack := m.stack + [EncodeU64(amount)] + [user]);
    assert Run(env, m, TransferOperations(user, amount, OpIncrementBalance)) == IncrementBalance(env, m1) by {
      RunTransfer(env, m, user, amount, OpIncrementBalance);
    }
    assert PopTransfer(env, m1.stack) == Popped(m.stack, Ok(Transfer(user, amount))) by {
      TransferPushed(env, m.stack, amount, user);
    }
    IncrementWith(env, m1, m.stack, user, amount);
    assert m1.(stack := m.stack) == m;
  }

  function QueryOperations(txid: Bytes, user: Text, amount: nat): seq<Operation> {
    [OpPush(EncodeU64(amount)), OpPush(user), OpPush(txid), OpCheckOracle]
  }

  lemma {:induction false} QueryHalf(env: Env, m: Machine, txid: Bytes, user: Text, amount: u64)
    requires env.utf8(user) && |txid| == TXID_BYTES
    ensures Run(env, m, QueryOperations(txid, user, amount)) ==
            match env.oracle(user, amount, txid)
            case Unavailable => Outcome(m, Some(OracleFailed))
            case Rejected => Outcome(m.(stack := m.stack + [Result64(false)]), None)
            case Approved =>
              Outcome(m.(stack := m.stack + [Result64(true)],
                      allowance := m.allowance[user := WrappingAdd(Allowance(m, user), amount)]), None)
  {
    var a := EncodeU64(amount);
    assert QueryOperations(txid, user, amount) == [OpPush(a)] + ([OpPush(user)] + ([OpPush(txid)] + [OpCheckOracle]));
    RunPush(env, m, a, [OpPush(user)] + ([OpPush(txid)] + [OpCheckOracle]));
    var m1 := m.(stack := m.stack + [a]);
    RunPush(env, m1, user, [OpPush(txid)] + [OpCheckOracle]);
    var m2 := m1.(stack := m1.stack + [user]);
    RunPush(env, m2, txid, [OpCheckOracle]);
    RunSingle(env, m2.(stack := m2.stack + [txid]), OpCheckOracle);
    QueryPushed(env, m.stack, amount, user, txid);
  }

  lemma {:induction false} DepositHalves(env: Env, m: Machine, txid: Bytes, user: Text, amount: u64)
    ensures var q := Run(env, m, QueryOperations(txid, user, amount));
            Run(env, m, DepositOperations(txid, user, amount)) ==
            if q.error.Some? then q else Run(env, q.m, TransferOperations(user, amount, OpIncrementBalance))
  {
    assert DepositOperations(txid, user, amount) ==
           QueryOperations(txid, user, amount) + TransferOperations(user, amount, OpIncrementBalance);
    RunConcat(env, m, QueryOperations(txid, user, amount), TransferOperations(user, amount, OpIncrementBalance));
  }

  /** From any state, an approved deposit is exactly a credit: every allowance
      is what it was and two success marks are pushed. It fails only when the
      allowance would not fit in 64 bits. */
  lemma {:induction false} ApprovedDepositIsCredit(env: Env, m: Machine, txid: Bytes, user: Text, amount: u64)
    requires env.utf8(user) && |txid| == TXID_BYTES
    requires env.oracle(user, amount, txid).Approved?
    ensures var r := Run(env, m, DepositOperations(txid, user, amount));
            && (r.error.None? <==> Allowance(m, user) + amount < U64_LIMIT)
            && (r.error.None? ==>
                  && r.m.chain == Credit(m.chain, user, amount)
                  && r.m.stack == m.stack + [Result64(true), Result64(true)]
                  && forall a :: Allowance(r.m, a) == Allowance(m, a))
            && (r.error.Some? ==> r.error == Some(InsufficientAllowance) && r.m.chain == m.chain)
  {
    DepositHalves(env, m, txid, user, amount);
    QueryHalf(env, m, txid, user, amount);
    var q := Run(env, m, QueryOperations(txid, user, amount)).m;
    CreditHalf(env, q, user, amount);
    assert (m.stack + [Result64(true)]) + [Result64(true)] == m.stack + [Result64(true), Result64(true)];
  }

  /** A deposit that is not approved leaves the accounts alone, unless a
      leftover allowance pays for it. */
  lemma {:induction false} UnapprovedDeposit(env: Env, m: Machine, txid: Bytes, user: Text, amount: u64)
    requires env.utf8(user) && |txid| == TXID_BYTES
    requires !env.oracle(user, amount, txid).Approved?
    ensures var r := Run(env, m, DepositOperations(txid, user, amount));
            && (r.error.None? <==> env.oracle(user, amount, txid).Rejected? && Allowance(m, user) >= amount)
            && (r.error.None? ==>
                  && r.m.chain == Credit(m.chain, user, amount)
                  && Allowance(r.m, user) == Allowance(m, user) - amount
                  && forall a :: a != user ==> Allowance(r.m, a) == Allowance(m, a))
            && (r.error.Some? ==> r.m.chain == m.chain && r.m.allowance == m.allowance)
  {
    DepositHalves(env, m, txid, user, amount);
    QueryHalf(env, m, txid, user, amount);
    var q := Run(env, m, QueryOperations(txid, user, amount)).m;
    CreditHalf(env, q, user, amount);
  }

  /** Built by one of the two constructors, from texts that decode. */
  ghost predicate Built(env: Env, tx: Transaction) {
    || (exists user: Text, amount: u64 :: env.utf8(user) && tx.operations == WithdrawalOperations(user, amount))
    || (exists txid: Bytes, user: Text, amount: u64 ::
          env.utf8(user) && |txid| == TXID_BYTES && tx.operations == DepositOperations(txid, user, amount))
  }

  lemma {:induction false} DepthPush(v: Bytes, rest: seq<Operation>, d: nat)
    ensures Depth([OpPush(v)] + rest, d) == Depth(rest, d + 1)
  {
    assert ([OpPush(v)] + rest)[1..] == rest;
  }

  lemma {:induction false} DepthTransfer(user: Text, amount: nat, op: Operation, d: nat)
    requires op.OpIncrementBalance? || op.OpDecrementBalance?
    ensures Depth(TransferOperations(user, amount, op), d) == Some(d + 1)
  {
    var a := EncodeU64(amount);
    assert TransferOperations(user, amount, op) == [OpPush(a)] + ([OpPush(user)] + [op]);
    DepthPush(a, [OpPush(user)] + [op], d);
    DepthPush(user, [op], d + 1);
    assert [op][1..] == [];
  }

  lemma {:induction false} DepthConcat(a: seq<Operation>, b: seq<Operation>, d: nat)
    ensures Depth(a + b, d) ==
            match Depth(a, d)
            case None => None
            case Some(e) => Depth(b, e)
    decreases |a|
  {
    if a == [] {
      assert a + b == b;
    } else {
      assert (a + b)[1..] == a[1..] + b;
      match a[0]
      case OpPush(_) => DepthConcat(a[1..], b, d + 1);
      case OpCheckOracle => if d >= 3 { DepthConcat(a[1..], b, d - 2); }
      case _ => if d >= 2 { DepthConcat(a[1..], b, d - 1); }
    }
  }

  lemma {:induction false} DepthMonotone(ops: seq<Operation>, d: nat, extra: nat)
    requires Depth(ops, d).Some?
    ensures Depth(ops, d + extra) == Some(Depth(ops, d).value + extra)
    decreases |ops|
  {
    if ops != [] {
      match ops[0]
      case OpPush(_) => DepthMonotone(ops[1..], d + 1, extra);
      case OpCheckOracle => DepthMonotone(ops[1..], d - 2, extra);
      case _ => DepthMonotone(ops[1..], d - 1, extra);
    }
  }

  lemma {:induction false} DepthQuery(txid: Bytes, user: Text, amount: nat, d: nat)
    ensures Depth(QueryOperations(txid, user, amount), d) == Some(d + 1)
  {
    var a := EncodeU64(amount);
    var rest := [OpPush(txid)] + [OpCheckOracle];
    assert QueryOperations(txid, user, amount) == [OpPush(a)] + ([OpPush(user)] + rest);
    DepthPush(a, [OpPush(user)] + rest, d);
    DepthPush(user, rest, d + 1);
    DepthPush(txid, [OpCheckOracle], d + 2);
    assert [OpCheckOracle][1..] == [];
  }

  lemma {:induction false} DepthDeposit(txid: Bytes, user: Text, amount: nat)
    ensures SelfContained(DepositOperations(txid, user, amount))
  {
    var a, b := QueryOperations(txid, user, amount), TransferOperations(user, amount, OpIncrementBalance);
    assert DepositOperations(txid, user, amount) == a + b;
    DepthConcat(a, b, 0);
    DepthQuery(txid, user, amount, 0);
    DepthTransfer(user, amount, OpIncrementBalance, 1);
  }

  lemma {:induction false} BuiltSelfContained(env: Env, tx: Transaction)
    requires Built(env, tx)
    ensures SelfContained(tx.operations)
  {
    if user: Text, amount: u64 :| env.utf8(user) && tx.operations == WithdrawalOperations(user, amount) {
      DepthTransfer(user, amount, OpDecrementBalance, 0);
    } else {
      var txid: Bytes, user: Text, amount: u64 :|
        env.utf8(user) && |txid| == TXID_BYTES && tx.operations == DepositOperations(txid, user, amount);
      DepthDeposit(txid, user, amount);
    }
  }
}
