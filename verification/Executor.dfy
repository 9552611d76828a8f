/** The stack machine that runs the operations of a transaction. Its stack and
    allowance table outlive a transaction; the chain state is handed in. */
module Executor {
  import opened Prelude
  import opened Bytes
  import opened Protocol

  datatype Account = Account(address: Text, balance: u64)

  datatype ChainState = ChainState(accounts: map<Text, Account>, intents: seq<DepositIntent>,
                                   pending: seq<Transaction>, height: nat)

  datatype Verdict = Approved | Rejected | Unavailable

  /** The oracle as a function of its question, and the texts that decode. */
  datatype Env = Env(oracle: (Text, u64, Bytes) -> Verdict, utf8: Bytes -> bool)

  datatype Machine = Machine(stack: seq<Bytes>, allowance: map<Text, u64>, chain: ChainState)

  datatype Error =
    | MissingTxHash | BadTxHash | MissingAddress | BadAddress | MissingAmount | BadAmount
    | OracleFailed | InsufficientAllowance | InsufficientBalance | StorageFailed

  /** Addition as compiled without overflow checks. */
  function WrappingAdd(a: u64, b: u64): u64 {
    if a + b < U64_LIMIT then a + b else a + b - U64_LIMIT
  }

  function SaturatingSub(a: u64, b: u64): u64 {
    if b <= a then a - b else 0
  }

  function Entry(table: map<Text, u64>, a: Text): u64 {
    if a in table then table[a] else 0
  }

  function Allowance(m: Machine, a: Text): u64 {
    Entry(m.allowance, a)
  }

  function AccountOf(accounts: map<Text, Account>, a: Text): Account {
    if a in accounts then accounts[a] else Account(a, 0)
  }

  function Balance(m: Machine, a: Text): u64 {
    AccountOf(m.chain.accounts, a).balance
  }

  function Result64(ok: bool): Bytes {
    EncodeU64(if ok then 1 else 0)
  }

  // ---------- Arguments ----------

  datatype Query = Query(address: Text, amount: u64, txHash: Bytes)

  /** What an operation leaves of the stack, and its arguments or the error. */
  datatype Popped<A> = Popped(rest: seq<Bytes>, args: Result<A, Error>)

  function Top(s: seq<Bytes>): Bytes
    requires s != []
  {
    s[|s| - 1]
  }

  function Below(s: seq<Bytes>): seq<Bytes>
    requires s != []
  {
    s[..|s| - 1]
  }

  /** Hash, address and amount, each checked as soon as it is popped. */
  function PopQuery(env: Env, s: seq<Bytes>): Popped<Query> {
    if s == [] then Popped(s, Err(MissingTxHash))
    else if |Top(s)| != TXID_BYTES then Popped(Below(s), Err(BadTxHash))
    else
      var s1 := Below(s);
      if s1 == [] then Popped(s1, Err(MissingAddress))
      else if !env.utf8(Top(s1)) then Popped(Below(s1), Err(BadAddress))
      else
        var s2 := Below(s1);
        if s2 == [] then Popped(s2, Err(MissingAmount))
        else if |Top(s2)| != 8 then Popped(Below(s2), Err(BadAmount))
        else Popped(Below(s2), Ok(Query(Top(s1), DecodeU64(Top(s2)), Top(s))))
  }

  datatype Transfer = Transfer(address: Text, amount: u64)

  /** Address and amount, checked only after both are popped. */
  function PopTransfer(env: Env, s: seq<Bytes>): Popped<Transfer> {
    if s == [] then Popped(s, Err(MissingAddress))
    else
      var s1 := Below(s);
      if s1 == [] then Popped(s1, Err(MissingAmount))
      else if !env.utf8(Top(s)) then Popped(Below(s1), Err(BadAddress))
      else if |Top(s1)| != 8 then Popped(Below(s1), Err(BadAmount))
      else Popped(Below(s1), Ok(Transfer(Top(s), DecodeU64(Top(s1)))))
  }

  // ---------- Operations ----------

  /** The machine after an operation, and the error that stopped it. */
  datatype Outcome = Outcome(m: Machine, error: Option<Error>)

  function CheckOracle(env: Env, m: Machine): Outcome {
    var p := PopQuery(env, m.stack);
    match p.args
    case Err(e) => Outcome(m.(stack := p.rest), Some(e))
    case Ok(q) =>
      match env.oracle(q.address, q.amount, q.txHash)
      case Unavailable => Outcome(m.(stack := p.rest), Some(OracleFailed))
      case Rejected => Outcome(m.(stack := p.rest + [Result64(false)]), None)
      case Approved =>
        Outcome(m.(stack := p.rest + [Result64(true)],
                allowance := m.allowance[q.address := WrappingAdd(Allowance(m, q.address), q.amount)]), None)
  }

  function WithBalance(c: ChainState, a: Text, balance: u64): ChainState {
    c.(accounts := c.accounts[a := AccountOf(c.accounts, a).(balance := balance)])
  }

  function IncrementBalance(env: Env, m: Machine): Outcome {
    var p := PopTransfer(env, m.stack);
    match p.args
    case Err(e) => Outcome(m.(stack := p.rest), Some(e))
    case Ok(t) =>
      if Allowance(m, t.address) < t.amount then Outcome(m.(stack := p.rest), Some(InsufficientAllowance))
      else
        Outcome(Machine(p.rest + [Result64(true)],
                        m.allowance[t.address := Allowance(m, t.address) - t.amount],
                        WithBalance(m.chain, t.address, WrappingAdd(Balance(m, t.address), t.amount))), None)
  }

  function DecrementBalance(env: Env, m: Machine): Outcome {
    var p := PopTransfer(env, m.stack);
    match p.args
    case Err(e) => Outcome(m.(stack := p.rest), Some(e))
    case Ok(t) =>
      if Balance(m, t.address) < t.amount then Outcome(m.(stack := p.rest), Some(InsufficientBalance))
      else
        Outcome(m.(stack := p.rest + [Result64(true)],
                chain := WithBalance(m.chain, t.address, SaturatingSub(Balance(m, t.address), t.amount))), None)
  }

  function Step(env: Env, m: Machine, op: Operation): Outcome {
    match op
    case OpPush(v) => Outcome(m.(stack := m.stack + [v]), None)
    case OpCheckOracle => CheckOracle(env, m)
    case OpIncrementBalance => IncrementBalance(env, m)
    case OpDecrementBalance => DecrementBalance(env, m)
  }

  function Run(env: Env, m: Machine, ops: seq<Operation>): Outcome
    decreases |ops|
  {
    if ops == [] then Outcome(m, None)
    else
      var r := Step(env, m, ops[0]);
      if r.error.Some? then r else Run(env, r.m, ops[1..])
  }

  lemma {:induction false} RunConcat(env: Env, m: Machine, a: seq<Operation>, b: seq<Operation>)
    ensures var r := Run(env, m, a);
            Run(env, m, a + b) == if r.error.Some? then r else Run(env, r.m, b)
    decreases |a|
  {
    if a == [] {
      assert a + b == b;
    } else {
      var r := Step(env, m, a[0]);
      assert (a + b)[1..] == a[1..] + b;
      if r.error.None? {
        RunConcat(env, r.m, a[1..], b);
      }
    }
  }

  /** What is wrong with the operands of a transfer, read off the stack: one is
      missing, or both are there and the address, then the amount, is looked at. */
  lemma {:induction false} TransferErrors(env: Env, m: Machine, op: Operation)
    requires op.OpIncrementBalance? || op.OpDecrementBalance?
    ensures var r, n := Step(env, m, op), |m.stack|;
            && (r.error == Some(MissingAddress) <==> n == 0)
            && (r.error == Some(MissingAmount) <==> n == 1)
            && (r.error == Some(BadAddress) <==> n >= 2 && !env.utf8(m.stack[n - 1]))
            && (r.error == Some(BadAmount) <==> n >= 2 && env.utf8(m.stack[n - 1]) && |m.stack[n - 2]| != 8)
            && (r.error.Some? ==> r.m == m.(stack := m.stack[..if n < 2 then 0 else n - 2]))
  {
    var s := m.stack;
    if |s| >= 2 {
      assert Below(Below(s)) == s[..|s| - 2];
    } else if |s| == 1 {
      assert Below(s) == [];
    } else {
      assert s[..0] == s;
    }
  }

  /** And with those of an oracle query, where each is looked at as it is popped. */
  lemma {:induction false} QueryErrors(env: Env, m: Machine)
    ensures var r, n := Step(env, m, OpCheckOracle), |m.stack|;
            && (r.error == Some(MissingTxHash) <==> n == 0)
            && (r.error == Some(BadTxHash) <==> n >= 1 && |m.stack[n - 1]| != TXID_BYTES)
            && (r.error == Some(MissingAddress) <==> n == 1 && |m.stack[0]| == TXID_BYTES)
            && (r.error == Some(BadAddress) <==>
                  n >= 2 && |m.stack[n - 1]| == TXID_BYTES && !env.utf8(m.stack[n - 2]))
            && (r.error == Some(MissingAmount) <==>
                  n == 2 && |m.stack[1]| == TXID_BYTES && env.utf8(m.stack[0]))
            && (r.error == Some(BadAmount) <==>
                  n >= 3 && |m.stack[n - 1]| == TXID_BYTES && env.utf8(m.stack[n - 2]) && |m.stack[n - 3]| != 8)
  {
  }

  // ---------- Stack frames ----------

  /** The machine with `s` put underneath its stack. */
  function Under(s: seq<Bytes>, m: Machine): Machine {
    m.(stack := s + m.stack)
  }

  predicate Underflow(e: Option<Error>) {
    e.Some? && (e.value.MissingTxHash? || e.value.MissingAddress? || e.value.MissingAmount?)
  }

  lemma {:induction false} PopUnder(s: seq<Bytes>, t: seq<Bytes>)
    requires t != []
    ensures Top(s + t) == Top(t) && Below(s + t) == s + Below(t)
  {
  }

  lemma {:induction false} QueryFrame(env: Env, s: seq<Bytes>, t: seq<Bytes>)
    ensures var p := PopQuery(env, t);
            (p.args.Err? && Underflow(Some(p.args.error))) ||
            PopQuery(env, s + t) == Popped(s + p.rest, p.args)
  {
    if t != [] {
      PopUnder(s, t);
      var t1 := Below(t);
      if t1 != [] {
        PopUnder(s, t1);
        if Below(t1) != [] {
          PopUnder(s, Below(t1));
        }
      }
    }
  }

  lemma {:induction false} TransferFrame(env: Env, s: seq<Bytes>, t: seq<Bytes>)
    ensures var p := PopTransfer(env, t);
            (p.args.Err? && Underflow(Some(p.args.error))) ||
            PopTransfer(env, s + t) == Popped(s + p.rest, p.args)
  {
    if t != [] {
      PopUnder(s, t);
      if Below(t) != [] {
        PopUnder(s, Below(t));
      }
    }
  }

  lemma {:induction false} AppendUnder(s: seq<Bytes>, t: seq<Bytes>, v: Bytes)
    ensures (s + t) + [v] == s + (t + [v])
  {
  }

  lemma {:induction false} CheckOracleFrame(env: Env, s: seq<Bytes>, m: Machine)
    ensures var r := CheckOracle(env, m);
            Underflow(r.error) || CheckOracle(env, Under(s, m)) == Outcome(Under(s, r.m), r.error)
  {
    QueryFrame(env, s, m.stack);
    var rest := PopQuery(env, m.stack).rest;
    AppendUnder(s, rest, Result64(true));
    AppendUnder(s, rest, Result64(false));
  }

  lemma {:induction false} IncrementFrame(env: Env, s: seq<Bytes>, m: Machine)
    ensures var r := IncrementBalance(env, m);
            Underflow(r.error) || IncrementBalance(env, Under(s, m)) == Outcome(Under(s, r.m), r.error)
  {
    TransferFrame(env, s, m.stack);
    var rest := PopTransfer(env, m.stack).rest;
    AppendUnder(s, rest, Result64(true));
    AppendUnder(s, rest, Result64(false));
  }

  lemma {:induction false} DecrementFrame(env: Env, s: seq<Bytes>, m: Machine)
    ensures var r := DecrementBalance(env, m);
            Underflow(r.error) || DecrementBalance(env, Under(s, m)) == Outcome(Under(s, r.m), r.error)
  {
    TransferFrame(env, s, m.stack);
    var rest := PopTransfer(env, m.stack).rest;
    AppendUnder(s, rest, Result64(true));
    AppendUnder(s, rest, Result64(false));
  }

  lemma {:induction false} StepFrame(env: Env, s: seq<Bytes>, m: Machine, op: Operation)
    ensures var r := Step(env, m, op);
            Underflow(r.error) || Step(env, Under(s, m), op) == Outcome(Under(s, r.m), r.error)
  {
    match op
    case OpPush(v) => AppendUnder(s, m.stack, v);
    case OpCheckOracle => CheckOracleFrame(env, s, m);
    case OpIncrementBalance => IncrementFrame(env, s, m);
    case OpDecrementBalance => DecrementFrame(env, s, m);
  }

  /** What a program does without running out of stack it does the same above
      any leftover stack, success or failure, and the leftover stays. */
  lemma {:induction false} RunFrame(env: Env, s: seq<Bytes>, m: Machine, ops: seq<Operation>)
    ensures var r := Run(env, m, ops);
            Underflow(r.error) || Run(env, Under(s, m), ops) == Outcome(Under(s, r.m), r.error)
    decreases |ops|
  {
    if ops != [] {
      StepFrame(env, s, m, ops[0]);
      var r := Step(env, m, ops[0]);
      if r.error.None? {
        RunFrame(env, s, r.m, ops[1..]);
      }
    }
  }

  // ---------- Programs that bring their own arguments ----------

  /** The stack depth after `ops` from depth `d`, unless some operation would
      reach below. */
  function Depth(ops: seq<Operation>, d: nat): Option<nat>
    decreases |ops|
  {
    if ops == [] then Some(d)
    else
      match ops[0]
      case OpPush(_) => Depth(ops[1..], d + 1)
      case OpCheckOracle => if d < 3 then None else Depth(ops[1..], d - 2)
      case _ => if d < 2 then None else Depth(ops[1..], d - 1)
  }

  predicate SelfContained(ops: seq<Operation>) {
    Depth(ops, 0).Some?
  }

  /** What an operation needs on the stack, and what it leaves. */
  function Needs(op: Operation): nat {
    match op
    case OpPush(_) => 0
    case OpCheckOracle => 3
    case _ => 2
  }

  lemma {:induction false} StepDepth(env: Env, m: Machine, op: Operation)
    requires Needs(op) <= |m.stack|
    ensures var r := Step(env, m, op);
            && !Underflow(r.error)
            && (r.error.None? ==> |r.m.stack| == |m.stack| - Needs(op) + 1)
  {
    match op
    case OpPush(_) =>
    case OpCheckOracle =>
      assert |Below(m.stack)| == |m.stack| - 1 && |Below(Below(m.stack))| == |m.stack| - 2;
    case _ =>
      assert |Below(m.stack)| == |m.stack| - 1;
  }

  lemma {:induction false} NoUnderflow(env: Env, m: Machine, ops: seq<Operation>)
    requires Depth(ops, |m.stack|).Some?
    ensures !Underflow(Run(env, m, ops).error)
    decreases |ops|
  {
    if ops != [] {
      StepDepth(env, m, ops[0]);
      var r := Step(env, m, ops[0]);
      if r.error.None? {
        assert Depth(ops[1..], |r.m.stack|) == Depth(ops, |m.stack|);
        NoUnderflow(env, r.m, ops[1..]);
      }
    }
  }

  class TransactionExecutor {
    const env: Env
    var allowanceList: map<Text, u64>
    var stack: seq<Bytes>
    var newChainState: ChainState

    ghost function View(): Machine
      reads this
    {
      Machine(stack, allowanceList, newChainState)
    }

    constructor (env: Env)
      ensures this.env == env
      ensures View() == Machine([], map[], ChainState(map[], [], [], 0))
    {
      this.env := env;
      allowanceList, stack := map[], [];
      newChainState := ChainState(map[], [], [], 0);
    }

    method Push(value: Bytes)
      modifies this`stack
      ensures stack == old(stack) + [value]
    {
      stack := stack + [value];
    }

    method Pop() returns (r: Option<Bytes>)
      modifies this`stack
      ensures old(stack) == [] ==> r.None? && stack == []
      ensures old(stack) != [] ==> r == Some(Top(old(stack))) && stack == Below(old(stack))
    {
      if stack == [] {
        return None;
      }
      r := Some(stack[|stack| - 1]);
      stack := stack[..|stack| - 1];
    }

    method OpCheckOracle() returns (error: Option<Error>)
      modifies this`stack, this`allowanceList
      ensures Outcome(View(), error) == CheckOracle(env, old(View()))
    {
      var txHash := Pop();
      if txHash.None? { return Some(MissingTxHash); }
      if |txHash.value| != TXID_BYTES { return Some(BadTxHash); }
      var address := Pop();
      if address.None? { return Some(MissingAddress); }
      if !env.utf8(address.value) { return Some(BadAddress); }
      var bytes := Pop();
      if bytes.None? { return Some(MissingAmount); }
      if |bytes.value| != 8 { return Some(BadAmount); }
      var amount := DecodeU64(bytes.value);
      match env.oracle(address.value, amount, txHash.value)
      case Unavailable => return Some(OracleFailed);
      case Rejected =>
        Push(EncodeU64(0));
        return None;
      case Approved =>
        var current := if address.value in allowanceList then allowanceList[address.value] else 0;
        allowanceList := allowanceList[address.value := WrappingAdd(current, amount)];
        Push(EncodeU64(1));
        return None;
    }

    /** Address and amount, as both balance operations pop them. */
    method PopTransferArgs() returns (r: Result<Transfer, Error>)
      modifies this`stack
      ensures Popped(stack, r) == PopTransfer(env, old(stack))
    {
      var address := Pop();
      if address.None? { return Err(MissingAddress); }
      var bytes := Pop();
      if bytes.None? { return Err(MissingAmount); }
      if !env.utf8(address.value) { return Err(BadAddress); }
      if |bytes.value| != 8 { return Err(BadAmount); }
      return Ok(Transfer(address.value, DecodeU64(bytes.value)));
    }

    method OpIncrementBalance() returns (error: Option<Error>)
      modifies this
      ensures Outcome(View(), error) == IncrementBalance(env, old(View()))
    {
      var args := PopTransferArgs();
      if args.Err? { return Some(args.error); }
      var address, amount := args.value.address, args.value.amount;
      var current := if address in allowanceList then allowanceList[address] else 0;
      if current < amount { return Some(InsufficientAllowance); }
      allowanceList := allowanceList[address := current - amount];
      var account := AccountOf(newChainState.accounts, address);
      account := account.(balance := WrappingAdd(account.balance, amount));
      newChainState := newChainState.(accounts := newChainState.accounts[address := account]);
      Push(EncodeU64(1));
      return None;
    }

    method OpDecrementBalance() returns (error: Option<Error>)
      modifies this`stack, this`newChainState
      ensures Outcome(View(), error) == DecrementBalance(env, old(View()))
    {
      var args := PopTransferArgs();
      if args.Err? { return Some(args.error); }
      var address, amount := args.value.address, args.value.amount;
      var account := AccountOf(newChainState.accounts, address);
      if account.balance < amount { return Some(InsufficientBalance); }
      account := account.(balance := SaturatingSub(account.balance, amount));
      newChainState := newChainState.(accounts := newChainState.accounts[address := account]);
      Push(EncodeU64(1));
      return None;
    }

    method ExecuteTransaction(tx: Transaction, chain: ChainState) returns (r: Result<ChainState, Error>)
      modifies this
      ensures var out := Run(env, old(View()).(chain := chain), tx.operations);
              && View() == out.m
              && r == if out.error.None? then Ok(out.m.chain) else Err(out.error.value)
    {
      newChainState := chain;
      ghost var out := Run(env, View(), tx.operations);
      var i := 0;
      assert tx.operations[0..] == tx.operations;
      while i < |tx.operations|
        invariant 0 <= i <= |tx.operations|
        invariant Run(env, View(), tx.operations[i..]) == out
      {
        ghost var before := View();
        assert tx.operations[i..][1..] == tx.operations[i + 1..];
        var error := None;
        match tx.operations[i] {
          case OpPush(v) => Push(v);
          case OpCheckOracle => error := OpCheckOracle();
          case OpIncrementBalance => error := OpIncrementBalance();
          case OpDecrementBalance => error := OpDecrementBalance();
        }
        assert Outcome(View(), error) == Step(env, before, tx.operations[i]);
        if error.Some? {
          return Err(error.value);
        }
        i := i + 1;
      }
      return Ok(newChainState);
    }
  }
}
