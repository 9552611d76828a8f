/** What a block's withdrawals are paid on Bitcoin and debited on the ledger. */
module Withdrawals {
  import opened Prelude
  import opened Bytes
  import opened Repeats
  import opened Executor
  import opened Programs
  import opened Chain
  import opened Convergence
  import opened Replays
  import P = Protocol
  import B = Bitcoin
  import W = Wallet
  import D = Deposits

  /** What the constructors are called with. */
  datatype Item =
    | Credit(tx: B.Transaction, txid: Bytes, user: P.Text, amount: u64)
    | Draw(user: P.Text, to: P.Text, amount: u64)

  function Build(item: Item): P.Transaction {
    match item
    case Credit(tx, txid, user, amount) => P.CreateDeposit(tx, txid, user, amount)
    case Draw(user, to, amount) => P.CreateWithdrawal(user, to, amount)
  }

  function BuildAll(items: seq<Item>): (r: seq<P.Transaction>)
    ensures |r| == |items| && forall i :: 0 <= i < |items| ==> r[i] == Build(items[i])
  {
    seq(|items|, i requires 0 <= i < |items| => Build(items[i]))
  }

  /** The withdrawals among the items, in order. */
  function Draws(items: seq<Item>): (r: seq<Item>)
    ensures forall i :: 0 <= i < |r| ==> r[i].Draw? && r[i] in items
  {
    if items == [] then []
    else
      var n := |items| - 1;
      Draws(items[..n]) + if items[n].Draw? then [items[n]] else []
  }

  ghost predicate AllParse(items: seq<Item>, parse: P.Text -> Option<B.Address>) {
    forall i :: 0 <= i < |items| && items[i].Draw? ==> parse(items[i].to).Some?
  }

  lemma {:induction false} PayoutsOfItems(items: seq<Item>, parse: P.Text -> Option<B.Address>)
    requires AllParse(items, parse)
    ensures var r, draws := W.Payouts(BuildAll(items), parse), Draws(items);
            && r.Ok? && |r.value| == |draws|
            && forall i :: 0 <= i < |draws| ==>
                             parse(draws[i].to).Some? &&
                             r.value[i] == W.Payout(parse(draws[i].to).value, draws[i].amount)
  {
    if items != [] {
      var n := |items| - 1;
      PayoutsOfItems(items[..n], parse);
      assert BuildAll(items)[..n] == BuildAll(items[..n]);
      PayoutOfItem(items[n], parse);
    }
  }

  lemma {:induction false} PayoutOfItem(item: Item, parse: P.Text -> Option<B.Address>)
    requires item.Draw? ==> parse(item.to).Some?
    ensures if item.Draw? then W.PayoutOf(Build(item), parse) == Ok(W.Payout(parse(item.to).value, item.amount))
            else Build(item).kind != P.Withdrawal
  {
  }

  /** If the addresses parse, the block's Bitcoin transaction pays each withdrawal
      its amount to its address, in order, then any change to the wallet's first
      address, and nothing else. */
  lemma {:induction false} WithdrawalsPaid(w: W.WalletState, items: seq<Item>, parse: P.Text -> Option<B.Address>,
                                           rate: nat, tx: B.Transaction)
    requires AllParse(items, parse) && W.BlockPayout(w, W.Payouts(BuildAll(items), parse), rate, Ok(tx))
    ensures var draws := Draws(items);
            && |draws| <= |tx.outputs| <= |draws| + 1
            && (forall i :: 0 <= i < |draws| ==>
                              parse(draws[i].to).Some? &&
                              tx.outputs[i] == B.TxOut(draws[i].amount, parse(draws[i].to).value.script))
            && (|tx.outputs| > |draws| ==> w.addresses != [] && tx.outputs[|draws|].script == w.addresses[0].script)
  {
    PayoutsOfItems(items, parse);
    W.PaysInOrder(w, W.Payouts(BuildAll(items), parse).value, rate, tx);
  }

  // ---------- Against the ledger ----------

  /** The value of the outputs that pay withdrawals of `a`. */
  function PaidOut(draws: seq<Item>, outs: seq<B.TxOut>, a: P.Text): nat
    requires |draws| <= |outs|
  {
    if draws == [] then 0
    else
      var n := |draws| - 1;
      PaidOut(draws[..n], outs, a) + if draws[n].user == a then outs[n].value else 0
  }

  /** What the items deposit for `a`. */
  function PaidIn(items: seq<Item>, a: P.Text): nat {
    if items == [] then 0
    else
      var n := |items| - 1;
      PaidIn(items[..n], a) + if items[n].Credit? && items[n].user == a then items[n].amount else 0
  }

  ghost predicate WellFormed(env: Executor.Env, item: Item) {
    env.utf8(item.user) && (item.Credit? ==> |item.txid| == P.TXID_BYTES)
  }

  function MovementFor(item: Item): Movement {
    match item
    case Credit(_, txid, user, amount) => Paid(user, amount, txid)
    case Draw(user, _, amount) => Drawn(user, amount)
  }

  lemma {:induction false} ItemAmounts(env: Executor.Env, item: Item, a: P.Text)
    requires WellFormed(env, item)
    ensures Encodes(env, Build(item), MovementFor(item))
    ensures PaidTo(a)(Build(item).operations) == if item.Credit? && item.user == a then item.amount else 0
    ensures DrawnFrom(a)(Build(item).operations) == if item.Draw? && item.user == a then item.amount else 0
  {
    MovementAmounts(env, Build(item), MovementFor(item), a);
  }

  lemma {:induction false} ListedSnoc(txs: seq<P.Transaction>, n: nat, weight: seq<P.Operation> -> nat)
    requires |txs| == n + 1
    ensures Sum(Listed(txs), weight) == Sum(Listed(txs[..n]), weight) + weight(txs[n].operations)
  {
    assert Listed(txs) == Listed(txs[..n]) + [txs[n].operations];
    SumSnoc(Listed(txs[..n]), txs[n].operations, weight);
  }

  /** The outputs have the amounts of the withdrawals. */
  ghost predicate Amounts(draws: seq<Item>, outs: seq<B.TxOut>) {
    |draws| <= |outs| && forall i :: 0 <= i < |draws| ==> outs[i].value == draws[i].amount
  }

  lemma {:induction false} DrawsSnoc(items: seq<Item>, n: nat, outs: seq<B.TxOut>, a: P.Text)
    requires |items| == n + 1 && Amounts(Draws(items), outs)
    ensures Amounts(Draws(items[..n]), outs)
    ensures PaidOut(Draws(items), outs, a) ==
            PaidOut(Draws(items[..n]), outs, a) + if items[n].Draw? && items[n].user == a then items[n].amount else 0
  {
    var before := Draws(items[..n]);
    assert forall i :: 0 <= i < |before| ==> before[i] == Draws(items)[i];
    if items[n].Draw? {
      assert Draws(items) == before + [items[n]];
      assert Draws(items)[..|before|] == before;
    } else {
      assert Draws(items) == before;
    }
  }

  lemma {:induction false} ItemPays(env: Executor.Env, item: Item, a: P.Text)
    requires WellFormed(env, item)
    ensures PaidTo(a)(Build(item).operations) == if item.Credit? && item.user == a then item.amount else 0
    ensures DrawnFrom(a)(Build(item).operations) == if item.Draw? && item.user == a then item.amount else 0
  {
    ItemAmounts(env, item, a);
  }

  lemma {:induction false} BuiltSnoc(items: seq<Item>, n: nat, weight: seq<P.Operation> -> nat)
    requires |items| == n + 1
    ensures Sum(Listed(BuildAll(items)), weight) ==
            Sum(Listed(BuildAll(items[..n])), weight) + weight(Build(items[n]).operations)
  {
    assert BuildAll(items)[..n] == BuildAll(items[..n]);
    ListedSnoc(BuildAll(items), n, weight);
  }

  ghost predicate AllWellFormed(env: Executor.Env, items: seq<Item>) {
    forall i :: 0 <= i < |items| ==> WellFormed(env, items[i])
  }

  lemma {:induction false} NothingBuilt(weight: seq<P.Operation> -> nat)
    ensures Sum(Listed(BuildAll([])), weight) == 0
  {
    assert BuildAll([]) == [] && Listed([]) == [];
  }

  lemma {:induction false} PaidSums(env: Executor.Env, items: seq<Item>, a: P.Text)
    requires AllWellFormed(env, items)
    ensures Sum(Listed(BuildAll(items)), PaidTo(a)) == PaidIn(items, a)
  {
    if items == [] {
      NothingBuilt(PaidTo(a));
    } else {
      var n := |items| - 1;
      PaidSums(env, items[..n], a);
      BuiltSnoc(items, n, PaidTo(a));
      ItemPays(env, items[n], a);
    }
  }

  lemma {:induction false} DrawnSums(env: Executor.Env, items: seq<Item>, outs: seq<B.TxOut>, a: P.Text)
    requires AllWellFormed(env, items) && Amounts(Draws(items), outs)
    ensures Sum(Listed(BuildAll(items)), DrawnFrom(a)) == PaidOut(Draws(items), outs, a)
  {
    if items == [] {
      NothingBuilt(DrawnFrom(a));
    } else {
      var n := |items| - 1;
      DrawsSnoc(items, n, outs, a);
      DrawnSums(env, items[..n], outs, a);
      BuiltSnoc(items, n, DrawnFrom(a));
      ItemPays(env, items[n], a);
    }
  }

  /** A block that succeeds on the ledger debits each account exactly the value of
      the outputs that pay its withdrawals on Bitcoin, and credits it exactly
      what the block deposits for it. */
  lemma {:induction false} DebitedIsPaid(env: Executor.Env, m: Machine, w: W.WalletState, items: seq<Item>,
                                         parse: P.Text -> Option<B.Address>, rate: nat, tx: B.Transaction, a: P.Text)
    requires AllParse(items, parse) && W.BlockPayout(w, W.Payouts(BuildAll(items), parse), rate, Ok(tx))
    requires NoAllowance(m) && AllWellFormed(env, items)
    requires RunAll(env, m, BuildAll(items)).error.None? && Balance(m, a) + PaidIn(items, a) < U64_LIMIT
    ensures |Draws(items)| <= |tx.outputs|
    ensures Balance(RunAll(env, m, BuildAll(items)).m, a) + PaidOut(Draws(items), tx.outputs, a) ==
            Balance(m, a) + PaidIn(items, a)
  {
    var txs := BuildAll(items);
    var mvs := seq(|items|, i requires 0 <= i < |items| => MovementFor(items[i]));
    WithdrawalsPaid(w, items, parse, rate, tx);
    PaidSums(env, items, a);
    DrawnSums(env, items, tx.outputs, a);
    forall i | 0 <= i < |items|
      ensures Encodes(env, txs[i], mvs[i])
    {
      ItemAmounts(env, items[i], a);
    }
    BlockIsMovements(env, m, txs, mvs);
    MovesBalance(env, m.chain, txs, mvs, a);
  }

  // ---------- Withdrawals announced by other nodes ----------

  lemma {:induction false} RelayedPool(st: D.DepositState, p: D.PendingSpend, i: nat)
    requires st.pool == [] && i < |p.tx.outputs| && p.tx.outputs[i].script == p.recipientScript
    requires forall j :: 0 <= j < i ==> p.tx.outputs[j].script != p.recipientScript
    ensures D.Relay(st, p, D.RelayLuck(true, true)).pool ==
            [P.CreateWithdrawal(p.userPubkey, p.addressTo, (p.tx.outputs[i].value + p.fee) % U64_LIMIT)]
  {
    D.PaymentIs(p.tx.outputs, p.recipientScript, i);
    D.RelayAdds(st, p, p.tx.outputs[i]);
    FirstPending(P.CreateWithdrawal(p.userPubkey, p.addressTo, D.Debit(p.tx.outputs[i].value, p.fee)));
  }

  lemma {:induction false} FirstPending(t: P.Transaction)
    ensures P.AddPending([], t) == [t]
  {
  }

  /** An announced spend makes one withdrawal pending; run, it takes the value of
      the first output to the recipient's script and the fee, on 64 bits, from
      the account of the user it names, or fails if the account does not cover
      that. */
  lemma {:induction false} RelayedIsDebited(env: Executor.Env, m: Machine, st: D.DepositState, p: D.PendingSpend,
                                            i: nat)
    requires st.pool == [] && env.utf8(p.userPubkey)
    requires i < |p.tx.outputs| && p.tx.outputs[i].script == p.recipientScript
    requires forall j :: 0 <= j < i ==> p.tx.outputs[j].script != p.recipientScript
    ensures var pool := D.Relay(st, p, D.RelayLuck(true, true)).pool;
            var debit := (p.tx.outputs[i].value + p.fee) % U64_LIMIT;
            && |pool| == 1
            && var r := Run(env, m, pool[0].operations);
               && (r.error.None? <==> Balance(m, p.userPubkey) >= debit)
               && (r.error.None? ==> Balance(r.m, p.userPubkey) == Balance(m, p.userPubkey) - debit)
               && (forall a :: a != p.userPubkey ==> Balance(r.m, a) == Balance(m, a))
  {
    var debit := (p.tx.outputs[i].value + p.fee) % U64_LIMIT;
    RelayedPool(st, p, i);
    WithdrawalIsDebit(env, m, p.userPubkey, debit);
  }
}
