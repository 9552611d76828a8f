/** The chain's own transactions: short stack programs with metadata. */
module Protocol {
  import opened Prelude
  import opened Bytes
  import opened Sorting
  import Bitcoin

  /** Text is kept as the bytes of its encoding. */
  type Text = Bytes

  datatype Operation =
    | OpPush(value: Bytes)
    | OpCheckOracle
    | OpIncrementBalance
    | OpDecrementBalance

  datatype TransactionType = Deposit | Withdrawal

  /** The metadata fields that the code looks up, each possibly absent. */
  datatype Metadata = Metadata(tx: Option<Bitcoin.Transaction>, userPubkey: Option<Text>,
                               amountSat: Option<nat>, addressTo: Option<Text>)

  datatype Transaction = Transaction(version: nat, kind: TransactionType, operations: seq<Operation>,
                                     metadata: Option<Metadata>)

  datatype DepositIntent = DepositIntent(amountSat: u64, userPubkey: Text, trackingId: Text,
                                         depositAddress: Text, timestamp: nat)

  const TXID_BYTES: nat := 32

  function DepositOperations(txid: Bytes, user: Text, amount: nat): seq<Operation> {
    [OpPush(EncodeU64(amount)), OpPush(user), OpPush(txid), OpCheckOracle,
     OpPush(EncodeU64(amount)), OpPush(user), OpIncrementBalance]
  }

  function WithdrawalOperations(user: Text, amount: nat): seq<Operation> {
    [OpPush(EncodeU64(amount)), OpPush(user), OpDecrementBalance]
  }

  /** `txid` is the id of `tx` in bytes. */
  function CreateDeposit(tx: Bitcoin.Transaction, txid: Bytes, user: Text, amount: nat): Transaction {
    Transaction(1, Deposit, DepositOperations(txid, user, amount),
                Some(Metadata(Some(tx), Some(user), Some(amount), None)))
  }

  function CreateWithdrawal(user: Text, addressTo: Text, amount: nat): Transaction {
    Transaction(1, Withdrawal, WithdrawalOperations(user, amount),
                Some(Metadata(None, Some(user), Some(amount), Some(addressTo))))
  }

  /** `add_transaction_to_block`: a pending transaction is not added again. */
  function AddPending(pool: seq<Transaction>, tx: Transaction): seq<Transaction> {
    if tx in pool then pool else pool + [tx]
  }

  function AddAll(pool: seq<Transaction>, txs: seq<Transaction>): seq<Transaction>
    decreases |txs|
  {
    if txs == [] then pool else AddAll(AddPending(pool, txs[0]), txs[1..])
  }

  lemma {:induction false} AddAllSnoc(pool: seq<Transaction>, txs: seq<Transaction>, t: Transaction)
    ensures AddAll(pool, txs + [t]) == AddPending(AddAll(pool, txs), t)
    decreases |txs|
  {
    if txs == [] {
      assert [] + [t] == [t] && [t][1..] == [];
    } else {
      assert (txs + [t])[1..] == txs[1..] + [t];
      AddAllSnoc(AddPending(pool, txs[0]), txs[1..], t);
    }
  }

  lemma {:induction false} AddAllMembers(pool: seq<Transaction>, txs: seq<Transaction>)
    ensures forall t :: t in AddAll(pool, txs) <==> t in pool || t in txs
    decreases |txs|
  {
    if txs != [] {
      AddAllMembers(AddPending(pool, txs[0]), txs[1..]);
      assert txs == [txs[0]] + txs[1..];
    }
  }

  lemma {:induction false} AddAllDistinct(pool: seq<Transaction>, txs: seq<Transaction>)
    requires Distinct(pool)
    ensures Distinct(AddAll(pool, txs))
    decreases |txs|
  {
    if txs != [] {
      DistinctSnoc(pool, txs[0]);
      AddAllDistinct(AddPending(pool, txs[0]), txs[1..]);
    }
  }

  /** The pool grows by one for every transaction added exactly if they are new
      to it and to each other. */
  lemma {:induction false} AddAllSize(pool: seq<Transaction>, txs: seq<Transaction>)
    ensures |AddAll(pool, txs)| <= |pool| + |txs|
    ensures |AddAll(pool, txs)| == |pool| + |txs| <==> Distinct(txs) && forall t :: t in txs ==> t !in pool
  {
    if txs != [] {
      var init, last := txs[..|txs| - 1], txs[|txs| - 1];
      assert txs == init + [last];
      AddAllSize(pool, init);
      AddAllSnoc(pool, init, last);
      AddAllMembers(pool, init);
      DistinctSnoc(init, last);
    }
  }

  /** The first intent for a deposit address. */
  function FindIntent(intents: seq<DepositIntent>, address: Text): (r: Option<DepositIntent>)
    ensures r.Some? ==> r.value in intents && r.value.depositAddress == address
    ensures r.None? <==> forall i :: i in intents ==> i.depositAddress != address
  {
    if intents == [] then None
    else if intents[0].depositAddress == address then Some(intents[0])
    else FindIntent(intents[1..], address)
  }

  /** `remove_deposit_intent` drops every intent for the address. */
  function DropIntents(intents: seq<DepositIntent>, address: Text): (r: seq<DepositIntent>)
    ensures forall i :: i in r <==> i in intents && i.depositAddress != address
  {
    if intents == [] then []
    else (if intents[0].depositAddress == address then [] else [intents[0]]) + DropIntents(intents[1..], address)
  }
}
