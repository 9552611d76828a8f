/** The parts of Bitcoin transactions that the wallet looks at. */
module Bitcoin {
  import opened Bytes

  type Script = Bytes

  datatype OutPoint = OutPoint(txid: Txid, vout: nat)

  /** A transaction id commits to everything but the witnesses (BIP 141), so a
      collision-free id is the stripped transaction itself. Ids of transactions
      that are only known from outside are `External`. */
  datatype Txid =
    | External(tag: nat)
    | Hashed(version: int, lockTime: nat, inputs: seq<StrippedIn>, outputs: seq<TxOut>)

  datatype StrippedIn = StrippedIn(prevout: OutPoint, scriptSig: Script, sequence: nat)

  datatype TxIn = TxIn(stripped: StrippedIn, witnessStack: seq<Bytes>)

  datatype TxOut = TxOut(value: nat, script: Script)

  datatype Transaction = Transaction(version: int, lockTime: nat, inputs: seq<TxIn>, outputs: seq<TxOut>)

  /** `rank` places the address in the library's total order on addresses. */
  datatype Address = Address(rank: int, script: Script)

  datatype Utxo = Utxo(outpoint: OutPoint, value: nat, script: Script)

  datatype TrackedUtxo = TrackedUtxo(utxo: Utxo, address: Address)

  function Strip(ins: seq<TxIn>): (r: seq<StrippedIn>)
    ensures |r| == |ins|
    ensures forall i :: 0 <= i < |ins| ==> r[i] == ins[i].stripped
  {
    seq(|ins|, i requires 0 <= i < |ins| => ins[i].stripped)
  }

  function ComputeTxid(tx: Transaction): Txid {
    Hashed(tx.version, tx.lockTime, Strip(tx.inputs), tx.outputs)
  }

  predicate IsP2wpkh(script: Script) {
    |script| == 22 && script[0] == 0x00 && script[1] == 0x14
  }

  predicate IsP2tr(script: Script) {
    |script| == 34 && script[0] == 0x51 && script[1] == 0x20
  }

  function Total(us: seq<TrackedUtxo>): nat {
    if us == [] then 0 else us[0].utxo.value + Total(us[1..])
  }

  lemma {:induction false} TotalConcat(a: seq<TrackedUtxo>, b: seq<TrackedUtxo>)
    ensures Total(a + b) == Total(a) + Total(b)
  {
    if a == [] {
      assert a + b == b;
    } else {
      assert (a + b)[1..] == a[1..] + b;
      TotalConcat(a[1..], b);
    }
  }
}
