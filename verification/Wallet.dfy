/** The taproot wallet: spends, ingestion of confirmed transactions, and the
    payout transaction of a block. */
module Wallet {
  import opened Prelude
  import opened Bitcoin
  import opened CoinSelection
  import opened PayoutSearch
  import Protocol

  datatype WalletState = WalletState(addresses: seq<Address>, utxos: seq<TrackedUtxo>)

  datatype SpendError = NotEnoughFunds | NoUtxos | NothingToSign | UnsupportedScript

  datatype PayoutError =
    | MissingMetadata | MissingAddress | MissingAmount | BadAddress
    | NoWithdrawals | NoSpendableUtxos | InsufficientFunds | NoChangeAddress

  // ---------- Ingestion ----------

  function Prevouts(ins: seq<TxIn>): (r: seq<OutPoint>)
    ensures |r| == |ins|
    ensures forall i :: 0 <= i < |ins| ==> r[i] == ins[i].stripped.prevout
  {
    seq(|ins|, i requires 0 <= i < |ins| => ins[i].stripped.prevout)
  }

  /** The UTXOs whose outpoint is not in `spent`, in order. */
  function Without(us: seq<TrackedUtxo>, spent: seq<OutPoint>): seq<TrackedUtxo> {
    if us == [] then []
    else (if us[0].utxo.outpoint in spent then [] else [us[0]]) + Without(us[1..], spent)
  }

  /** The first wallet address that pays to `script`. */
  function Owner(addresses: seq<Address>, script: Script): (r: Option<Address>)
    ensures r.Some? ==> r.value in addresses && r.value.script == script
    ensures r.None? <==> forall a :: a in addresses ==> a.script != script
  {
    if addresses == [] then None
    else if addresses[0].script == script then Some(addresses[0])
    else Owner(addresses[1..], script)
  }

  function TrackedAt(addresses: seq<Address>, id: Txid, out: TxOut, vout: nat): seq<TrackedUtxo> {
    match Owner(addresses, out.script)
    case None => []
    case Some(a) => [TrackedUtxo(Utxo(OutPoint(id, vout), out.value, out.script), a)]
  }

  /** The outputs that pay to the wallet, the first of them at index `from`. */
  function TrackedOutputs(addresses: seq<Address>, id: Txid, outs: seq<TxOut>, from: nat): seq<TrackedUtxo> {
    if outs == [] then []
    else TrackedAt(addresses, id, outs[0], from) + TrackedOutputs(addresses, id, outs[1..], from + 1)
  }

  function Created(addresses: seq<Address>, tx: Transaction): seq<TrackedUtxo> {
    TrackedOutputs(addresses, ComputeTxid(tx), tx.outputs, 0)
  }

  function Ingest(w: WalletState, tx: Transaction): WalletState {
    w.(utxos := Without(w.utxos, Prevouts(tx.inputs)) + Created(w.addresses, tx))
  }

  /** Signing replaces witnesses only, and ingestion does not see them. */
  lemma {:induction false} IngestIgnoresWitnesses(w: WalletState, tx: Transaction, signed: Transaction)
    requires signed.version == tx.version && signed.lockTime == tx.lockTime && signed.outputs == tx.outputs
    requires Strip(signed.inputs) == Strip(tx.inputs)
    ensures Ingest(w, signed) == Ingest(w, tx)
  {
    forall i | 0 <= i < |tx.inputs|
      ensures signed.inputs[i].stripped == tx.inputs[i].stripped
    {
      assert Strip(signed.inputs)[i] == Strip(tx.inputs)[i];
    }
    assert Prevouts(signed.inputs) == Prevouts(tx.inputs);
  }

  // ---------- What ingestion keeps and tracks ----------

  ghost predicate Increasing(ks: seq<nat>) {
    forall i, j :: 0 <= i < j < |ks| ==> ks[i] < ks[j]
  }

  ghost predicate SpentBy(tx: Transaction, o: OutPoint) {
    exists i :: 0 <= i < |tx.inputs| && tx.inputs[i].stripped.prevout == o
  }

  /** Some wallet address pays to the script. */
  ghost predicate Owned(addresses: seq<Address>, script: Script) {
    exists k :: 0 <= k < |addresses| && addresses[k].script == script
  }

  /** `a` is the first wallet address that does. */
  ghost predicate FirstOwner(addresses: seq<Address>, script: Script, a: Address) {
    exists k :: 0 <= k < |addresses| && addresses[k] == a && a.script == script &&
                forall j :: 0 <= j < k ==> addresses[j].script != script
  }

  lemma {:induction false} OwnerIsFirst(addresses: seq<Address>, script: Script)
    ensures Owner(addresses, script).Some? <==> Owned(addresses, script)
    ensures Owner(addresses, script).Some? ==> FirstOwner(addresses, script, Owner(addresses, script).value)
  {
    if addresses != [] && addresses[0].script != script {
      var rest := addresses[1..];
      OwnerIsFirst(rest, script);
      if Owned(rest, script) {
        var a := Owner(rest, script).value;
        var k :| 0 <= k < |rest| && rest[k] == a && forall j :: 0 <= j < k ==> rest[j].script != script;
        assert addresses[k + 1] == a;
        forall j | 0 <= j < k + 1
          ensures addresses[j].script != script
        {
          if j > 0 {
            assert rest[j - 1] == addresses[j];
          }
        }
      }
      if Owned(addresses, script) {
        var k :| 0 <= k < |addresses| && addresses[k].script == script;
        assert rest[k - 1] == addresses[k];
      }
    }
  }

  /** `r` are the outputs from `from` on that are not spent, which are at `ks`. */
  ghost predicate KeepsAll(us: seq<TrackedUtxo>, spent: seq<OutPoint>, from: nat, ks: seq<nat>, r: seq<TrackedUtxo>) {
    && Increasing(ks) && |r| == |ks|
    && (forall i: nat :: i in ks <==> from <= i < |us| && us[i].utxo.outpoint !in spent)
    && (forall j :: 0 <= j < |ks| ==> ks[j] < |us| && r[j] == us[ks[j]])
  }

  lemma {:induction false} KeepsCons(us: seq<TrackedUtxo>, spent: seq<OutPoint>, from: nat, ks: seq<nat>,
                                     r: seq<TrackedUtxo>)
    requires from < |us| && KeepsAll(us, spent, from + 1, ks, r) && us[from].utxo.outpoint !in spent
    ensures KeepsAll(us, spent, from, [from] + ks, [us[from]] + r)
  {
    PlacesCons(from, ks);
    var all, r' := [from] + ks, [us[from]] + r;
    forall j | 0 <= j < |all|
      ensures all[j] < |us| && r'[j] == us[all[j]]
    {
      assert all[j] == (if j == 0 then from else ks[j - 1]) && r'[j] == if j == 0 then us[from] else r[j - 1];
    }
  }

  lemma {:induction false} PlacesCons(from: nat, ks: seq<nat>)
    requires Increasing(ks) && forall i :: i in ks ==> from < i
    ensures Increasing([from] + ks) && forall i :: i in [from] + ks <==> i == from || i in ks
  {
    var all := [from] + ks;
    forall i, j | 0 <= i < j < |all|
      ensures all[i] < all[j]
    {
      assert all[j] == ks[j - 1] && ks[j - 1] in ks && all[i] == if i == 0 then from else ks[i - 1];
    }
  }

  lemma {:induction false} KeptPlaces(us: seq<TrackedUtxo>, spent: seq<OutPoint>, from: nat) returns (ks: seq<nat>)
    requires from <= |us|
    ensures KeepsAll(us, spent, from, ks, Without(us[from..], spent))
    decreases |us| - from
  {
    if from == |us| {
      ks := [];
    } else {
      ks := KeptPlaces(us, spent, from + 1);
      var r := Without(us[from + 1..], spent);
      assert us[from..][1..] == us[from + 1..];
      if us[from].utxo.outpoint !in spent {
        KeepsCons(us, spent, from, ks, r);
        ks := [from] + ks;
      } else {
        assert Without(us[from..], spent) == r;
      }
    }
  }

  /** The entry for the output at `i` of a transaction. */
  ghost predicate TracksOutput(addresses: seq<Address>, id: Txid, outs: seq<TxOut>, i: nat, u: TrackedUtxo) {
    && i < |outs| && u.utxo == Utxo(OutPoint(id, i), outs[i].value, outs[i].script)
    && FirstOwner(addresses, outs[i].script, u.address)
  }

  /** `r` tracks the owned outputs from `from` on, which are those at `ks`. */
  ghost predicate TracksAll(addresses: seq<Address>, id: Txid, outs: seq<TxOut>, from: nat, ks: seq<nat>,
                            r: seq<TrackedUtxo>) {
    && Increasing(ks) && |r| == |ks|
    && (forall i: nat :: i in ks <==> from <= i < |outs| && Owned(addresses, outs[i].script))
    && (forall j :: 0 <= j < |ks| ==> TracksOutput(addresses, id, outs, ks[j], r[j]))
  }

  lemma {:induction false} TracksCons(addresses: seq<Address>, id: Txid, outs: seq<TxOut>, from: nat, ks: seq<nat>,
                                      r: seq<TrackedUtxo>, u: TrackedUtxo)
    requires from < |outs| && TracksAll(addresses, id, outs, from + 1, ks, r)
    requires Owned(addresses, outs[from].script) && TracksOutput(addresses, id, outs, from, u)
    ensures TracksAll(addresses, id, outs, from, [from] + ks, [u] + r)
  {
    PlacesCons(from, ks);
    var all, r' := [from] + ks, [u] + r;
    forall j | 0 <= j < |all|
      ensures TracksOutput(addresses, id, outs, all[j], r'[j])
    {
      assert all[j] == (if j == 0 then from else ks[j - 1]) && r'[j] == if j == 0 then u else r[j - 1];
    }
  }

  lemma {:induction false} TrackedAtIs(addresses: seq<Address>, id: Txid, outs: seq<TxOut>, i: nat)
    requires i < |outs|
    ensures var at := TrackedAt(addresses, id, outs[i], i);
            if Owned(addresses, outs[i].script) then |at| == 1 && TracksOutput(addresses, id, outs, i, at[0])
            else at == []
  {
    OwnerIsFirst(addresses, outs[i].script);
  }

  lemma {:induction false} OwnedPlaces(addresses: seq<Address>, id: Txid, outs: seq<TxOut>, from: nat)
    returns (ks: seq<nat>)
    requires from <= |outs|
    ensures TracksAll(addresses, id, outs, from, ks, TrackedOutputs(addresses, id, outs[from..], from))
    decreases |outs| - from
  {
    if from == |outs| {
      ks := [];
    } else {
      ks := OwnedPlaces(addresses, id, outs, from + 1);
      var r := TrackedOutputs(addresses, id, outs[from + 1..], from + 1);
      var at := TrackedAt(addresses, id, outs[from], from);
      TrackedAtIs(addresses, id, outs, from);
      assert outs[from..][1..] == outs[from + 1..] && outs[from..][0] == outs[from];
      assert TrackedOutputs(addresses, id, outs[from..], from) == at + r;
      if Owned(addresses, outs[from].script) {
        TracksCons(addresses, id, outs, from, ks, r, at[0]);
        assert at + r == [at[0]] + r;
        ks := [from] + ks;
      } else {
        assert at + r == r;
      }
    }
  }

  /** Ingestion keeps, in order, exactly the tracked outputs that the transaction
      does not spend, and appends, in order, one entry for each of its outputs
      that pays to a wallet address: its place, value and script, under the
      first such address. */
  lemma {:induction false} IngestExact(w: WalletState, tx: Transaction) returns (kept: seq<nat>, owned: seq<nat>)
    ensures Increasing(kept) && Increasing(owned)
    ensures forall i: nat :: i in kept <==> i < |w.utxos| && !SpentBy(tx, w.utxos[i].utxo.outpoint)
    ensures forall i: nat :: i in owned <==> i < |tx.outputs| && Owned(w.addresses, tx.outputs[i].script)
    ensures var w' := Ingest(w, tx);
            && w'.addresses == w.addresses && |w'.utxos| == |kept| + |owned|
            && (forall j :: 0 <= j < |kept| ==> kept[j] < |w.utxos| && w'.utxos[j] == w.utxos[kept[j]])
            && (forall j :: 0 <= j < |owned| ==>
                  TracksOutput(w.addresses, ComputeTxid(tx), tx.outputs, owned[j], w'.utxos[|kept| + j]))
  {
    var spent := Prevouts(tx.inputs);
    kept := KeptPlaces(w.utxos, spent, 0);
    owned := OwnedPlaces(w.addresses, ComputeTxid(tx), tx.outputs, 0);
    assert w.utxos[0..] == w.utxos && tx.outputs[0..] == tx.outputs;
    forall o: OutPoint
      ensures o in spent <==> SpentBy(tx, o)
    {
      if SpentBy(tx, o) {
        var i :| 0 <= i < |tx.inputs| && tx.inputs[i].stripped.prevout == o;
        assert spent[i] == o;
      }
    }
  }

  // ---------- Spending ----------

  /** The first UTXO address that is least in the library's order. */
  function LeastAddress(us: seq<TrackedUtxo>): (r: Address)
    requires us != []
    ensures exists i :: 0 <= i < |us| && r == us[i].address && forall j :: 0 <= j < i ==> r.rank < us[j].address.rank
    ensures forall i :: 0 <= i < |us| ==> r.rank <= us[i].address.rank
  {
    if |us| == 1 then us[0].address
    else
      var rest := LeastAddress(us[1..]);
      if us[0].address.rank <= rest.rank then us[0].address else rest
  }

  function Outpoints(us: seq<TrackedUtxo>): (r: seq<OutPoint>)
    ensures |r| == |us|
    ensures forall i :: 0 <= i < |us| ==> r[i] == us[i].utxo.outpoint
  {
    seq(|us|, i requires 0 <= i < |us| => us[i].utxo.outpoint)
  }

  function SpendInputs(us: seq<TrackedUtxo>): (r: seq<TxIn>)
    ensures Prevouts(r) == Outpoints(us)
  {
    seq(|us|, i requires 0 <= i < |us| => TxIn(StrippedIn(us[i].utxo.outpoint, [], 0), []))
  }

  function SpendTransaction(sel: seq<TrackedUtxo>, amount: nat, recipient: Address, change: nat,
                            changeTo: Address): Transaction {
    Transaction(2, 0, SpendInputs(sel),
                [TxOut(amount, recipient.script)] +
                if change > DUST then [TxOut(change, changeTo.script)] else [])
  }

  /** Position of the first output paying to `script`. */
  function Position(outs: seq<TxOut>, script: Script): (i: nat)
    requires exists o :: o in outs && o.script == script
    ensures i < |outs| && outs[i].script == script
    ensures forall j :: 0 <= j < i ==> outs[j].script != script
  {
    if outs[0].script == script then 0
    else
      assert outs == [outs[0]] + outs[1..];
      Position(outs[1..], script) + 1
  }

  function ChangeUtxos(tx: Transaction, change: nat, changeTo: Address): seq<TrackedUtxo>
    requires change > DUST ==> exists o :: o in tx.outputs && o.script == changeTo.script
  {
    if change > DUST then
      [TrackedUtxo(Utxo(OutPoint(ComputeTxid(tx), Position(tx.outputs, changeTo.script)), change, changeTo.script),
        changeTo)]
    else []
  }

  lemma {:induction false} SelectFunds(us: seq<TrackedUtxo>, target: nat, sel: seq<TrackedUtxo>)
    requires Select(us, target) == Some(sel)
    ensures Selection(sel, us) && Total(sel) >= target
  {
    SelectOptimal(us, target);
  }

  /** What the selection holds beyond amount and fee. */
  function ChangeOf(sel: seq<TrackedUtxo>, amount: nat, fee: nat): nat
    requires Total(sel) >= amount + fee
  {
    Total(sel) - amount - fee
  }

  function SpendFor(us: seq<TrackedUtxo>, sel: seq<TrackedUtxo>, amount: nat, fee: nat,
                    recipient: Address): (tx: Transaction)
    requires us != [] && Total(sel) >= amount + fee
    ensures ChangeOf(sel, amount, fee) > DUST ==> exists o :: o in tx.outputs && o.script == LeastAddress(us).script
  {
    var change := ChangeOf(sel, amount, fee);
    var tx := SpendTransaction(sel, amount, recipient, change, LeastAddress(us));
    assert change > DUST ==> tx.outputs[1].script == LeastAddress(us).script;
    tx
  }

  predicate Signable(u: TrackedUtxo) {
    IsP2wpkh(u.utxo.script) || IsP2tr(u.utxo.script)
  }

  /** The optimistic update: selected UTXOs go, the change comes. */
  function Spent(w: WalletState, sel: seq<TrackedUtxo>, amount: nat, fee: nat, recipient: Address): WalletState
    requires w.utxos != [] && Total(sel) >= amount + fee
  {
    var tx := SpendFor(w.utxos, sel, amount, fee, recipient);
    w.(utxos := Without(w.utxos, Outpoints(sel)) + ChangeUtxos(tx, ChangeOf(sel, amount, fee), LeastAddress(w.utxos)))
  }

  function SpendSelected(w: WalletState, sel: seq<TrackedUtxo>, amount: nat, fee: nat, recipient: Address, dryRun: bool)
    : (WalletState, Result<Transaction, SpendError>)
    requires Total(sel) >= amount + fee
  {
    if w.utxos == [] then (w, Err(NoUtxos))
    else
      var w' := if dryRun then w else Spent(w, sel, amount, fee, recipient);
      if sel == [] then (w', Err(NothingToSign))
      else if !Signable(sel[0]) then (w', Err(UnsupportedScript))
      else (w', Ok(SpendFor(w.utxos, sel, amount, fee, recipient)))
  }

  /** `create_spend`, including the failures that come after the update. */
  function Spend(w: WalletState, amount: nat, fee: nat, recipient: Address, dryRun: bool)
    : (WalletState, Result<Transaction, SpendError>)
  {
    match Select(w.utxos, amount + fee)
    case None => (w, Err(NotEnoughFunds))
    case Some(sel) =>
      SelectFunds(w.utxos, amount + fee, sel);
      SpendSelected(w, sel, amount, fee, recipient, dryRun)
  }

  lemma {:induction false} SpendIs(w: WalletState, amount: nat, fee: nat, recipient: Address, dryRun: bool,
                                   sel: seq<TrackedUtxo>)
    requires Select(w.utxos, amount + fee) == Some(sel)
    ensures Selection(sel, w.utxos) && Total(sel) >= amount + fee
    ensures Spend(w, amount, fee, recipient, dryRun) == SpendSelected(w, sel, amount, fee, recipient, dryRun)
  {
    SelectFunds(w.utxos, amount + fee, sel);
  }

  lemma {:induction false} SelectedFirst(us: seq<TrackedUtxo>, target: nat, sel: seq<TrackedUtxo>)
    requires Select(us, target) == Some(sel)
    ensures (sel == [] <==> target == 0) && (sel != [] ==> us != [] && sel[0] == ByValue(us)[0])
  {
  }

  /** The failures that come after the selection; a dry run has the same ones. */
  lemma {:induction false} SelectedOutcome(w: WalletState, sel: seq<TrackedUtxo>, amount: nat, fee: nat,
                                           recipient: Address)
    requires Total(sel) >= amount + fee
    ensures var (dry, r) := SpendSelected(w, sel, amount, fee, recipient, true);
            && dry == w && r == SpendSelected(w, sel, amount, fee, recipient, false).1 && LateFailures(w, sel, r)
  {
  }

  lemma {:induction false} SelectNoneIff(us: seq<TrackedUtxo>, target: nat)
    ensures Select(us, target).None? <==> Total(us) < target
  {
    SelectOptimal(us, target);
  }

  /** When a spend fails, and how: for want of funds, for nothing to spend, or for
      a richest output that cannot be signed for. A dry run has the same result
      and leaves the wallet alone. */
  lemma {:induction false} SpendFailsIff(w: WalletState, amount: nat, fee: nat, recipient: Address)
    ensures var (dry, r) := Spend(w, amount, fee, recipient, true);
            && dry == w && r == Spend(w, amount, fee, recipient, false).1
            && FailsWell(w, amount + fee, r)
  {
    SelectNoneIff(w.utxos, amount + fee);
    match Select(w.utxos, amount + fee)
    case None =>
    case Some(sel) => SpendFailsWith(w, amount, fee, recipient, sel);
  }

  ghost predicate FailsWell(w: WalletState, target: nat, r: Result<Transaction, SpendError>) {
    && (r == Err(NotEnoughFunds) <==> Total(w.utxos) < target)
    && (r == Err(NoUtxos) <==> w.utxos == [] && target == 0)
    && (r == Err(NothingToSign) <==> w.utxos != [] && target == 0)
    && (r == Err(UnsupportedScript) <==>
          0 < target <= Total(w.utxos) && w.utxos != [] && !Signable(ByValue(w.utxos)[0]))
    && (r.Err? ==> r.error in {NotEnoughFunds, NoUtxos, NothingToSign, UnsupportedScript})
  }

  lemma {:induction false} SpendFailsWith(w: WalletState, amount: nat, fee: nat, recipient: Address,
                                          sel: seq<TrackedUtxo>)
    requires Select(w.utxos, amount + fee) == Some(sel) && Total(w.utxos) >= amount + fee
    ensures var (dry, r) := Spend(w, amount, fee, recipient, true);
            && dry == w && r == Spend(w, amount, fee, recipient, false).1
            && FailsWell(w, amount + fee, r)
  {
    SpendIs(w, amount, fee, recipient, true, sel);
    SpendIs(w, amount, fee, recipient, false, sel);
    SelectedOutcome(w, sel, amount, fee, recipient);
    SelectedFails(w, amount + fee, sel, Spend(w, amount, fee, recipient, true).1);
  }

  lemma {:induction false} SelectedFails(w: WalletState, target: nat, sel: seq<TrackedUtxo>,
                                         r: Result<Transaction, SpendError>)
    requires Select(w.utxos, target) == Some(sel) && Total(w.utxos) >= target
    requires LateFailures(w, sel, r)
    ensures FailsWell(w, target, r)
  {
    SelectedFirst(w.utxos, target, sel);
    assert w.utxos == [] ==> Total(w.utxos) == 0;
  }

  ghost predicate LateFailures(w: WalletState, sel: seq<TrackedUtxo>, r: Result<Transaction, SpendError>) {
    && (r == Err(NoUtxos) <==> w.utxos == [])
    && (r == Err(NothingToSign) <==> w.utxos != [] && sel == [])
    && (r == Err(UnsupportedScript) <==> w.utxos != [] && sel != [] && !Signable(sel[0]))
    && (r.Err? ==> r.error in {NoUtxos, NothingToSign, UnsupportedScript})
  }

  // ---------- The optimistic update and ingestion ----------

  lemma {:induction false} CreatedBySpend(addresses: seq<Address>, tx: Transaction)
    requires 1 <= |tx.outputs| <= 2
    ensures Created(addresses, tx) ==
            TrackedAt(addresses, ComputeTxid(tx), tx.outputs[0], 0) +
            (if |tx.outputs| == 2 then TrackedAt(addresses, ComputeTxid(tx), tx.outputs[1], 1) else [])
  {
    var id, rest := ComputeTxid(tx), tx.outputs[1..];
    assert Created(addresses, tx) ==
           TrackedAt(addresses, id, tx.outputs[0], 0) + TrackedOutputs(addresses, id, rest, 1);
    if rest != [] {
      assert rest[1..] == [];
      assert TrackedOutputs(addresses, id, rest[1..], 2) == [];
    }
  }

  ghost predicate ChangeOwned(w: WalletState, sel: seq<TrackedUtxo>, amount: nat, fee: nat)
    requires w.utxos != [] && Total(sel) >= amount + fee
  {
    ChangeOf(sel, amount, fee) > DUST ==>
      Owner(w.addresses, LeastAddress(w.utxos).script) == Some(LeastAddress(w.utxos))
  }

  lemma {:induction false} ChangeMatchesCreated(w: WalletState, sel: seq<TrackedUtxo>, amount: nat, fee: nat,
                                                recipient: Address)
    requires w.utxos != [] && Total(sel) >= amount + fee
    ensures var tx := SpendFor(w.utxos, sel, amount, fee, recipient);
            ChangeUtxos(tx, ChangeOf(sel, amount, fee), LeastAddress(w.utxos)) == Created(w.addresses, tx)
            <==> Owner(w.addresses, recipient.script).None? && ChangeOwned(w, sel, amount, fee)
  {
    var tx := SpendFor(w.utxos, sel, amount, fee, recipient);
    var change, to := ChangeOf(sel, amount, fee), LeastAddress(w.utxos);
    CreatedBySpend(w.addresses, tx);
    if change > DUST {
      var first := TrackedAt(w.addresses, ComputeTxid(tx), tx.outputs[0], 0);
      var second := TrackedAt(w.addresses, ComputeTxid(tx), tx.outputs[1], 1);
      assert tx.outputs[0].script == recipient.script && tx.outputs[1] == TxOut(change, to.script);
      assert Created(w.addresses, tx) == first + second;
      var ours := ChangeUtxos(tx, change, to);
      assert |ours| == 1;
      if first == [] && second != [] {
        assert first + second == second;
        assert recipient.script != to.script;
      } else if first != [] && second == [] {
        assert first + second == first;
        assert recipient.script != to.script;
        assert ours[0].utxo.outpoint.vout == 1 && first[0].utxo.outpoint.vout == 0;
      }
    }
  }

  lemma {:induction false} SpentEqualsIngest(w: WalletState, sel: seq<TrackedUtxo>, amount: nat, fee: nat,
                                             recipient: Address)
    requires w.utxos != [] && Total(sel) >= amount + fee
    ensures Spent(w, sel, amount, fee, recipient) == Ingest(w, SpendFor(w.utxos, sel, amount, fee, recipient))
            <==> Owner(w.addresses, recipient.script).None? && ChangeOwned(w, sel, amount, fee)
  {
    var tx := SpendFor(w.utxos, sel, amount, fee, recipient);
    var kept := Without(w.utxos, Outpoints(sel));
    var ours := ChangeUtxos(tx, ChangeOf(sel, amount, fee), LeastAddress(w.utxos));
    assert Prevouts(tx.inputs) == Outpoints(sel);
    assert (kept + ours)[|kept|..] == ours;
    assert (kept + Created(w.addresses, tx))[|kept|..] == Created(w.addresses, tx);
    ChangeMatchesCreated(w, sel, amount, fee, recipient);
  }

  /** After a spend the wallet is what ingesting the returned transaction would
      have made it, exactly when the recipient is foreign and the change, if
      any, goes to an address the wallet itself would recognise. */
  lemma {:induction false} SpendEqualsIngest(w: WalletState, sel: seq<TrackedUtxo>, amount: nat, fee: nat,
                                             recipient: Address, tx: Transaction)
    requires Select(w.utxos, amount + fee) == Some(sel)
    requires Spend(w, amount, fee, recipient, false).1 == Ok(tx)
    ensures w.utxos != [] && Total(sel) >= amount + fee
    ensures Spend(w, amount, fee, recipient, false).0 == Ingest(w, tx)
            <==> Owner(w.addresses, recipient.script).None? && ChangeOwned(w, sel, amount, fee)
  {
    SpendIs(w, amount, fee, recipient, false, sel);
    SpentEqualsIngest(w, sel, amount, fee, recipient);
  }

  // ---------- Conservation ----------

  ghost predicate DistinctOutpoints(us: seq<TrackedUtxo>) {
    forall i, j :: 0 <= i < j < |us| ==> us[i].utxo.outpoint != us[j].utxo.outpoint
  }

  lemma {:induction false} WithoutSelection(us: seq<TrackedUtxo>, sel: seq<TrackedUtxo>, spent: seq<OutPoint>)
    requires DistinctOutpoints(us) && Selection(sel, us)
    requires forall u :: u in us ==> (u in sel <==> u.utxo.outpoint in spent)
    ensures Total(us) == Total(sel) + Total(Without(us, spent))
    decreases |us|
  {
    SelectionSize(sel, us);
    if us != [] {
      var t := us[1..];
      assert DistinctOutpoints(t);
      TotalConcat(if us[0].utxo.outpoint in spent then [] else [us[0]], Without(t, spent));
      assert [us[0]][1..] == [];
      if us[0] in sel {
        var rest := HeadTaken(us, sel);
        RestMembers(us, sel, rest);
        WithoutSelection(t, rest, spent);
      } else {
        TailSelection(us, sel);
        WithoutSelection(t, sel, spent);
      }
    }
  }

  lemma {:induction false} RestMembers(us: seq<TrackedUtxo>, sel: seq<TrackedUtxo>, rest: seq<TrackedUtxo>)
    requires us != [] && DistinctOutpoints(us) && Selection(sel, us)
    requires multiset(rest) == multiset(sel) - multiset{us[0]}
    ensures forall u :: u in us[1..] ==> (u in rest <==> u in sel)
  {
    forall u | u in us[1..]
      ensures u in rest <==> u in sel
    {
      var i :| 0 <= i < |us| - 1 && us[1..][i] == u;
      assert us[0].utxo.outpoint != us[i + 1].utxo.outpoint;
      assert u != us[0];
      assert u in rest <==> u in multiset(rest);
      assert u in sel <==> u in multiset(sel);
    }
  }

  lemma {:induction false} SelectionRemoved(us: seq<TrackedUtxo>, sel: seq<TrackedUtxo>)
    requires DistinctOutpoints(us) && Selection(sel, us)
    ensures Total(us) == Total(sel) + Total(Without(us, Outpoints(sel)))
  {
    forall u | u in us
      ensures u in sel <==> u.utxo.outpoint in Outpoints(sel)
    {
      SelectedByOutpoint(us, sel, u);
    }
    WithoutSelection(us, sel, Outpoints(sel));
  }

  lemma {:induction false} SpentConserves(w: WalletState, sel: seq<TrackedUtxo>, amount: nat, fee: nat,
                                          recipient: Address)
    requires DistinctOutpoints(w.utxos) && w.utxos != []
    requires Selection(sel, w.utxos) && Total(sel) >= amount + fee
    ensures amount + fee <= Total(w.utxos) - Total(Spent(w, sel, amount, fee, recipient).utxos) <= amount + fee + DUST
  {
    SelectionRemoved(w.utxos, sel);
    var ours := ChangeUtxos(SpendFor(w.utxos, sel, amount, fee, recipient), ChangeOf(sel, amount, fee),
      LeastAddress(w.utxos));
    TotalConcat(Without(w.utxos, Outpoints(sel)), ours);
    assert ours != [] ==> ours[1..] == [];
  }

  /** What leaves the wallet is the amount and a fee of at least the estimate,
      by at most the dust that is too small to return. */
  lemma {:induction false} SpendConserves(w: WalletState, amount: nat, fee: nat, recipient: Address)
    requires DistinctOutpoints(w.utxos)
    requires Spend(w, amount, fee, recipient, false).1.Ok?
    ensures var left := Total(w.utxos) - Total(Spend(w, amount, fee, recipient, false).0.utxos);
            amount + fee <= left <= amount + fee + DUST
  {
    var sel := Select(w.utxos, amount + fee).value;
    SpendIs(w, amount, fee, recipient, false, sel);
    SpentConserves(w, sel, amount, fee, recipient);
  }

  lemma {:induction false} SelectedByOutpoint(us: seq<TrackedUtxo>, sel: seq<TrackedUtxo>, u: TrackedUtxo)
    requires DistinctOutpoints(us) && Selection(sel, us) && u in us
    ensures u in sel <==> u.utxo.outpoint in Outpoints(sel)
  {
    if u in sel {
      var i :| 0 <= i < |sel| && sel[i] == u;
      assert Outpoints(sel)[i] == u.utxo.outpoint;
    }
    if u.utxo.outpoint in Outpoints(sel) {
      var i :| 0 <= i < |sel| && Outpoints(sel)[i] == u.utxo.outpoint;
      assert sel[i] in multiset(sel);
      assert sel[i] in multiset(us);
      var j :| 0 <= j < |us| && us[j] == sel[i];
      var k :| 0 <= k < |us| && us[k] == u;
      assert j == k;
    }
  }

  lemma {:induction false} SpendTotal(sel: seq<TrackedUtxo>, amount: nat, recipient: Address, change: nat,
                                      changeTo: Address)
    ensures OutputTotal(SpendTransaction(sel, amount, recipient, change, changeTo).outputs) ==
            amount + (if change > DUST then change else 0)
  {
    var outs := SpendTransaction(sel, amount, recipient, change, changeTo).outputs;
    assert outs[..1] == [outs[0]] && [outs[0]][..0] == [];
    assert OutputTotal([outs[0]]) == amount;
    if change <= DUST {
      assert outs == [outs[0]];
    }
  }

  /** The transaction handed out spends exactly the selection, pays the
      recipient first, and leaves a fee of the estimate plus at most dust. */
  lemma {:induction false} SpendPays(w: WalletState, amount: nat, fee: nat, recipient: Address, dryRun: bool,
                                     sel: seq<TrackedUtxo>, tx: Transaction)
    requires Select(w.utxos, amount + fee) == Some(sel)
    requires Spend(w, amount, fee, recipient, dryRun).1 == Ok(tx)
    ensures Prevouts(tx.inputs) == Outpoints(sel) && Selection(sel, w.utxos)
    ensures 1 <= |tx.outputs| <= 2 && tx.outputs[0] == TxOut(amount, recipient.script)
    ensures fee <= Total(sel) - OutputTotal(tx.outputs) <= fee + DUST
    ensures |tx.outputs| == 2 ==>
              && tx.outputs[1].value > DUST
              && exists u :: u in w.utxos && u.address.script == tx.outputs[1].script
  {
    SpendIs(w, amount, fee, recipient, dryRun, sel);
    SpendTotal(sel, amount, recipient, ChangeOf(sel, amount, fee), LeastAddress(w.utxos));
    var i :| 0 <= i < |w.utxos| && LeastAddress(w.utxos) == w.utxos[i].address;
    assert w.utxos[i] in w.utxos;
  }

  // ---------- Block payouts ----------

  datatype Payout = Payout(to: Address, amount: nat)

  function PayoutOf(tx: Protocol.Transaction, parse: Protocol.Text -> Option<Address>): Result<Payout, PayoutError> {
    match tx.metadata
    case None => Err(MissingMetadata)
    case Some(meta) =>
      if meta.addressTo.None? then Err(MissingAddress)
      else if meta.amountSat.None? then Err(MissingAmount)
      else
        match parse(meta.addressTo.value)
        case None => Err(BadAddress)
        case Some(a) => Ok(Payout(a, meta.amountSat.value))
  }

  /** The payouts of a block's withdrawals in block order, or the first defect. */
  function Payouts(txs: seq<Protocol.Transaction>, parse: Protocol.Text -> Option<Address>)
    : Result<seq<Payout>, PayoutError>
  {
    if txs == [] then Ok([])
    else
      var last := txs[|txs| - 1];
      match Payouts(txs[..|txs| - 1], parse)
      case Err(e) => Err(e)
      case Ok(ps) =>
        if last.kind.Deposit? then Ok(ps)
        else
          match PayoutOf(last, parse)
          case Err(e) => Err(e)
          case Ok(p) => Ok(ps + [p])
  }

  function Withdrawals(txs: seq<Protocol.Transaction>): seq<Protocol.Transaction> {
    if txs == [] then []
    else Withdrawals(txs[..|txs| - 1]) + if txs[|txs| - 1].kind.Withdrawal? then [txs[|txs| - 1]] else []
  }

  /** Payouts exist exactly if every withdrawal is well formed, and are then
      those of the withdrawals one by one. */
  lemma {:induction false} PayoutsExact(txs: seq<Protocol.Transaction>, parse: Protocol.Text -> Option<Address>)
    ensures Payouts(txs, parse).Ok? <==> forall t :: t in Withdrawals(txs) ==> PayoutOf(t, parse).Ok?
    ensures Payouts(txs, parse).Ok? ==>
              var ps := Payouts(txs, parse).value;
              && |ps| == |Withdrawals(txs)|
              && forall i :: 0 <= i < |ps| ==> PayoutOf(Withdrawals(txs)[i], parse) == Ok(ps[i])
  {
    if txs != [] {
      PayoutsExact(txs[..|txs| - 1], parse);
    }
  }

  function PayoutTotal(ps: seq<Payout>): nat {
    if ps == [] then 0 else PayoutTotal(ps[..|ps| - 1]) + ps[|ps| - 1].amount
  }

  function PayoutOutputs(ps: seq<Payout>): (r: seq<TxOut>)
    ensures |r| == |ps|
    ensures forall i :: 0 <= i < |ps| ==> r[i] == TxOut(ps[i].amount, ps[i].to.script)
  {
    seq(|ps|, i requires 0 <= i < |ps| => TxOut(ps[i].amount, ps[i].to.script))
  }

  function OutputTotal(outs: seq<TxOut>): nat {
    if outs == [] then 0 else OutputTotal(outs[..|outs| - 1]) + outs[|outs| - 1].value
  }

  lemma {:induction false} PayoutOutputsTotal(ps: seq<Payout>)
    ensures OutputTotal(PayoutOutputs(ps)) == PayoutTotal(ps)
  {
    if ps != [] {
      PayoutOutputsTotal(ps[..|ps| - 1]);
      assert PayoutOutputs(ps)[..|ps| - 1] == PayoutOutputs(ps[..|ps| - 1]);
    }
  }

  function PayoutTransaction(c: Choice, ps: seq<Payout>, addresses: seq<Address>): Transaction
    requires c.change > 0 ==> addresses != []
  {
    Transaction(2, 0, SpendInputs(c.inputs),
                PayoutOutputs(ps) + if c.change > 0 then [TxOut(c.change, addresses[0].script)] else [])
  }

  /** `get_transaction_for_block`, with the search described by `SearchResult`. */
  ghost predicate BlockPayout(w: WalletState, payouts: Result<seq<Payout>, PayoutError>, rate: nat,
                              r: Result<Transaction, PayoutError>)
  {
    match payouts
    case Err(e) => r == Err(e)
    case Ok(ps) =>
      if ps == [] then r == Err(NoWithdrawals)
      else if w.utxos == [] then r == Err(NoSpendableUtxos)
      else
        var d := Demand(PayoutTotal(ps), |ps|, rate);
        || (r == Err(InsufficientFunds) && SearchResult(w.utxos, d, None))
        || exists c :: SearchResult(w.utxos, d, Some(c)) &&
                       if c.change > 0 && w.addresses == [] then r == Err(NoChangeAddress)
                       else r == Ok(PayoutTransaction(c, ps, w.addresses))
  }

  lemma {:induction false} PayoutTransactionTotal(c: Choice, ps: seq<Payout>, addresses: seq<Address>)
    requires c.change > 0 ==> addresses != []
    ensures OutputTotal(PayoutTransaction(c, ps, addresses).outputs) == PayoutTotal(ps) + c.change
    ensures PayoutOutputs(ps) <= PayoutTransaction(c, ps, addresses).outputs
  {
    var outs := PayoutTransaction(c, ps, addresses).outputs;
    PayoutOutputsTotal(ps);
    if c.change > 0 {
      assert outs[..|ps|] == PayoutOutputs(ps);
    } else {
      assert outs == PayoutOutputs(ps);
    }
  }

  /** The built transaction pays every payout in order, spends UTXOs of the
      wallet, and is worth its inputs less a fee within the bracket. */
  lemma {:induction false} BlockPayoutBalances(w: WalletState, ps: seq<Payout>, rate: nat, tx: Transaction)
    returns (c: Choice)
    requires BlockPayout(w, Ok(ps), rate, Ok(tx))
    ensures SearchResult(w.utxos, Demand(PayoutTotal(ps), |ps|, rate), Some(c))
    ensures Prevouts(tx.inputs) == Outpoints(c.inputs) && Selection(c.inputs, w.utxos)
    ensures PayoutOutputs(ps) <= tx.outputs && |tx.outputs| == |ps| + (if c.change > 0 then 1 else 0)
    ensures c.change > 0 ==>
              c.change >= DUST && w.addresses != [] && tx.outputs[|ps|] == TxOut(c.change, w.addresses[0].script)
    ensures Total(c.inputs) == OutputTotal(tx.outputs) + c.fee
    ensures Fee(|c.inputs|, |ps|, rate) <= c.fee <= Fee(|c.inputs|, |ps| + 1, rate)
  {
    var d := Demand(PayoutTotal(ps), |ps|, rate);
    c :| SearchResult(w.utxos, d, Some(c)) && (c.change > 0 ==> w.addresses != []) &&
         tx == PayoutTransaction(c, ps, w.addresses);
    FeeBracket(w.utxos, d, c);
    PayoutTransactionTotal(c, ps, w.addresses);
  }

  lemma {:induction false} PayoutShape(c: Choice, ps: seq<Payout>, addresses: seq<Address>)
    requires c.change > 0 ==> addresses != []
    ensures var outs := PayoutTransaction(c, ps, addresses).outputs;
            && |ps| <= |outs| <= |ps| + 1
            && (forall i :: 0 <= i < |ps| ==> outs[i] == TxOut(ps[i].amount, ps[i].to.script))
            && (|outs| > |ps| ==> addresses != [] && outs[|ps|].script == addresses[0].script)
  {
  }

  /** The transaction pays the payouts one by one, then any change. */
  lemma {:induction false} PaysInOrder(w: WalletState, ps: seq<Payout>, rate: nat, tx: Transaction)
    requires BlockPayout(w, Ok(ps), rate, Ok(tx))
    ensures |ps| <= |tx.outputs| <= |ps| + 1
    ensures forall i :: 0 <= i < |ps| ==> tx.outputs[i] == TxOut(ps[i].amount, ps[i].to.script)
    ensures |tx.outputs| > |ps| ==> w.addresses != [] && tx.outputs[|ps|].script == w.addresses[0].script
  {
    var c: Choice :| (c.change > 0 ==> w.addresses != []) && tx == PayoutTransaction(c, ps, w.addresses);
    PayoutShape(c, ps, w.addresses);
  }

  lemma {:induction false} TrackedNext(addresses: seq<Address>, id: Txid, outs: seq<TxOut>, i: nat,
                                       before: seq<TrackedUtxo>)
    requires i < |outs|
    ensures before + TrackedOutputs(addresses, id, outs[i..], i) ==
            (before + TrackedAt(addresses, id, outs[i], i)) + TrackedOutputs(addresses, id, outs[i + 1..], i + 1)
  {
    assert outs[i..][1..] == outs[i + 1..];
    var at, rest := TrackedAt(addresses, id, outs[i], i), TrackedOutputs(addresses, id, outs[i + 1..], i + 1);
    assert before + (at + rest) == (before + at) + rest;
  }

  class TaprootWallet {
    var addresses: seq<Address>
    var utxos: seq<TrackedUtxo>

    ghost function View(): WalletState
      reads this
    {
      WalletState(addresses, utxos)
    }

    constructor (addresses: seq<Address>)
      ensures View() == WalletState(addresses, [])
    {
      this.addresses, utxos := addresses, [];
    }

    method AddAddress(a: Address)
      modifies this`addresses
      ensures addresses == old(addresses) + [a]
    {
      addresses := addresses + [a];
    }

    method CreateSpend(amount: nat, fee: nat, recipient: Address, dryRun: bool)
      returns (r: Result<Transaction, SpendError>)
      modifies this`utxos
      ensures (View(), r) == Spend(old(View()), amount, fee, recipient, dryRun)
    {
      var selected := SelectUtxos(utxos, amount + fee);
      if selected.None? {
        return Err(NotEnoughFunds);
      }
      SpendIs(View(), amount, fee, recipient, dryRun, selected.value);
      r := SpendUtxos(selected.value, amount, fee, recipient, dryRun);
    }

    /** The part of `create_spend` that follows the selection. */
    method SpendUtxos(sel: seq<TrackedUtxo>, amount: nat, fee: nat, recipient: Address, dryRun: bool)
      returns (r: Result<Transaction, SpendError>)
      requires Total(sel) >= amount + fee
      modifies this`utxos
      ensures (View(), r) == SpendSelected(old(View()), sel, amount, fee, recipient, dryRun)
    {
      if utxos == [] {
        return Err(NoUtxos);
      }
      var changeTo := LeastAddress(utxos);
      var change := Total(sel) - amount - fee;
      var tx := SpendTransaction(sel, amount, recipient, change, changeTo);
      assert tx == SpendFor(utxos, sel, amount, fee, recipient);
      if !dryRun {
        utxos := Without(utxos, Outpoints(sel));
        if change > DUST {
          var vout := Position(tx.outputs, changeTo.script);
          utxos := utxos + [TrackedUtxo(Utxo(OutPoint(ComputeTxid(tx), vout), change, changeTo.script), changeTo)];
        } else {
          assert utxos + [] == utxos;
        }
        assert View() == Spent(old(View()), sel, amount, fee, recipient);
      }
      if sel == [] {
        return Err(NothingToSign);
      }
      if !Signable(sel[0]) {
        return Err(UnsupportedScript);
      }
      return Ok(tx);
    }

    method IngestExternalTx(tx: Transaction)
      modifies this`utxos
      ensures View() == Ingest(old(View()), tx)
    {
      utxos := Without(utxos, Prevouts(tx.inputs));
      ghost var kept := utxos;
      var id := ComputeTxid(tx);
      var i := 0;
      while i < |tx.outputs|
        invariant 0 <= i <= |tx.outputs|
        invariant addresses == old(addresses)
        invariant kept + Created(addresses, tx) == utxos + TrackedOutputs(addresses, id, tx.outputs[i..], i)
      {
        var out := tx.outputs[i];
        TrackedNext(addresses, id, tx.outputs, i, utxos);
        ghost var before := utxos;
        var owner := Owner(addresses, out.script);
        if owner.Some? {
          utxos := utxos + [TrackedUtxo(Utxo(OutPoint(id, i), out.value, out.script), owner.value)];
        }
        assert utxos == before + TrackedAt(addresses, id, out, i);
        i := i + 1;
      }
    }

    method GetTransactionForBlock(txs: seq<Protocol.Transaction>, rate: nat, parse: Protocol.Text -> Option<Address>)
      returns (r: Result<Transaction, PayoutError>)
      ensures BlockPayout(View(), Payouts(txs, parse), rate, r)
    {
      var payouts: seq<Payout> := [];
      var total := 0;
      var i := 0;
      while i < |txs|
        invariant 0 <= i <= |txs|
        invariant Payouts(txs[..i], parse) == Ok(payouts)
        invariant total == PayoutTotal(payouts)
      {
        assert txs[..i + 1][..i] == txs[..i];
        if txs[i].kind.Withdrawal? {
          var p := PayoutOf(txs[i], parse);
          if p.Err? {
            DefectStops(txs, parse, i + 1);
            return Err(p.error);
          }
          payouts := payouts + [p.value];
          total := total + p.value.amount;
        }
        i := i + 1;
      }
      assert txs[..i] == txs;
      if payouts == [] {
        return Err(NoWithdrawals);
      }
      if utxos == [] {
        return Err(NoSpendableUtxos);
      }
      var chosen := ChooseInputs(utxos, Demand(total, |payouts|, rate));
      if chosen.None? {
        return Err(InsufficientFunds);
      }
      if chosen.value.change > 0 && addresses == [] {
        return Err(NoChangeAddress);
      }
      return Ok(PayoutTransaction(chosen.value, payouts, addresses));
    }
  }

  lemma {:induction false} DefectStops(txs: seq<Protocol.Transaction>, parse: Protocol.Text -> Option<Address>, i: nat)
    requires i <= |txs| && Payouts(txs[..i], parse).Err?
    ensures Payouts(txs, parse) == Payouts(txs[..i], parse)
    decreases |txs| - i
  {
    if i < |txs| {
      assert txs[..i + 1][..i] == txs[..i];
      DefectStops(txs, parse, i + 1);
    } else {
      assert txs[..i] == txs;
    }
  }
}
