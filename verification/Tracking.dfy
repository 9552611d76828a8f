/** When the wallet tracks every output once, over runs of its own spends,
    confirmed transactions and what other nodes relay. */
module Tracking {
  import opened Prelude
  import opened Bitcoin
  import opened CoinSelection
  import opened PayoutSearch
  import opened Wallet
  import opened Deposits
  import P = Protocol

  datatype Event =
    | Spending(amount: nat, fee: nat, recipient: Address, dryRun: bool)
    | Confirmed(tx: Transaction)
    | Gossiped(deposit: P.Transaction, added: bool)
    | Relayed(spend: PendingSpend, luck: RelayLuck)

  function Occur(env: Env, st: DepositState, ev: Event): DepositState {
    match ev
    case Spending(amount, fee, recipient, dryRun) =>
      st.(wallet := Spend(st.wallet, amount, fee, recipient, dryRun).0)
    case Confirmed(tx) => Confirm(env, st, tx)
    case Gossiped(deposit, added) => Gossip(st, deposit, added)
    case Relayed(spend, luck) => Relay(st, spend, luck)
  }

  ghost predicate Tracked(us: seq<TrackedUtxo>, o: OutPoint) {
    exists u :: u in us && u.utxo.outpoint == o
  }

  // ---------- One step ----------

  /** An output of `tx` the wallet owns is tracked already. */
  ghost predicate Clashes(w: WalletState, tx: Transaction) {
    exists u :: u in Created(w.addresses, tx) && Tracked(w.utxos, u.utxo.outpoint)
  }

  /** The change of the spend is tracked already. */
  ghost predicate ChangeClashes(w: WalletState, sel: seq<TrackedUtxo>, amount: nat, fee: nat, recipient: Address)
    requires w.utxos != [] && Total(sel) >= amount + fee
  {
    var tx := SpendFor(w.utxos, sel, amount, fee, recipient);
    && ChangeOf(sel, amount, fee) > DUST
    && Tracked(w.utxos, OutPoint(ComputeTxid(tx), Position(tx.outputs, LeastAddress(w.utxos).script)))
  }

  ghost predicate SpendClashes(w: WalletState, amount: nat, fee: nat, recipient: Address) {
    match Select(w.utxos, amount + fee)
    case None => false
    case Some(sel) =>
      SelectFunds(w.utxos, amount + fee, sel);
      w.utxos != [] && ChangeClashes(w, sel, amount, fee, recipient)
  }

  /** The event brings in an output that is tracked already. */
  ghost predicate Repeats(st: DepositState, ev: Event) {
    match ev
    case Spending(amount, fee, recipient, dryRun) => !dryRun && SpendClashes(st.wallet, amount, fee, recipient)
    case Confirmed(tx) => ComputeTxid(tx) !in st.processed && Clashes(st.wallet, tx)
    case Gossiped(deposit, _) =>
      deposit.metadata.Some? && deposit.metadata.value.tx.Some? && Clashes(st.wallet, deposit.metadata.value.tx.value)
    case Relayed(spend, luck) => luck.broadcastOk && Clashes(st.wallet, spend.tx)
  }

  lemma {:induction false} ConcatDistinct(a: seq<TrackedUtxo>, b: seq<TrackedUtxo>)
    requires DistinctOutpoints(a) && DistinctOutpoints(b)
    ensures DistinctOutpoints(a + b) <==> forall v :: v in b ==> !Tracked(a, v.utxo.outpoint)
  {
    var s := a + b;
    if DistinctOutpoints(s) {
      forall i, j | 0 <= i < |a| && 0 <= j < |b|
        ensures a[i].utxo.outpoint != b[j].utxo.outpoint
      {
        assert s[i] == a[i] && s[|a| + j] == b[j];
      }
    }
  }

  lemma {:induction false} WithoutTracked(us: seq<TrackedUtxo>, spent: seq<OutPoint>, o: OutPoint)
    ensures Tracked(Without(us, spent), o) <==> Tracked(us, o) && o !in spent
  {
    WithoutMembers(us, spent);
  }

  /** Ingestion keeps outpoints distinct exactly if nothing it adds is there. */
  lemma {:induction false} IngestDistinct(w: WalletState, tx: Transaction)
    requires DistinctOutpoints(w.utxos)
    ensures DistinctOutpoints(Ingest(w, tx).utxos) <==> !Clashes(w, tx)
  {
    var spent, made := Prevouts(tx.inputs), Created(w.addresses, tx);
    WithoutDistinct(w.utxos, spent);
    TrackedOutputsIds(w.addresses, ComputeTxid(tx), tx.outputs, 0);
    ConcatDistinct(Without(w.utxos, spent), made);
    forall v | v in made
      ensures Tracked(Without(w.utxos, spent), v.utxo.outpoint) <==> Tracked(w.utxos, v.utxo.outpoint)
    {
      WithoutTracked(w.utxos, spent, v.utxo.outpoint);
      NeverSpendsItself(tx, v.utxo.outpoint.vout);
    }
  }

  lemma {:induction false} SpentDistinct(w: WalletState, sel: seq<TrackedUtxo>, amount: nat, fee: nat,
                                         recipient: Address)
    requires DistinctOutpoints(w.utxos) && w.utxos != [] && Total(sel) >= amount + fee
    ensures DistinctOutpoints(Spent(w, sel, amount, fee, recipient).utxos) <==>
            !ChangeClashes(w, sel, amount, fee, recipient)
  {
    var tx := SpendFor(w.utxos, sel, amount, fee, recipient);
    var ours := ChangeUtxos(tx, ChangeOf(sel, amount, fee), LeastAddress(w.utxos));
    WithoutDistinct(w.utxos, Outpoints(sel));
    ConcatDistinct(Without(w.utxos, Outpoints(sel)), ours);
    if ours != [] {
      var o := ours[0].utxo.outpoint;
      WithoutTracked(w.utxos, Outpoints(sel), o);
      NeverSpendsItself(tx, o.vout);
      assert forall v :: v in ours <==> v == ours[0];
    }
  }

  lemma {:induction false} SpendDistinct(w: WalletState, amount: nat, fee: nat, recipient: Address)
    requires DistinctOutpoints(w.utxos)
    ensures DistinctOutpoints(Spend(w, amount, fee, recipient, false).0.utxos) <==>
            !SpendClashes(w, amount, fee, recipient)
  {
    var sel := Select(w.utxos, amount + fee);
    if sel.Some? {
      SpendIs(w, amount, fee, recipient, false, sel.value);
      if w.utxos != [] {
        SpentDistinct(w, sel.value, amount, fee, recipient);
      }
    }
  }

  lemma {:induction false} StepDistinct(env: Env, st: DepositState, ev: Event)
    requires DistinctOutpoints(st.wallet.utxos)
    ensures DistinctOutpoints(Occur(env, st, ev).wallet.utxos) <==> !Repeats(st, ev)
  {
    match ev
    case Spending(amount, fee, recipient, dryRun) =>
      if dryRun {
        DryRun(st.wallet, amount, fee, recipient);
      } else {
        SpendDistinct(st.wallet, amount, fee, recipient);
      }
    case Confirmed(tx) => IngestDistinct(st.wallet, tx);
    case Gossiped(deposit, _) =>
      if deposit.metadata.Some? && deposit.metadata.value.tx.Some? {
        IngestDistinct(st.wallet, deposit.metadata.value.tx.value);
      }
    case Relayed(spend, _) => IngestDistinct(st.wallet, spend.tx);
  }

  lemma {:induction false} DryRun(w: WalletState, amount: nat, fee: nat, recipient: Address)
    ensures Spend(w, amount, fee, recipient, true).0 == w
  {
    var sel := Select(w.utxos, amount + fee);
    if sel.Some? {
      SpendIs(w, amount, fee, recipient, true, sel.value);
    }
  }

  // ---------- Mixed runs ----------

  ghost predicate StaysDistinct(env: Env, st: DepositState, evs: seq<Event>)
    decreases |evs|
  {
    DistinctOutpoints(st.wallet.utxos) && (evs != [] ==> StaysDistinct(env, Occur(env, st, evs[0]), evs[1..]))
  }

  ghost predicate NeverRepeats(env: Env, st: DepositState, evs: seq<Event>)
    decreases |evs|
  {
    evs != [] ==> !Repeats(st, evs[0]) && NeverRepeats(env, Occur(env, st, evs[0]), evs[1..])
  }

  /** Over every run the wallet tracks no outpoint twice, exactly as long as no
      event brings in an output that is tracked already. */
  lemma {:induction false} MixedRunDistinct(env: Env, st: DepositState, evs: seq<Event>)
    requires DistinctOutpoints(st.wallet.utxos)
    ensures StaysDistinct(env, st, evs) <==> NeverRepeats(env, st, evs)
    decreases |evs|
  {
    if evs != [] {
      var st' := Occur(env, st, evs[0]);
      StepDistinct(env, st, evs[0]);
      if DistinctOutpoints(st'.wallet.utxos) {
        MixedRunDistinct(env, st', evs[1..]);
      }
    }
  }

  // ---------- A spend of the wallet's own ----------

  /** The run that fails: the wallet records the change of its own spend, and
      the confirmation of that spend, which was never processed, records it
      again. */
  lemma {:induction false} OwnSpendConfirmed(env: Env, st: DepositState, sel: seq<TrackedUtxo>, amount: nat, fee: nat,
                                             recipient: Address, tx: Transaction)
    requires Select(st.wallet.utxos, amount + fee) == Some(sel)
    requires Spend(st.wallet, amount, fee, recipient, false).1 == Ok(tx)
    requires ComputeTxid(tx) !in st.processed && Owner(st.wallet.addresses, recipient.script).None?
    ensures st.wallet.utxos != [] && Total(sel) >= amount + fee
    ensures ChangeOwned(st.wallet, sel, amount, fee) ==>
              var spent := Occur(env, st, Spending(amount, fee, recipient, false));
              var confirmed := Occur(env, spent, Confirmed(tx));
              && confirmed.wallet.utxos == spent.wallet.utxos + Created(st.wallet.addresses, tx)
              && (ChangeOf(sel, amount, fee) > DUST ==> !DistinctOutpoints(confirmed.wallet.utxos))
  {
    var w := st.wallet;
    SpendEqualsIngest(w, sel, amount, fee, recipient, tx);
    if ChangeOwned(w, sel, amount, fee) {
      IngestAgain(w, tx);
      if ChangeOf(sel, amount, fee) > DUST {
        var us, made := Ingest(w, tx).utxos, Created(w.addresses, tx);
        ChangeIsCreated(w, sel, amount, fee, recipient, tx);
        var all := us + made;
        var n := |us| - |made|;
        assert us[n..] == made;
        assert all[n] == made[0] && all[|us|] == made[0];
      }
    }
  }

  lemma {:induction false} ChangeIsCreated(w: WalletState, sel: seq<TrackedUtxo>, amount: nat, fee: nat,
                                           recipient: Address, tx: Transaction)
    requires Select(w.utxos, amount + fee) == Some(sel) && Spend(w, amount, fee, recipient, false).1 == Ok(tx)
    requires w.utxos != [] && Total(sel) >= amount + fee
    requires Owner(w.addresses, recipient.script).None? && ChangeOwned(w, sel, amount, fee)
    requires ChangeOf(sel, amount, fee) > DUST
    ensures Created(w.addresses, tx) != []
  {
    SpendIs(w, amount, fee, recipient, false, sel);
    ChangeMatchesCreated(w, sel, amount, fee, recipient);
  }

  // ---------- Confirmed transactions only ----------

  /** A tracked output that `txs[i]` brings in again was spent before. */
  ghost predicate SpentBetween(w: WalletState, txs: seq<Transaction>, i: nat)
    requires i < |txs|
  {
    forall u :: u in Created(w.addresses, txs[i]) && Tracked(w.utxos, u.utxo.outpoint) ==>
      u.utxo.outpoint in AllSpent(txs[..i])
  }

  lemma {:induction false} SurvivorIds(addresses: seq<Address>, txs: seq<Transaction>)
    ensures forall u :: u in Survivors(addresses, txs) ==>
              exists j :: 0 <= j < |txs| && u.utxo.outpoint.txid == ComputeTxid(txs[j])
  {
    if txs != [] {
      SurvivorIds(addresses, txs[1..]);
      TrackedOutputsIds(addresses, ComputeTxid(txs[0]), txs[0].outputs, 0);
      WithoutMembers(Created(addresses, txs[0]), AllSpent(txs[1..]));
      forall u | u in Survivors(addresses, txs)
        ensures exists j :: 0 <= j < |txs| && u.utxo.outpoint.txid == ComputeTxid(txs[j])
      {
        if u in Survivors(addresses, txs[1..]) {
          var j :| 0 <= j < |txs[1..]| && u.utxo.outpoint.txid == ComputeTxid(txs[1..][j]);
          assert txs[1..][j] == txs[j + 1];
        }
      }
    }
  }

  lemma {:induction false} TrackedAfter(w: WalletState, txs: seq<Transaction>, o: OutPoint)
    requires forall j :: 0 <= j < |txs| ==> ComputeTxid(txs[j]) != o.txid
    ensures Tracked(IngestAll(w, txs).utxos, o) <==> Tracked(w.utxos, o) && o !in AllSpent(txs)
  {
    IngestAllIs(w, txs);
    SurvivorIds(w.addresses, txs);
    WithoutTracked(w.utxos, AllSpent(txs), o);
    var kept, left := Without(w.utxos, AllSpent(txs)), Survivors(w.addresses, txs);
    if Tracked(kept, o) {
      var u :| u in kept && u.utxo.outpoint == o;
      assert u in kept + left;
    }
  }

  lemma {:induction false} AddressesKept(w: WalletState, txs: seq<Transaction>)
    ensures IngestAll(w, txs).addresses == w.addresses
    decreases |txs|
  {
    if txs != [] {
      AddressesKept(Ingest(w, txs[0]), txs[1..]);
    }
  }

  lemma {:induction false} IngestAllSnoc(w: WalletState, txs: seq<Transaction>, tx: Transaction)
    ensures IngestAll(w, txs + [tx]) == Ingest(IngestAll(w, txs), tx)
    decreases |txs|
  {
    if txs == [] {
      assert [] + [tx] == [tx] && [tx][1..] == [];
    } else {
      assert (txs + [tx])[1..] == txs[1..] + [tx];
      IngestAllSnoc(Ingest(w, txs[0]), txs[1..], tx);
    }
  }

  lemma {:induction false} ClashesAfter(w: WalletState, txs: seq<Transaction>, i: nat)
    requires i < |txs| && FreshIds(txs, {})
    ensures Clashes(IngestAll(w, txs[..i]), txs[i]) <==> !SpentBetween(w, txs, i)
  {
    AddressesKept(w, txs[..i]);
    TrackedOutputsIds(w.addresses, ComputeTxid(txs[i]), txs[i].outputs, 0);
    forall u | u in Created(w.addresses, txs[i])
      ensures Tracked(IngestAll(w, txs[..i]).utxos, u.utxo.outpoint) <==>
              Tracked(w.utxos, u.utxo.outpoint) && u.utxo.outpoint !in AllSpent(txs[..i])
    {
      TrackedAfter(w, txs[..i], u.utxo.outpoint);
    }
  }

  ghost predicate DistinctUpTo(w: WalletState, txs: seq<Transaction>, n: nat)
    requires n <= |txs|
  {
    forall i :: 0 <= i <= n ==> DistinctOutpoints(IngestAll(w, txs[..i]).utxos)
  }

  ghost predicate SpentUpTo(w: WalletState, txs: seq<Transaction>, n: nat)
    requires n <= |txs|
  {
    forall i :: 0 <= i < n ==> SpentBetween(w, txs, i)
  }

  lemma {:induction false} OneMoreDistinct(w: WalletState, txs: seq<Transaction>, n: nat)
    requires n < |txs|
    ensures DistinctUpTo(w, txs, n + 1) <==>
            DistinctUpTo(w, txs, n) && DistinctOutpoints(IngestAll(w, txs[..n + 1]).utxos)
  {
  }

  lemma {:induction false} NextDistinct(w: WalletState, txs: seq<Transaction>, n: nat)
    requires n < |txs| && FreshIds(txs, {}) && DistinctOutpoints(IngestAll(w, txs[..n]).utxos)
    ensures DistinctOutpoints(IngestAll(w, txs[..n + 1]).utxos) <==> SpentBetween(w, txs, n)
  {
    assert txs[..n] + [txs[n]] == txs[..n + 1];
    IngestAllSnoc(w, txs[..n], txs[n]);
    ClashesAfter(w, txs, n);
    IngestDistinct(IngestAll(w, txs[..n]), txs[n]);
  }

  /** A repeat-free run of confirmations keeps outpoints distinct throughout
      exactly if every output it brings in that the wallet tracked at the start
      was spent in between. */
  lemma {:induction false} RunDistinct(w: WalletState, txs: seq<Transaction>, n: nat)
    requires DistinctOutpoints(w.utxos) && FreshIds(txs, {}) && n <= |txs|
    ensures DistinctUpTo(w, txs, n) <==> SpentUpTo(w, txs, n)
  {
    if n == 0 {
      assert txs[..0] == [];
    } else {
      RunDistinct(w, txs, n - 1);
      OneMoreDistinct(w, txs, n - 1);
      assert SpentUpTo(w, txs, n) <==> SpentUpTo(w, txs, n - 1) && SpentBetween(w, txs, n - 1);
      if DistinctUpTo(w, txs, n - 1) {
        NextDistinct(w, txs, n - 1);
      }
    }
  }
}
