/** Confirmed Bitcoin transactions becoming pending deposits and wallet UTXOs. */
module Deposits {
  import opened Prelude
  import opened Bytes
  import opened Bitcoin
  import opened Sorting
  import opened Wallet
  import P = Protocol

  /** `decode` gives the testnet address text of a script, where there is one;
      `idBytes` the bytes of a transaction id. */
  datatype Env = Env(decode: Script -> Option<P.Text>, idBytes: Txid -> Bytes)

  datatype DepositState = DepositState(processed: set<Txid>, watched: set<P.Text>, intents: seq<P.DepositIntent>,
                                       pool: seq<P.Transaction>, wallet: WalletState)

  /** One output: a watched address with an intent yields one pending deposit
      and is watched no more. */
  function CreditOutput(env: Env, st: DepositState, tx: Transaction, out: TxOut): DepositState {
    match env.decode(out.script)
    case None => st
    case Some(address) =>
      if address !in st.watched then st
      else
        match P.FindIntent(st.intents, address)
        case None => st
        case Some(intent) =>
          var deposit := P.CreateDeposit(tx, env.idBytes(ComputeTxid(tx)), intent.userPubkey, out.value);
          st.(pool := P.AddPending(st.pool, deposit),
          watched := st.watched - {address},
          intents := P.DropIntents(st.intents, intent.depositAddress))
  }

  function CreditOutputs(env: Env, st: DepositState, tx: Transaction, outs: seq<TxOut>): (r: DepositState)
    ensures r.processed == st.processed && r.wallet == st.wallet
    decreases |outs|
  {
    if outs == [] then st
    else CreditOutputs(env, CreditOutput(env, st, tx, outs[0]), tx, outs[1..])
  }

  /** `insert_pending_deposit_transaction` with the chain actor answering. */
  function Confirm(env: Env, st: DepositState, tx: Transaction): DepositState {
    var id := ComputeTxid(tx);
    if id in st.processed then st
    else
      var credited := CreditOutputs(env, st.(processed := st.processed + {id}), tx, tx.outputs);
      credited.(wallet := Ingest(st.wallet, tx))
  }

  /** How the chain actor answers while an output is credited: a lookup, an
      addition to the pool or a removal of the intent may fail, the last after
      the intent is gone from memory. */
  datatype Reply = Served | LookupFails | AdditionFails | RemovalFails

  function CreditReply(env: Env, st: DepositState, tx: Transaction, out: TxOut, reply: Reply): (DepositState, bool) {
    var a := env.decode(out.script);
    if a.None? || a.value !in st.watched then (st, true)
    else if reply.LookupFails? then (st, false)
    else if P.FindIntent(st.intents, a.value).None? then (st, true)
    else if reply.AdditionFails? then (st, false)
    else (CreditOutput(env, st, tx, out), !reply.RemovalFails?)
  }

  /** The outputs in turn, up to the first failure. */
  function CreditReplies(env: Env, st: DepositState, tx: Transaction, outs: seq<TxOut>, replies: seq<Reply>)
    : (r: (DepositState, bool))
    requires |replies| == |outs|
    ensures r.0.processed == st.processed && r.0.wallet == st.wallet
    decreases |outs|
  {
    if outs == [] then (st, true)
    else
      var (st', ok) := CreditReply(env, st, tx, outs[0], replies[0]);
      if ok then CreditReplies(env, st', tx, outs[1..], replies[1..]) else (st', false)
  }

  /** `insert_pending_deposit_transaction` with the answers of the chain actor;
      an id counts as processed whatever they are. */
  function ConfirmWith(env: Env, st: DepositState, tx: Transaction, replies: seq<Reply>): (DepositState, bool)
    requires |replies| == |tx.outputs|
  {
    var id := ComputeTxid(tx);
    if id in st.processed then (st, true)
    else
      var (credited, ok) := CreditReplies(env, st.(processed := st.processed + {id}), tx, tx.outputs, replies);
      (if ok then credited.(wallet := Ingest(st.wallet, tx)) else credited, ok)
  }

  /** A deposit gossiped by another node: its Bitcoin transaction is ingested
      whether or not it was processed, and whether or not the chain actor added
      the deposit. */
  function Gossip(st: DepositState, t: P.Transaction, added: bool): DepositState {
    var st' := if added then st.(pool := P.AddPending(st.pool, t)) else st;
    if t.metadata.None? || t.metadata.value.tx.None? then st'
    else st'.(wallet := Ingest(st.wallet, t.metadata.value.tx.value))
  }

  datatype PendingSpend = PendingSpend(tx: Transaction, userPubkey: P.Text, addressTo: P.Text,
                                       recipientScript: Script, fee: nat)

  /** How the calls made for an announced withdrawal turn out. */
  datatype RelayLuck = RelayLuck(broadcastOk: bool, added: bool)

  /** The first output to a script. */
  function Payment(outs: seq<TxOut>, script: Script): Option<TxOut> {
    if outs == [] then None else if outs[0].script == script then Some(outs[0]) else Payment(outs[1..], script)
  }

  lemma {:induction false} PaymentIs(outs: seq<TxOut>, script: Script, i: nat)
    requires i <= |outs| && forall j :: 0 <= j < i ==> outs[j].script != script
    ensures i == |outs| ==> Payment(outs, script) == None
    ensures i < |outs| && outs[i].script == script ==> Payment(outs, script) == Some(outs[i])
  {
    if i > 0 {
      PaymentIs(outs[1..], script, i - 1);
    }
  }

  /** On 64 bits. */
  function Debit(paid: nat, fee: nat): nat { (paid + fee) % U64_LIMIT }

  /** A signed withdrawal announced by another node: broadcast to Bitcoin,
      ingested as well, and debited, on 64 bits, if its payment is found. */
  function Relay(st: DepositState, p: PendingSpend, luck: RelayLuck): DepositState {
    if !luck.broadcastOk then st
    else
      var st' := st.(wallet := Ingest(st.wallet, p.tx));
      var paid := Payment(p.tx.outputs, p.recipientScript);
      if luck.added && paid.Some? then
        var debit := Debit(paid.value.value, p.fee);
        st'.(pool := P.AddPending(st.pool, P.CreateWithdrawal(p.userPubkey, p.addressTo, debit)))
      else st'
  }

  lemma {:induction false} RelayIs(st: DepositState, p: PendingSpend, luck: RelayLuck, paid: Option<TxOut>)
    requires luck.broadcastOk && paid == Payment(p.tx.outputs, p.recipientScript)
    ensures var w := Ingest(st.wallet, p.tx);
            Relay(st, p, luck) ==
            if luck.added && paid.Some?
            then st.(wallet := w, pool := P.AddPending(st.pool, P.CreateWithdrawal(p.userPubkey, p.addressTo,
                                                                                   Debit(paid.value.value, p.fee))))
            else st.(wallet := w)
  {
  }

  lemma {:induction false} RelayAdds(st: DepositState, p: PendingSpend, paid: TxOut)
    requires Payment(p.tx.outputs, p.recipientScript) == Some(paid)
    ensures Relay(st, p, RelayLuck(true, true)).pool ==
            P.AddPending(st.pool, P.CreateWithdrawal(p.userPubkey, p.addressTo, Debit(paid.value, p.fee)))
  {
    RelayIs(st, p, RelayLuck(true, true), Some(paid));
  }

  function ConfirmAll(env: Env, st: DepositState, txs: seq<Transaction>): DepositState
    decreases |txs|
  {
    if txs == [] then st else ConfirmAll(env, Confirm(env, st, txs[0]), txs[1..])
  }

  // ---------- What is credited ----------

  /** The output pays a watched address with an open intent. */
  ghost predicate Credits(env: Env, st: DepositState, out: TxOut) {
    var a := env.decode(out.script);
    a.Some? && a.value in st.watched && P.FindIntent(st.intents, a.value).Some?
  }

  ghost function DepositOf(env: Env, st: DepositState, tx: Transaction, out: TxOut): P.Transaction
    requires Credits(env, st, out)
  {
    var intent := P.FindIntent(st.intents, env.decode(out.script).value).value;
    P.CreateDeposit(tx, env.idBytes(ComputeTxid(tx)), intent.userPubkey, out.value)
  }

  /** The first output to an address that is credited. */
  ghost predicate FirstPaying(env: Env, st: DepositState, outs: seq<TxOut>, k: nat) {
    && k < |outs| && Credits(env, st, outs[k])
    && forall j :: 0 <= j < k ==> env.decode(outs[j].script) != env.decode(outs[k].script)
  }

  ghost predicate DepositAt(env: Env, st: DepositState, tx: Transaction, outs: seq<TxOut>, k: nat, t: P.Transaction) {
    FirstPaying(env, st, outs, k) && t == DepositOf(env, st, tx, outs[k])
  }

  ghost predicate IsDeposit(env: Env, st: DepositState, tx: Transaction, outs: seq<TxOut>, t: P.Transaction) {
    exists k: nat :: DepositAt(env, st, tx, outs, k, t)
  }

  ghost function Paid(env: Env, st: DepositState, outs: seq<TxOut>): set<nat> {
    set k: nat | k < |outs| && FirstPaying(env, st, outs, k)
  }

  /** One deposit for every address credited, in the order of the outputs. */
  ghost function DepositsFor(env: Env, st: DepositState, tx: Transaction, outs: seq<TxOut>): seq<P.Transaction> {
    if outs == [] then []
    else
      var n := |outs| - 1;
      DepositsFor(env, st, tx, outs[..n]) +
      if FirstPaying(env, st, outs, n) then [DepositOf(env, st, tx, outs[n])] else []
  }

  lemma {:induction false} OtherIntents(intents: seq<P.DepositIntent>, gone: P.Text, address: P.Text)
    requires gone != address
    ensures P.FindIntent(P.DropIntents(intents, gone), address) == P.FindIntent(intents, address)
  {
    if intents != [] {
      OtherIntents(intents[1..], gone, address);
      if intents[0].depositAddress == gone {
        assert P.DropIntents(intents, gone) == P.DropIntents(intents[1..], gone);
      } else {
        assert ([intents[0]] + P.DropIntents(intents[1..], gone))[1..] == P.DropIntents(intents[1..], gone);
      }
    }
  }

  /** Crediting one output leaves the prospects of the others as they were,
      except for further outputs to the same address. */
  lemma {:induction false} CreditKeeps(env: Env, st: DepositState, tx: Transaction, out: TxOut, other: TxOut)
    ensures var st' := CreditOutput(env, st, tx, out);
            && (Credits(env, st', other) <==>
                && Credits(env, st, other)
                && (Credits(env, st, out) ==> env.decode(out.script) != env.decode(other.script)))
            && (Credits(env, st', other) ==> DepositOf(env, st', tx, other) == DepositOf(env, st, tx, other))
            && (forall t :: t in st'.pool <==>
                            t in st.pool || (Credits(env, st, out) && t == DepositOf(env, st, tx, out)))
  {
    if Credits(env, st, out) && env.decode(other.script).Some? {
      var a, b := env.decode(out.script).value, env.decode(other.script).value;
      if a != b {
        OtherIntents(st.intents, a, b);
      }
    }
  }

  /** After some outputs, what is still credited is what none of them paid. */
  lemma {:induction false} StillCredits(env: Env, st: DepositState, tx: Transaction, outs: seq<TxOut>, out: TxOut)
    ensures var st' := CreditOutputs(env, st, tx, outs);
            && (Credits(env, st', out) <==>
                && Credits(env, st, out)
                && forall j :: 0 <= j < |outs| ==> env.decode(outs[j].script) != env.decode(out.script))
            && (Credits(env, st', out) ==> DepositOf(env, st', tx, out) == DepositOf(env, st, tx, out))
    decreases |outs|
  {
    if outs != [] {
      CreditKeeps(env, st, tx, outs[0], out);
      StillCredits(env, CreditOutput(env, st, tx, outs[0]), tx, outs[1..], out);
      assert forall j :: 0 <= j < |outs| - 1 ==> outs[1..][j] == outs[j + 1];
      assert forall j :: 0 < j < |outs| ==> outs[j] == outs[1..][j - 1];
    }
  }

  lemma {:induction false} CreditSnoc(env: Env, st: DepositState, tx: Transaction, outs: seq<TxOut>, last: TxOut)
    ensures CreditOutputs(env, st, tx, outs + [last]) == CreditOutput(env, CreditOutputs(env, st, tx, outs), tx, last)
    decreases |outs|
  {
    if outs == [] {
      assert [] + [last] == [last] && [last][1..] == [];
    } else {
      assert (outs + [last])[1..] == outs[1..] + [last];
      CreditSnoc(env, CreditOutput(env, st, tx, outs[0]), tx, outs[1..], last);
    }
  }

  /** A transaction adds the deposits of the addresses it pays that are watched
      with an open intent: to the intent's user, of the value of the first
      output to that address, each through the pool's check for repeats. */
  lemma {:induction false} CreditsExactly(env: Env, st: DepositState, tx: Transaction, outs: seq<TxOut>)
    ensures CreditOutputs(env, st, tx, outs).pool == P.AddAll(st.pool, DepositsFor(env, st, tx, outs))
    ensures forall t :: t in CreditOutputs(env, st, tx, outs).pool <==> t in st.pool || IsDeposit(env, st, tx, outs, t)
  {
    PoolAfter(env, st, tx, outs);
    P.AddAllMembers(st.pool, DepositsFor(env, st, tx, outs));
    forall t
      ensures t in DepositsFor(env, st, tx, outs) <==> IsDeposit(env, st, tx, outs, t)
    {
      DepositMembers(env, st, tx, outs, t);
    }
  }

  /** A watched address with an open intent that one of the outputs pays. */
  ghost predicate CreditedAddress(env: Env, st: DepositState, outs: seq<TxOut>, a: P.Text) {
    && a in st.watched && P.FindIntent(st.intents, a).Some?
    && exists j :: 0 <= j < |outs| && env.decode(outs[j].script) == Some(a)
  }

  lemma {:induction false} CreditedSnoc(env: Env, st: DepositState, outs: seq<TxOut>, last: TxOut, a: P.Text)
    ensures CreditedAddress(env, st, outs + [last], a) <==>
            CreditedAddress(env, st, outs, a) || (Credits(env, st, last) && env.decode(last.script) == Some(a))
  {
    var all := outs + [last];
    if CreditedAddress(env, st, all, a) {
      var j :| 0 <= j < |all| && env.decode(all[j].script) == Some(a);
      assert j < |outs| ==> outs[j] == all[j];
    }
    if CreditedAddress(env, st, outs, a) {
      var j :| 0 <= j < |outs| && env.decode(outs[j].script) == Some(a);
      assert all[j] == outs[j];
    }
    assert all[|outs|] == last;
  }

  /** Exactly those addresses are watched no more, and their intents are gone. */
  ghost predicate Settles(env: Env, st: DepositState, outs: seq<TxOut>, st': DepositState) {
    && (forall a :: a in st'.watched <==> a in st.watched && !CreditedAddress(env, st, outs, a))
    && (forall i :: i in st'.intents <==> i in st.intents && !CreditedAddress(env, st, outs, i.depositAddress))
  }

  lemma {:induction false} CreditSettles(env: Env, st: DepositState, tx: Transaction, outs: seq<TxOut>)
    ensures Settles(env, st, outs, CreditOutputs(env, st, tx, outs))
  {
    if outs != [] {
      var init, last := outs[..|outs| - 1], outs[|outs| - 1];
      assert outs == init + [last];
      CreditSettles(env, st, tx, init);
      CreditSnoc(env, st, tx, init, last);
      StillCredits(env, st, tx, init, last);
      SettlesOne(env, st, tx, init, last, CreditOutputs(env, st, tx, init));
    }
  }

  lemma {:induction false} SettlesOne(env: Env, st: DepositState, tx: Transaction, outs: seq<TxOut>, last: TxOut,
                                      mid: DepositState)
    requires Settles(env, st, outs, mid)
    requires Credits(env, mid, last) <==>
             && Credits(env, st, last)
             && forall j :: 0 <= j < |outs| ==> env.decode(outs[j].script) != env.decode(last.script)
    ensures Settles(env, st, outs + [last], CreditOutput(env, mid, tx, last))
  {
    forall a
      ensures CreditedAddress(env, st, outs + [last], a) <==>
              CreditedAddress(env, st, outs, a) || (Credits(env, mid, last) && env.decode(last.script) == Some(a))
    {
      CreditedSnoc(env, st, outs, last, a);
    }
  }

  lemma {:induction false} PoolAfter(env: Env, st: DepositState, tx: Transaction, outs: seq<TxOut>)
    ensures CreditOutputs(env, st, tx, outs).pool == P.AddAll(st.pool, DepositsFor(env, st, tx, outs))
  {
    if outs != [] {
      var init, last := outs[..|outs| - 1], outs[|outs| - 1];
      assert outs == init + [last];
      PoolAfter(env, st, tx, init);
      CreditSnoc(env, st, tx, init, last);
      StillCredits(env, st, tx, init, last);
      assert FirstPaying(env, st, outs, |init|) <==> Credits(env, CreditOutputs(env, st, tx, init), last);
      if FirstPaying(env, st, outs, |init|) {
        P.AddAllSnoc(st.pool, DepositsFor(env, st, tx, init), DepositOf(env, st, tx, last));
      } else {
        assert DepositsFor(env, st, tx, outs) == DepositsFor(env, st, tx, init);
      }
    }
  }

  lemma {:induction false} FirstPayingPrefix(env: Env, st: DepositState, outs: seq<TxOut>, n: nat, k: nat)
    requires k < n <= |outs|
    ensures FirstPaying(env, st, outs[..n], k) <==> FirstPaying(env, st, outs, k)
  {
    assert forall j :: 0 <= j < n ==> outs[..n][j] == outs[j];
  }

  lemma {:induction false} DepositMembers(env: Env, st: DepositState, tx: Transaction, outs: seq<TxOut>,
                                          t: P.Transaction)
    ensures t in DepositsFor(env, st, tx, outs) <==> IsDeposit(env, st, tx, outs, t)
  {
    if outs != [] {
      var n := |outs| - 1;
      DepositMembers(env, st, tx, outs[..n], t);
      IsDepositSnoc(env, st, tx, outs, n, t);
    }
  }

  lemma {:induction false} DepositAtPrefix(env: Env, st: DepositState, tx: Transaction, outs: seq<TxOut>, n: nat,
                                           k: nat, t: P.Transaction)
    requires k < n <= |outs|
    ensures DepositAt(env, st, tx, outs[..n], k, t) <==> DepositAt(env, st, tx, outs, k, t)
  {
    FirstPayingPrefix(env, st, outs, n, k);
    assert outs[..n][k] == outs[k];
  }

  lemma {:induction false} IsDepositSnoc(env: Env, st: DepositState, tx: Transaction, outs: seq<TxOut>, n: nat,
                                         t: P.Transaction)
    requires |outs| == n + 1
    ensures IsDeposit(env, st, tx, outs, t) <==>
            IsDeposit(env, st, tx, outs[..n], t) || DepositAt(env, st, tx, outs, n, t)
  {
    forall k: nat | k < n
      ensures DepositAt(env, st, tx, outs[..n], k, t) <==> DepositAt(env, st, tx, outs, k, t)
    {
      DepositAtPrefix(env, st, tx, outs, n, k, t);
    }
    if IsDeposit(env, st, tx, outs[..n], t) {
      var k: nat :| DepositAt(env, st, tx, outs[..n], k, t);
      assert DepositAt(env, st, tx, outs, k, t);
    }
    if IsDeposit(env, st, tx, outs, t) {
      var k: nat :| DepositAt(env, st, tx, outs, k, t);
      assert k < n ==> DepositAt(env, st, tx, outs[..n], k, t);
    }
  }

  lemma {:induction false} PaidSnoc(env: Env, st: DepositState, outs: seq<TxOut>, n: nat)
    requires |outs| == n + 1
    ensures Paid(env, st, outs) == Paid(env, st, outs[..n]) + if FirstPaying(env, st, outs, n) then {n} else {}
    ensures n !in Paid(env, st, outs[..n])
  {
    forall k: nat | k < n
      ensures FirstPaying(env, st, outs[..n], k) <==> FirstPaying(env, st, outs, k)
    {
      FirstPayingPrefix(env, st, outs, n, k);
    }
  }

  lemma {:induction false} DepositsCount(env: Env, st: DepositState, tx: Transaction, outs: seq<TxOut>)
    ensures |DepositsFor(env, st, tx, outs)| == |Paid(env, st, outs)|
  {
    if outs != [] {
      var n := |outs| - 1;
      DepositsCount(env, st, tx, outs[..n]);
      PaidSnoc(env, st, outs, n);
    }
  }

  ghost function UserOf(env: Env, st: DepositState, out: TxOut): P.Text
    requires Credits(env, st, out)
  {
    P.FindIntent(st.intents, env.decode(out.script).value).value.userPubkey
  }

  /** The outputs at `i` and `j`, if both are credited, differ in user or value. */
  ghost predicate Apart(env: Env, st: DepositState, outs: seq<TxOut>, i: nat, j: nat) {
    FirstPaying(env, st, outs, i) && FirstPaying(env, st, outs, j) ==>
      (UserOf(env, st, outs[i]), outs[i].value) != (UserOf(env, st, outs[j]), outs[j].value)
  }

  /** No two of the addresses credited share user and value. */
  ghost predicate PairsDiffer(env: Env, st: DepositState, outs: seq<TxOut>) {
    forall i: nat, j: nat :: i < j < |outs| ==> Apart(env, st, outs, i, j)
  }

  ghost predicate LastDiffers(env: Env, st: DepositState, outs: seq<TxOut>, n: nat) {
    forall i: nat :: i < n ==> Apart(env, st, outs, i, n)
  }

  lemma {:induction false} ApartPrefix(env: Env, st: DepositState, outs: seq<TxOut>, n: nat, i: nat, j: nat)
    requires i < j < n <= |outs|
    ensures Apart(env, st, outs[..n], i, j) <==> Apart(env, st, outs, i, j)
  {
    FirstPayingPrefix(env, st, outs, n, i);
    FirstPayingPrefix(env, st, outs, n, j);
    assert outs[..n][i] == outs[i] && outs[..n][j] == outs[j];
  }

  lemma {:induction false} PairsPrefix(env: Env, st: DepositState, outs: seq<TxOut>, n: nat)
    requires |outs| == n + 1
    ensures PairsDiffer(env, st, outs) <==> PairsDiffer(env, st, outs[..n]) && LastDiffers(env, st, outs, n)
  {
    forall i: nat, j: nat | i < j < n
      ensures Apart(env, st, outs[..n], i, j) <==> Apart(env, st, outs, i, j)
    {
      ApartPrefix(env, st, outs, n, i, j);
    }
  }

  lemma {:induction false} SamePair(env: Env, st: DepositState, tx: Transaction, outs: seq<TxOut>, n: nat, i: nat)
    requires i < n < |outs| && FirstPaying(env, st, outs, n)
    ensures DepositAt(env, st, tx, outs[..n], i, DepositOf(env, st, tx, outs[n])) <==> !Apart(env, st, outs, i, n)
  {
    DepositAtPrefix(env, st, tx, outs, n, i, DepositOf(env, st, tx, outs[n]));
  }

  lemma {:induction false} LastPair(env: Env, st: DepositState, tx: Transaction, outs: seq<TxOut>, n: nat)
    requires |outs| == n + 1 && FirstPaying(env, st, outs, n)
    ensures IsDeposit(env, st, tx, outs[..n], DepositOf(env, st, tx, outs[n])) <==> !LastDiffers(env, st, outs, n)
  {
    var last := DepositOf(env, st, tx, outs[n]);
    forall i: nat | i < n
      ensures DepositAt(env, st, tx, outs[..n], i, last) <==> !Apart(env, st, outs, i, n)
    {
      SamePair(env, st, tx, outs, n, i);
    }
    if IsDeposit(env, st, tx, outs[..n], last) {
      var i: nat :| DepositAt(env, st, tx, outs[..n], i, last);
      assert i < n;
      assert !Apart(env, st, outs, i, n);
    }
    if !LastDiffers(env, st, outs, n) {
      var i: nat :| i < n && !Apart(env, st, outs, i, n);
      assert DepositAt(env, st, tx, outs[..n], i, last);
    }
  }

  lemma {:induction false} DistinctDeposits(env: Env, st: DepositState, tx: Transaction, outs: seq<TxOut>)
    ensures Distinct(DepositsFor(env, st, tx, outs)) <==> PairsDiffer(env, st, outs)
  {
    if outs != [] {
      var n := |outs| - 1;
      DistinctDeposits(env, st, tx, outs[..n]);
      PairsPrefix(env, st, outs, n);
      LastDistinct(env, st, tx, outs, n, DepositsFor(env, st, tx, outs[..n]));
    }
  }

  lemma {:induction false} LastDistinct(env: Env, st: DepositState, tx: Transaction, outs: seq<TxOut>, n: nat,
                                        ds: seq<P.Transaction>)
    requires |outs| == n + 1 && ds == DepositsFor(env, st, tx, outs[..n])
    ensures Distinct(DepositsFor(env, st, tx, outs)) <==> Distinct(ds) && LastDiffers(env, st, outs, n)
  {
    if FirstPaying(env, st, outs, n) {
      var last := DepositOf(env, st, tx, outs[n]);
      assert last in ds <==> !LastDiffers(env, st, outs, n) by {
        DepositMembers(env, st, tx, outs[..n], last);
        LastPair(env, st, tx, outs, n);
      }
      DistinctSnoc(ds, last);
    } else {
      assert DepositsFor(env, st, tx, outs) == ds + [] == ds;
    }
  }

  /** The pool grows by one deposit for each address credited exactly if no two
      of them share user and value and none of the deposits is pending; it
      never grows by more. */
  lemma {:induction false} OneDepositEach(env: Env, st: DepositState, tx: Transaction, outs: seq<TxOut>)
    ensures var pool, paid := CreditOutputs(env, st, tx, outs).pool, Paid(env, st, outs);
            && |pool| <= |st.pool| + |paid|
            && (|pool| == |st.pool| + |paid| <==>
                PairsDiffer(env, st, outs) && forall t :: IsDeposit(env, st, tx, outs, t) ==> t !in st.pool)
  {
    var ds := DepositsFor(env, st, tx, outs);
    PoolAfter(env, st, tx, outs);
    DepositsCount(env, st, tx, outs);
    DistinctDeposits(env, st, tx, outs);
    P.AddAllSize(st.pool, ds);
    forall t
      ensures t in ds <==> IsDeposit(env, st, tx, outs, t)
    {
      DepositMembers(env, st, tx, outs, t);
    }
  }

  /** Two watched addresses of one user paid the same by one transaction make
      one deposit, and neither is watched afterwards. */
  lemma {:induction false} SharedDeposit(env: Env, st: DepositState, tx: Transaction, a: TxOut, b: TxOut)
    requires Credits(env, st, a) && Credits(env, st, b) && env.decode(a.script) != env.decode(b.script)
    requires UserOf(env, st, a) == UserOf(env, st, b) && a.value == b.value && st.pool == []
    ensures FirstPaying(env, st, [a, b], 0) && FirstPaying(env, st, [a, b], 1)
    ensures var st' := CreditOutputs(env, st, tx, [a, b]);
            |st'.pool| == 1 && !Credits(env, st', a) && !Credits(env, st', b)
  {
    var outs := [a, b];
    assert outs[0] == a && outs[1] == b;
    assert FirstPaying(env, st, outs, 0) && FirstPaying(env, st, outs, 1);
    NotBoth(env, st, tx, outs);
    CreditedNoMore(env, st, tx, outs, a);
    CreditedNoMore(env, st, tx, outs, b);
  }

  lemma {:induction false} BothPaid(env: Env, st: DepositState, outs: seq<TxOut>)
    requires |outs| == 2 && FirstPaying(env, st, outs, 0) && FirstPaying(env, st, outs, 1)
    ensures |Paid(env, st, outs)| == 2
  {
    var paid := Paid(env, st, outs);
    assert forall k: nat :: k in paid <==> k == 0 || k == 1;
    assert paid == {0, 1};
  }

  lemma {:induction false} FirstPending(env: Env, st: DepositState, tx: Transaction, outs: seq<TxOut>, k: nat)
    requires FirstPaying(env, st, outs, k)
    ensures DepositOf(env, st, tx, outs[k]) in CreditOutputs(env, st, tx, outs).pool
  {
    var t := DepositOf(env, st, tx, outs[k]);
    assert DepositAt(env, st, tx, outs, k, t);
    assert IsDeposit(env, st, tx, outs, t);
    CreditsExactly(env, st, tx, outs);
  }

  lemma {:induction false} NotBoth(env: Env, st: DepositState, tx: Transaction, outs: seq<TxOut>)
    requires |outs| == 2 && st.pool == [] && FirstPaying(env, st, outs, 0) && !Apart(env, st, outs, 0, 1)
    ensures |CreditOutputs(env, st, tx, outs).pool| == 1
  {
    var pool := CreditOutputs(env, st, tx, outs).pool;
    BothPaid(env, st, outs);
    assert |pool| < 2 by {
      assert !PairsDiffer(env, st, outs);
      OneDepositEach(env, st, tx, outs);
    }
    assert pool != [] by {
      FirstPending(env, st, tx, outs, 0);
    }
  }

  lemma {:induction false} OneDeposit(env: Env, st: DepositState, tx: Transaction, outs: seq<TxOut>)
    requires |outs| == 1 && FirstPaying(env, st, outs, 0)
    ensures DepositsFor(env, st, tx, outs) == [DepositOf(env, st, tx, outs[0])]
  {
    assert outs[..0] == [] && DepositsFor(env, st, tx, outs[..0]) == [];
  }

  /** An address is credited once: what a transaction has been credited for is
      no longer watched. */
  lemma {:induction false} CreditedNoMore(env: Env, st: DepositState, tx: Transaction, outs: seq<TxOut>, out: TxOut)
    requires out in outs
    ensures !Credits(env, CreditOutputs(env, st, tx, outs), out)
    ensures forall o :: !Credits(env, st, o) ==> !Credits(env, CreditOutputs(env, st, tx, outs), o)
  {
    forall o
      ensures o in outs || !Credits(env, st, o) ==> !Credits(env, CreditOutputs(env, st, tx, outs), o)
    {
      StillCredits(env, st, tx, outs, o);
    }
  }

  /** A deposit gossiped by another node and executed, so that the pool is empty
      again, is made pending a second time by the node's own confirmation:
      gossip does not mark the Bitcoin transaction as processed. */
  lemma {:induction false} GossipedThenConfirmed(env: Env, st: DepositState, tx: Transaction, out: TxOut)
    requires tx.outputs == [out] && Credits(env, st, out) && ComputeTxid(tx) !in st.processed
    ensures var t := DepositOf(env, st, tx, out);
            var executed := Gossip(st, t, true).(pool := []);
            t in Gossip(st, t, true).pool && Confirm(env, executed, tx).pool == [t]
  {
    var t := DepositOf(env, st, tx, out);
    var st1 := Gossip(st, t, true).(pool := [], processed := st.processed + {ComputeTxid(tx)});
    assert FirstPaying(env, st1, tx.outputs, 0);
    PoolAfter(env, st1, tx, tx.outputs);
    OneDeposit(env, st1, tx, tx.outputs);
    assert P.AddPending([], t) == [t] && [t][1..] == [];
    assert P.AddAll([], [t]) == P.AddAll([t], []);
  }

  // ---------- Answers that fail ----------

  /** The intent for the output at `k` is asked for: its address is watched, and
      no earlier output to it was credited. */
  ghost predicate Looked(env: Env, st: DepositState, outs: seq<TxOut>, k: nat)
    requires k < |outs|
  {
    var a := env.decode(outs[k].script);
    a.Some? && a.value in st.watched && (Credits(env, st, outs[k]) ==> FirstPaying(env, st, outs, k))
  }

  /** The answer for the output at `k` is a failure, and is waited for. */
  ghost predicate Harms(env: Env, st: DepositState, outs: seq<TxOut>, k: nat, reply: Reply)
    requires k < |outs|
  {
    match reply
    case Served => false
    case LookupFails => Looked(env, st, outs, k)
    case AdditionFails => FirstPaying(env, st, outs, k)
    case RemovalFails => FirstPaying(env, st, outs, k)
  }

  ghost predicate Unharmed(env: Env, st: DepositState, outs: seq<TxOut>, replies: seq<Reply>, n: nat)
    requires n <= |outs| == |replies|
  {
    forall k :: 0 <= k < n ==> !Harms(env, st, outs, k, replies[k])
  }

  /** What is watched after some outputs: all but what they were credited for. */
  lemma {:induction false} StillWatched(env: Env, st: DepositState, tx: Transaction, outs: seq<TxOut>, a: P.Text)
    ensures a in CreditOutputs(env, st, tx, outs).watched <==>
            && a in st.watched
            && !(P.FindIntent(st.intents, a).Some? && exists o :: o in outs && env.decode(o.script) == Some(a))
    decreases |outs|
  {
    if outs != [] {
      var st' := CreditOutput(env, st, tx, outs[0]);
      assert outs == [outs[0]] + outs[1..];
      StillWatched(env, st', tx, outs[1..], a);
      WatchedAfterOne(env, st, tx, outs[0], a);
    }
  }

  lemma {:induction false} WatchedAfterOne(env: Env, st: DepositState, tx: Transaction, out: TxOut, a: P.Text)
    ensures var st' := CreditOutput(env, st, tx, out);
            && (a in st'.watched <==>
                a in st.watched && !(P.FindIntent(st.intents, a).Some? && env.decode(out.script) == Some(a)))
            && (a in st'.watched ==> P.FindIntent(st'.intents, a) == P.FindIntent(st.intents, a))
  {
    var b := env.decode(out.script);
    if b.Some? && b.value != a {
      OtherIntents(st.intents, b.value, a);
    }
  }

  /** The answer for the output at `k`, reached with all before it served. */
  lemma {:induction false} ReplyAt(env: Env, st: DepositState, tx: Transaction, outs: seq<TxOut>, k: nat, reply: Reply)
    requires k < |outs|
    ensures var now := CreditOutputs(env, st, tx, outs[..k]);
            CreditReply(env, now, tx, outs[k], reply) ==
            (if Harms(env, st, outs, k, reply) && !reply.RemovalFails? then now
             else CreditOutput(env, now, tx, outs[k]),
             !Harms(env, st, outs, k, reply))
  {
    var now, a := CreditOutputs(env, st, tx, outs[..k]), env.decode(outs[k].script);
    CreditsAt(env, st, tx, outs, k);
    if a.Some? {
      WatchedAt(env, st, tx, outs, k, a.value);
    }
  }

  lemma {:induction false} CreditsAt(env: Env, st: DepositState, tx: Transaction, outs: seq<TxOut>, k: nat)
    requires k < |outs|
    ensures Credits(env, CreditOutputs(env, st, tx, outs[..k]), outs[k]) <==> FirstPaying(env, st, outs, k)
  {
    StillCredits(env, st, tx, outs[..k], outs[k]);
    assert forall j :: 0 <= j < k ==> outs[..k][j] == outs[j];
  }

  lemma {:induction false} WatchedAt(env: Env, st: DepositState, tx: Transaction, outs: seq<TxOut>, k: nat, a: P.Text)
    requires k < |outs| && env.decode(outs[k].script) == Some(a)
    ensures a in CreditOutputs(env, st, tx, outs[..k]).watched <==> Looked(env, st, outs, k)
  {
    StillWatched(env, st, tx, outs[..k], a);
    if o :| o in outs[..k] && env.decode(o.script) == Some(a) {
      var j :| 0 <= j < k && outs[..k][j] == o;
      assert outs[j] == o;
    } else {
      forall j | 0 <= j < k
        ensures env.decode(outs[j].script) != env.decode(outs[k].script)
      {
        assert outs[j] in outs[..k];
      }
    }
  }

  /** Outputs whose answers do no harm are credited as if all were served. */
  lemma {:induction false} HarmlessPrefix(env: Env, st: DepositState, tx: Transaction, outs: seq<TxOut>,
                                          replies: seq<Reply>, k: nat)
    requires |replies| == |outs| && k <= |outs| && Unharmed(env, st, outs, replies, k)
    ensures CreditReplies(env, st, tx, outs, replies) ==
            CreditReplies(env, CreditOutputs(env, st, tx, outs[..k]), tx, outs[k..], replies[k..])
  {
    if k == 0 {
      assert outs[..0] == [] && outs[0..] == outs && replies[0..] == replies;
    } else {
      var j := k - 1;
      HarmlessPrefix(env, st, tx, outs, replies, j);
      ReplyAt(env, st, tx, outs, j, replies[j]);
      assert outs[..j] + [outs[j]] == outs[..k];
      CreditSnoc(env, st, tx, outs[..j], outs[j]);
      assert outs[j..][0] == outs[j] && replies[j..][0] == replies[j];
      assert outs[j..][1..] == outs[k..] && replies[j..][1..] == replies[k..];
    }
  }

  lemma {:induction false} StopsHere(env: Env, st: DepositState, tx: Transaction, outs: seq<TxOut>, replies: seq<Reply>)
    requires |replies| == |outs| && outs != [] && !CreditReply(env, st, tx, outs[0], replies[0]).1
    ensures CreditReplies(env, st, tx, outs, replies) == CreditReply(env, st, tx, outs[0], replies[0])
  {
  }

  lemma {:induction false} ReachedBy(env: Env, st: DepositState, tx: Transaction, outs: seq<TxOut>, replies: seq<Reply>,
                                     k: nat)
    requires |replies| == |outs| && k < |outs| && Harms(env, st, outs, k, replies[k])
    ensures CreditReply(env, CreditOutputs(env, st, tx, outs[..k]), tx, outs[k], replies[k]) ==
            (CreditOutputs(env, st, tx, outs[..Reached(replies, k)]), false)
  {
    ReplyAt(env, st, tx, outs, k, replies[k]);
    CreditNext(env, st, tx, outs, k);
  }

  lemma {:induction false} CreditNext(env: Env, st: DepositState, tx: Transaction, outs: seq<TxOut>, k: nat)
    requires k < |outs|
    ensures CreditOutput(env, CreditOutputs(env, st, tx, outs[..k]), tx, outs[k]) ==
            CreditOutputs(env, st, tx, outs[..k + 1])
  {
    assert outs[..k] + [outs[k]] == outs[..k + 1];
    CreditSnoc(env, st, tx, outs[..k], outs[k]);
  }

  /** The answers up to the first that does harm decide. */
  lemma {:induction false} FirstHarm(env: Env, st: DepositState, tx: Transaction, outs: seq<TxOut>, replies: seq<Reply>,
                                     k: nat)
    requires |replies| == |outs| && k <= |outs| && Unharmed(env, st, outs, replies, k)
    requires k < |outs| ==> Harms(env, st, outs, k, replies[k])
    ensures CreditReplies(env, st, tx, outs, replies) ==
            (CreditOutputs(env, st, tx, outs[..Reached(replies, k)]), k == |outs|)
  {
    HarmlessPrefix(env, st, tx, outs, replies, k);
    if k < |outs| {
      var now, rest, later := CreditOutputs(env, st, tx, outs[..k]), outs[k..], replies[k..];
      assert rest[0] == outs[k] && later[0] == replies[k];
      ReachedBy(env, st, tx, outs, replies, k);
      StopsHere(env, now, tx, rest, later);
    }
  }

  /** How many outputs are credited if the first harm is done at `k`: a failed
      removal comes after the crediting. */
  function Reached(replies: seq<Reply>, k: nat): nat {
    if k < |replies| && replies[k].RemovalFails? then k + 1 else k
  }

  lemma {:induction false} HarmExists(env: Env, st: DepositState, outs: seq<TxOut>, replies: seq<Reply>, n: nat)
    returns (k: nat)
    requires n <= |outs| == |replies|
    ensures k <= n && Unharmed(env, st, outs, replies, k)
    ensures k < n ==> Harms(env, st, outs, k, replies[k])
    ensures k == n <==> Unharmed(env, st, outs, replies, n)
  {
    k := 0;
    while k < n && !Harms(env, st, outs, k, replies[k])
      invariant 0 <= k <= n && Unharmed(env, st, outs, replies, k)
    {
      k := k + 1;
    }
  }

  /** A confirmation goes through exactly if no answer that is waited for is a
      failure, and then does what Confirm says. Otherwise the outputs before the
      first such failure are credited, and its own if only the removal of the
      intent failed; the wallet has not seen the transaction, and no later
      confirmation of it, however answered, changes anything. */
  lemma {:induction false} FailureIsFinal(env: Env, st: DepositState, tx: Transaction, replies: seq<Reply>,
                                          again: Transaction, replies': seq<Reply>) returns (k: nat)
    requires |replies| == |tx.outputs| && |replies'| == |again.outputs| && ComputeTxid(again) == ComputeTxid(tx)
    requires ComputeTxid(tx) !in st.processed
    ensures k <= |tx.outputs| && Unharmed(env, st, tx.outputs, replies, k)
    ensures k < |tx.outputs| ==> Harms(env, st, tx.outputs, k, replies[k])
    ensures var (st', ok) := ConfirmWith(env, st, tx, replies);
            && (ok <==> Unharmed(env, st, tx.outputs, replies, |tx.outputs|))
            && (ok ==> st' == Confirm(env, st, tx))
            && (!ok ==> && k < |tx.outputs| && st'.wallet == st.wallet
                        && st'.pool == P.AddAll(st.pool, DepositsFor(env, st, tx, tx.outputs[..Reached(replies, k)])))
            && ConfirmWith(env, st', again, replies') == (st', true)
  {
    var outs := tx.outputs;
    var st1 := st.(processed := st.processed + {ComputeTxid(tx)});
    k := HarmExists(env, st1, outs, replies, |outs|);
    SameHarm(env, st1, st, outs, replies);
    FirstHarm(env, st1, tx, outs, replies, k);
    assert outs[..|outs|] == outs;
    PoolAfter(env, st1, tx, outs[..Reached(replies, k)]);
    SameDeposits(env, st1, st, tx, outs[..Reached(replies, k)]);
  }

  lemma {:induction false} SameHarm(env: Env, st: DepositState, st': DepositState, outs: seq<TxOut>,
                                    replies: seq<Reply>)
    requires st.watched == st'.watched && st.intents == st'.intents && |replies| == |outs|
    ensures forall k :: 0 <= k < |outs| ==>
              (Harms(env, st, outs, k, replies[k]) <==> Harms(env, st', outs, k, replies[k]))
    ensures forall n :: 0 <= n <= |outs| ==>
              (Unharmed(env, st, outs, replies, n) <==> Unharmed(env, st', outs, replies, n))
  {
    forall k | 0 <= k < |outs|
      ensures Harms(env, st, outs, k, replies[k]) <==> Harms(env, st', outs, k, replies[k])
    {
      assert FirstPaying(env, st, outs, k) <==> FirstPaying(env, st', outs, k);
    }
  }

  lemma {:induction false} SameDeposits(env: Env, st: DepositState, st': DepositState, tx: Transaction,
                                        outs: seq<TxOut>)
    requires st.watched == st'.watched && st.intents == st'.intents
    ensures DepositsFor(env, st, tx, outs) == DepositsFor(env, st', tx, outs)
  {
    if outs != [] {
      var n := |outs| - 1;
      SameDeposits(env, st, st', tx, outs[..n]);
      assert FirstPaying(env, st, outs, n) <==> FirstPaying(env, st', outs, n);
    }
  }

  // ---------- Repeats ----------

  /** The transactions whose id is neither in `seen` nor came before. */
  function FirstOccurrences(txs: seq<Transaction>, seen: set<Txid>): seq<Transaction> {
    if txs == [] then []
    else if ComputeTxid(txs[0]) in seen then FirstOccurrences(txs[1..], seen)
    else [txs[0]] + FirstOccurrences(txs[1..], seen + {ComputeTxid(txs[0])})
  }

  ghost predicate FreshIds(txs: seq<Transaction>, seen: set<Txid>) {
    && (forall i :: 0 <= i < |txs| ==> ComputeTxid(txs[i]) !in seen)
    && (forall i, j :: 0 <= i < j < |txs| ==> ComputeTxid(txs[i]) != ComputeTxid(txs[j]))
  }

  lemma {:induction false} FirstOccurrencesFresh(txs: seq<Transaction>, seen: set<Txid>)
    ensures FreshIds(FirstOccurrences(txs, seen), seen)
  {
    if txs != [] {
      if ComputeTxid(txs[0]) in seen {
        FirstOccurrencesFresh(txs[1..], seen);
      } else {
        var rest := FirstOccurrences(txs[1..], seen + {ComputeTxid(txs[0])});
        FirstOccurrencesFresh(txs[1..], seen + {ComputeTxid(txs[0])});
        assert FirstOccurrences(txs, seen) == [txs[0]] + rest;
      }
    }
  }

  /** A run with repeats leaves everything as the repeat-free run does. */
  lemma {:induction false} RepeatsIgnored(env: Env, st: DepositState, txs: seq<Transaction>)
    ensures ConfirmAll(env, st, txs) == ConfirmAll(env, st, FirstOccurrences(txs, st.processed))
    ensures FreshIds(FirstOccurrences(txs, st.processed), st.processed)
    decreases |txs|
  {
    FirstOccurrencesFresh(txs, st.processed);
    if txs != [] {
      var st' := Confirm(env, st, txs[0]);
      RepeatsIgnored(env, st', txs[1..]);
      if ComputeTxid(txs[0]) !in st.processed {
        var rest := FirstOccurrences(txs[1..], st'.processed);
        assert FirstOccurrences(txs, st.processed) == [txs[0]] + rest;
        assert ([txs[0]] + rest)[1..] == rest;
      }
    }
  }

  // ---------- The wallet after a run ----------

  function IngestAll(w: WalletState, txs: seq<Transaction>): WalletState
    decreases |txs|
  {
    if txs == [] then w else IngestAll(Ingest(w, txs[0]), txs[1..])
  }

  lemma {:induction false} FreshRunIngestsAll(env: Env, st: DepositState, txs: seq<Transaction>)
    requires FreshIds(txs, st.processed)
    ensures ConfirmAll(env, st, txs).wallet == IngestAll(st.wallet, txs)
    decreases |txs|
  {
    if txs != [] {
      var st' := Confirm(env, st, txs[0]);
      assert st'.processed == st.processed + {ComputeTxid(txs[0])};
      FreshRunIngestsAll(env, st', txs[1..]);
    }
  }

  function AllCreated(addresses: seq<Address>, txs: seq<Transaction>): seq<TrackedUtxo> {
    if txs == [] then [] else Created(addresses, txs[0]) + AllCreated(addresses, txs[1..])
  }

  function AllSpent(txs: seq<Transaction>): seq<OutPoint> {
    if txs == [] then [] else Prevouts(txs[0].inputs) + AllSpent(txs[1..])
  }

  /** Each transaction's tracked outputs that no later one spends. */
  function Survivors(addresses: seq<Address>, txs: seq<Transaction>): seq<TrackedUtxo> {
    if txs == [] then []
    else Without(Created(addresses, txs[0]), AllSpent(txs[1..])) + Survivors(addresses, txs[1..])
  }

  lemma {:induction false} WithoutConcat(a: seq<TrackedUtxo>, b: seq<TrackedUtxo>, spent: seq<OutPoint>)
    ensures Without(a + b, spent) == Without(a, spent) + Without(b, spent)
  {
    if a == [] {
      assert a + b == b;
    } else {
      assert (a + b)[1..] == a[1..] + b;
      WithoutConcat(a[1..], b, spent);
    }
  }

  lemma {:induction false} WithoutTwice(us: seq<TrackedUtxo>, s1: seq<OutPoint>, s2: seq<OutPoint>)
    ensures Without(Without(us, s1), s2) == Without(us, s1 + s2)
  {
    if us != [] {
      WithoutTwice(us[1..], s1, s2);
      if us[0].utxo.outpoint in s1 {
        assert Without(us, s1) == Without(us[1..], s1);
      } else {
        assert ([us[0]] + Without(us[1..], s1))[1..] == Without(us[1..], s1);
      }
    }
  }

  lemma {:induction false} WithoutNone(us: seq<TrackedUtxo>)
    ensures Without(us, []) == us
  {
    if us != [] {
      WithoutNone(us[1..]);
    }
  }

  lemma {:induction false} IngestAllIs(w: WalletState, txs: seq<Transaction>)
    ensures IngestAll(w, txs).utxos == Without(w.utxos, AllSpent(txs)) + Survivors(w.addresses, txs)
    decreases |txs|
  {
    if txs == [] {
      WithoutNone(w.utxos);
    } else {
      var w', tail := Ingest(w, txs[0]), txs[1..];
      IngestAllIs(w', tail);
      IngestThenSpend(w, txs[0], AllSpent(tail));
      Regroup(IngestAll(w, txs).utxos, Without(w'.utxos, AllSpent(tail)), Without(w.utxos, AllSpent(txs)),
              Without(Created(w.addresses, txs[0]), AllSpent(tail)), Survivors(w.addresses, tail));
    }
  }

  lemma {:induction false} Regroup(all: seq<TrackedUtxo>, front: seq<TrackedUtxo>, kept: seq<TrackedUtxo>,
                                   made: seq<TrackedUtxo>, rest: seq<TrackedUtxo>)
    requires all == front + rest && front == kept + made
    ensures all == kept + (made + rest)
  {
  }

  lemma {:induction false} IngestThenSpend(w: WalletState, tx: Transaction, later: seq<OutPoint>)
    ensures Without(Ingest(w, tx).utxos, later) ==
            Without(w.utxos, Prevouts(tx.inputs) + later) + Without(Created(w.addresses, tx), later)
  {
    var spent := Prevouts(tx.inputs);
    WithoutConcat(Without(w.utxos, spent), Created(w.addresses, tx), later);
    WithoutTwice(w.utxos, spent, later);
  }

  /** An output that was spent before it was created is spent again later. */
  ghost predicate SpendsInOrder(addresses: seq<Address>, before: seq<OutPoint>, txs: seq<Transaction>)
    decreases |txs|
  {
    txs != [] ==>
      && (forall u :: u in Created(addresses, txs[0]) && u.utxo.outpoint in before + Prevouts(txs[0].inputs) ==>
           u.utxo.outpoint in AllSpent(txs[1..]))
      && SpendsInOrder(addresses, before + Prevouts(txs[0].inputs), txs[1..])
  }

  lemma {:induction false} WithoutMore(us: seq<TrackedUtxo>, less: seq<OutPoint>, more: seq<OutPoint>)
    requires forall o :: o in less ==> o in more
    ensures |Without(us, more)| <= |Without(us, less)|
    ensures |Without(us, more)| == |Without(us, less)| <==>
            forall u :: u in us && u.utxo.outpoint in more ==> u.utxo.outpoint in less
    ensures |Without(us, more)| == |Without(us, less)| ==> Without(us, more) == Without(us, less)
  {
    if us != [] {
      WithoutMore(us[1..], less, more);
      assert us == [us[0]] + us[1..];
    }
  }

  lemma {:induction false} SurvivorsExact(addresses: seq<Address>, before: seq<OutPoint>, txs: seq<Transaction>)
    ensures var exact := Without(AllCreated(addresses, txs), before + AllSpent(txs));
            && |exact| <= |Survivors(addresses, txs)|
            && (|exact| == |Survivors(addresses, txs)| ==> exact == Survivors(addresses, txs))
            && (exact == Survivors(addresses, txs) <==> SpendsInOrder(addresses, before, txs))
    decreases |txs|
  {
    if txs != [] {
      var made, rest := Created(addresses, txs[0]), txs[1..];
      var before' := before + Prevouts(txs[0].inputs);
      SurvivorsExact(addresses, before', rest);
      assert before + AllSpent(txs) == before' + AllSpent(rest);
      WithoutConcat(made, AllCreated(addresses, rest), before + AllSpent(txs));
      WithoutMore(made, AllSpent(rest), before + AllSpent(txs));
    }
  }

  /** After a run the UTXO list is exactly the tracked outputs, old and new,
      that no transaction of the run spends, in order of creation; this holds
      just when no output was spent before the transaction creating it came in
      (unless it is spent again afterwards). */
  lemma {:induction false} UtxosExact(w: WalletState, txs: seq<Transaction>)
    ensures IngestAll(w, txs).utxos == Without(w.utxos + AllCreated(w.addresses, txs), AllSpent(txs))
            <==> SpendsInOrder(w.addresses, [], txs)
  {
    var spent, made, left := AllSpent(txs), AllCreated(w.addresses, txs), Survivors(w.addresses, txs);
    IngestAllIs(w, txs);
    SurvivorsExact(w.addresses, [], txs);
    assert [] + spent == spent;
    WithoutConcat(w.utxos, made, spent);
    var kept := Without(w.utxos, spent);
    assert (kept + left)[|kept|..] == left;
    assert (kept + Without(made, spent))[|kept|..] == Without(made, spent);
  }

  // ---------- Distinct outpoints ----------

  lemma {:induction false} TrackedOutputsIds(addresses: seq<Address>, id: Txid, outs: seq<TxOut>, from: nat)
    ensures DistinctOutpoints(TrackedOutputs(addresses, id, outs, from))
    ensures forall u :: u in TrackedOutputs(addresses, id, outs, from) ==>
                          u.utxo.outpoint.txid == id && u.utxo.outpoint.vout >= from
  {
    if outs != [] {
      TrackedOutputsIds(addresses, id, outs[1..], from + 1);
      var first, rest := TrackedAt(addresses, id, outs[0], from), TrackedOutputs(addresses, id, outs[1..], from + 1);
      var all: seq<TrackedUtxo> := first + rest;
      forall i, j | 0 <= i < j < |all|
        ensures all[i].utxo.outpoint != all[j].utxo.outpoint
      {
        assert all[j] == rest[j - |first|];
        if i >= |first| {
          assert all[i] == rest[i - |first|];
        }
      }
    }
  }

  lemma {:induction false} WithoutMembers(us: seq<TrackedUtxo>, spent: seq<OutPoint>)
    ensures forall u :: u in Without(us, spent) <==> u in us && u.utxo.outpoint !in spent
  {
    if us != [] {
      assert us == [us[0]] + us[1..];
      WithoutMembers(us[1..], spent);
    }
  }

  lemma {:induction false} WithoutDistinct(us: seq<TrackedUtxo>, spent: seq<OutPoint>)
    requires DistinctOutpoints(us)
    ensures DistinctOutpoints(Without(us, spent))
  {
    if us != [] {
      WithoutDistinct(us[1..], spent);
      WithoutMembers(us[1..], spent);
      if us[0].utxo.outpoint !in spent {
        var rest := Without(us[1..], spent);
        forall j | 0 <= j < |rest|
          ensures us[0].utxo.outpoint != rest[j].utxo.outpoint
        {
          assert rest[j] in us[1..];
        }
      }
    }
  }

  /** A transaction cannot spend an output of its own. */
  lemma {:induction false} NeverSpendsItself(tx: Transaction, vout: nat)
    ensures OutPoint(ComputeTxid(tx), vout) !in Prevouts(tx.inputs)
  {
    var id := ComputeTxid(tx);
    forall i | 0 <= i < |tx.inputs|
      ensures Prevouts(tx.inputs)[i].txid != id
    {
      var input := id.inputs[i];
      assert input == tx.inputs[i].stripped;
      assert input.prevout.txid < input.prevout < input < id;
    }
  }

  lemma {:induction false} WithoutAll(us: seq<TrackedUtxo>, spent: seq<OutPoint>)
    requires forall u :: u in us ==> u.utxo.outpoint !in spent
    ensures Without(us, spent) == us
  {
    if us != [] {
      WithoutAll(us[1..], spent);
    }
  }

  /** Ingesting again counts every tracked output twice, and so changes nothing
      exactly when there is none. */
  lemma {:induction false} IngestAgain(w: WalletState, tx: Transaction)
    ensures Ingest(Ingest(w, tx), tx).utxos == Ingest(w, tx).utxos + Created(w.addresses, tx)
    ensures Ingest(Ingest(w, tx), tx) == Ingest(w, tx) <==> Created(w.addresses, tx) == []
  {
    var spent, made := Prevouts(tx.inputs), Created(w.addresses, tx);
    var kept := Without(w.utxos, spent);
    TrackedOutputsIds(w.addresses, ComputeTxid(tx), tx.outputs, 0);
    WithoutMembers(w.utxos, spent);
    forall u: TrackedUtxo | u in kept + made
      ensures u.utxo.outpoint !in spent
    {
      if u in made {
        NeverSpendsItself(tx, u.utxo.outpoint.vout);
      }
    }
    WithoutAll(kept + made, spent);
    if made != [] {
      assert |Ingest(Ingest(w, tx), tx).utxos| > |Ingest(w, tx).utxos|;
    } else {
      assert Ingest(w, tx).utxos + made == Ingest(w, tx).utxos;
    }
  }

  class DepositIntentState {
    const env: Env
    const wallet: TaprootWallet
    var processedTxids: set<Txid>
    var depositAddresses: set<P.Text>
    // The deposit intents and the pending pool belong to the chain actor.
    var intents: seq<P.DepositIntent>
    var pool: seq<P.Transaction>

    ghost function View(): DepositState
      reads this, wallet
    {
      DepositState(processedTxids, depositAddresses, intents, pool, wallet.View())
    }

    constructor (env: Env, wallet: TaprootWallet)
      ensures this.env == env && this.wallet == wallet
      ensures View() == DepositState({}, {}, [], [], wallet.View())
    {
      this.env, this.wallet := env, wallet;
      processedTxids, depositAddresses, intents, pool := {}, {}, [], [];
    }

    method InsertPendingDepositTransaction(tx: Transaction, replies: seq<Reply>) returns (ok: bool)
      requires |replies| == |tx.outputs|
      modifies this, wallet
      ensures (View(), ok) == ConfirmWith(env, old(View()), tx, replies)
    {
      var id := ComputeTxid(tx);
      if id in processedTxids {
        return true;
      }
      processedTxids := processedTxids + {id};
      ghost var done := CreditReplies(env, View(), tx, tx.outputs, replies);
      var i := 0;
      while i < |tx.outputs|
        invariant 0 <= i <= |tx.outputs|
        invariant done == CreditReplies(env, View(), tx, tx.outputs[i..], replies[i..])
        invariant wallet.View() == old(wallet.View())
      {
        ghost var before := View();
        ok := CreditOne(tx, tx.outputs[i], replies[i]);
        assert tx.outputs[i..][1..] == tx.outputs[i + 1..] && replies[i..][1..] == replies[i + 1..];
        assert tx.outputs[i..][0] == tx.outputs[i] && replies[i..][0] == replies[i];
        assert (View(), ok) == CreditReply(env, before, tx, tx.outputs[i], replies[i]);
        if !ok {
          return;
        }
        i := i + 1;
      }
      wallet.IngestExternalTx(tx);
      ok := true;
    }

    /** One output of the loop. */
    method CreditOne(tx: Transaction, out: TxOut, reply: Reply) returns (ok: bool)
      modifies this`pool, this`depositAddresses, this`intents
      ensures (View(), ok) == CreditReply(env, old(View()), tx, out, reply)
    {
      var address := env.decode(out.script);
      if address.None? || address.value !in depositAddresses {
        return true;
      }
      if reply.LookupFails? {
        return false;
      }
      var intent := P.FindIntent(intents, address.value);
      if intent.None? {
        return true;
      }
      var deposit := P.CreateDeposit(tx, env.idBytes(ComputeTxid(tx)), intent.value.userPubkey, out.value);
      if reply.AdditionFails? {
        return false;
      }
      pool := P.AddPending(pool, deposit);
      depositAddresses := depositAddresses - {address.value};
      intents := P.DropIntents(intents, intent.value.depositAddress);
      return !reply.RemovalFails?;
    }

    /** The gossip branch of the deposit handler. */
    method HandleGossip(t: P.Transaction, added: bool)
      modifies this`pool, wallet
      ensures View() == Gossip(old(View()), t, added)
    {
      if added {
        pool := P.AddPending(pool, t);
      }
      if t.metadata.Some? && t.metadata.value.tx.Some? {
        wallet.IngestExternalTx(t.metadata.value.tx.value);
      }
    }

    /** The withdrawal handler's, on the same wallet and pool. */
    method HandleWithdrawalMessage(p: PendingSpend, luck: RelayLuck)
      modifies this`pool, wallet
      ensures View() == Relay(old(View()), p, luck)
    {
      if !luck.broadcastOk {
        return;
      }
      wallet.IngestExternalTx(p.tx);
      var payment := FindPayment(p.tx.outputs, p.recipientScript);
      RelayIs(old(View()), p, luck, payment);
      if payment.Some? && luck.added {
        var debit := Debit(payment.value.value, p.fee);
        pool := P.AddPending(pool, P.CreateWithdrawal(p.userPubkey, p.addressTo, debit));
      }
    }

    static method FindPayment(outs: seq<TxOut>, script: Script) returns (r: Option<TxOut>)
      ensures r == Payment(outs, script)
    {
      var i := 0;
      while i < |outs| && outs[i].script != script
        invariant 0 <= i <= |outs|
        invariant forall j :: 0 <= j < i ==> outs[j].script != script
      {
        i := i + 1;
      }
      PaymentIs(outs, script, i);
      if i == |outs| {
        return None;
      }
      return Some(outs[i]);
    }
  }
}
