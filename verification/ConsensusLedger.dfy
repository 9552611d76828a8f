/** What consensus executes: every finalisation is of the node's own pending
    transactions, so a run of messages is a run of blocks. */
module ConsensusLedger {
  import opened Prelude
  import opened Sorting
  import opened Repeats
  import opened Protocol
  import Executor
  import Bytes
  import opened Chain
  import opened Convergence
  import opened Replays
  import opened LeaderElection
  import opened Consensus

  /** A validator's new precommit completes a quorum of a round in which nothing
      was finalised. */
  predicate Finalizing(n: Node, msg: Message) {
    && msg.HandleVote? && msg.sender.Some? && msg.vote.voteType.Precommit?
    && msg.sender.value in n.cons.validators && msg.sender.value !in n.cons.precommits
    && |n.cons.precommits| + 1 >= Quorum(|n.cons.validators|) && !n.cons.blockFinalized
  }

  /** Exactly such a precommit touches the ledger, and it finalises the block of
      everything pending, in the node's own name. */
  lemma {:induction false} LedgerStep(cfg: Config, n: Node, msg: Message)
    ensures Step(cfg, n, msg).node.ledger ==
            if Finalizing(n, msg) then Epoch(cfg.env, n.ledger, Batch([], cfg.me)) else n.ledger
  {
    if msg.HandleVote? && msg.sender.Some? {
      if msg.sender.value in n.cons.validators && msg.vote.voteType.Precommit? {
        PrecommitLedger(cfg, n, msg.sender.value);
      }
    } else {
      StepKeepsLedger(cfg, n, msg);
    }
  }

  lemma {:induction false} PrecommitLedger(cfg: Config, n: Node, sender: PeerId)
    requires sender in n.cons.validators
    ensures OnPrecommit(cfg, n, sender).node.ledger ==
            if sender !in n.cons.precommits && |n.cons.precommits| + 1 >= Quorum(|n.cons.validators|) &&
               !n.cons.blockFinalized
            then Epoch(cfg.env, n.ledger, Batch([], cfg.me)) else n.ledger
  {
    assert sender !in n.cons.precommits ==> |n.cons.precommits + {sender}| == |n.cons.precommits| + 1;
    assert Gather(n.ledger, []) == n.ledger;
  }

  /** If the block succeeds it is the stored tip, holds exactly the pending
      transactions, sorted by id, and the accounts are those of running them. */
  lemma {:induction false} FinalizedBlock(cfg: Config, n: Node, msg: Message) returns (b: Block)
    requires Step(cfg, n, msg).node.ledger.chain.height != n.ledger.chain.height
    ensures var l' := Step(cfg, n, msg).node.ledger;
            && Finalizing(n, msg) && l'.chain.height == n.ledger.chain.height + 1 && l'.chain.pending == []
            && l'.store.tip == Some(HashOf(b)) && b.header.height == l'.chain.height
            && multiset(b.transactions) == multiset(n.ledger.chain.pending) && SortedBy(b.transactions, cfg.env.id)
            && var m := Executor.Machine(n.ledger.stack, n.ledger.allowance, NextState(n.ledger.chain));
               var r := RunAll(cfg.env.exec, m, b.transactions);
               r.error.None? && l'.chain.accounts == r.m.chain.accounts
  {
    b := ProposedBlock(cfg.env, n.ledger.chain, None, cfg.me);
    LedgerStep(cfg, n, msg);
    assert Gather(n.ledger, []) == n.ledger;
    AllOrNothing(cfg.env, n.ledger, b);
    SortSorted(n.ledger.chain.pending, cfg.env.id);
  }

  // ---------- Whole runs ----------

  /** The transactions that reached the node before each finalisation, and those
      since the last. */
  datatype Ledgered = Ledgered(batches: seq<Batch>, since: seq<Transaction>)

  ghost function Record(cfg: Config, n: Node, evs: seq<Event>): Ledgered {
    if evs == [] then Ledgered([], [])
    else
      var k := |evs| - 1;
      var r := Record(cfg, n, evs[..k]);
      match evs[k]
      case Submitted(tx) => r.(since := r.since + [tx])
      case Received(msg) =>
        if Finalizing(ReactAll(cfg, n, evs[..k]), msg) then Ledgered(r.batches + [Batch(r.since, cfg.me)], []) else r
  }

  lemma {:induction false} GatherSnoc(l: Ledger, txs: seq<Transaction>, tx: Transaction)
    ensures var g := Gather(l, txs);
            Gather(l, txs + [tx]) == g.(chain := g.chain.(pending := AddPending(g.chain.pending, tx)))
  {
    AddAllSnoc(l.chain.pending, txs, tx);
  }

  lemma {:induction false} EpochOfGathered(env: ChainEnv, l: Ledger, txs: seq<Transaction>, p: Option<PeerId>)
    ensures Epoch(env, Gather(l, txs), Batch([], p)) == Epoch(env, l, Batch(txs, p))
  {
    assert Gather(Gather(l, txs), []) == Gather(l, txs);
  }

  /** Whatever messages and transactions reach a node, its ledger is that of the
      blocks of what it received between finalisations, and what it received
      since is pending. */
  lemma {:induction false} RunIsEpochs(cfg: Config, n: Node, evs: seq<Event>)
    ensures var r := Record(cfg, n, evs);
            ReactAll(cfg, n, evs).ledger == Gather(Epochs(cfg.env, n.ledger, r.batches), r.since)
  {
    if evs == [] {
      assert Gather(n.ledger, []) == n.ledger;
    } else {
      var k := |evs| - 1;
      var now, r := ReactAll(cfg, n, evs[..k]), Record(cfg, n, evs[..k]);
      var l := Epochs(cfg.env, n.ledger, r.batches);
      RunIsEpochs(cfg, n, evs[..k]);
      match evs[k]
      case Submitted(tx) => GatherSnoc(l, r.since, tx);
      case Received(msg) =>
        LedgerStep(cfg, now, msg);
        if Finalizing(now, msg) {
          EpochOfGathered(cfg.env, l, r.since, cfg.me);
          EpochsSnoc(cfg.env, n.ledger, r.batches, Batch(r.since, cfg.me));
          assert Gather(Epoch(cfg.env, l, Batch(r.since, cfg.me)), []) == Epoch(cfg.env, l, Batch(r.since, cfg.me));
        }
    }
  }

  /** Everything the node received is in `all`. */
  ghost predicate ReceivedIn(evs: seq<Event>, all: seq<Transaction>) {
    forall i :: 0 <= i < |evs| && evs[i].Submitted? ==> evs[i].tx in all
  }

  lemma {:induction false} RecordIn(cfg: Config, n: Node, evs: seq<Event>, all: seq<Transaction>)
    requires ReceivedIn(evs, all)
    ensures var r := Record(cfg, n, evs);
            AllIn(r.since, all) && forall i :: 0 <= i < |r.batches| ==> AllIn(r.batches[i].received, all)
  {
    if evs != [] {
      RecordIn(cfg, n, evs[..|evs| - 1], all);
    }
  }

  /** Two nodes that started alike, whatever votes and rounds they saw: if what
      they received between finalisations is the same, in any order and with
      any repeats, they hold the same accounts at the same height. */
  lemma {:induction false} NodesAgree(cfg1: Config, cfg2: Config, n1: Node, n2: Node, evs1: seq<Event>,
                                      evs2: seq<Event>, all: seq<Transaction>)
    requires cfg1.env == cfg2.env && Universe(cfg1.env, all) && ReceivedIn(evs1, all) && ReceivedIn(evs2, all)
    requires Settled(n1.ledger) && Settled(n2.ledger) && n1.ledger.chain.pending == n2.ledger.chain.pending == []
    requires n1.ledger.chain.accounts == n2.ledger.chain.accounts && n1.ledger.chain.height == n2.ledger.chain.height
    requires SameBatches(Record(cfg1, n1, evs1).batches, Record(cfg2, n2, evs2).batches)
    ensures var c1, c2 := ReactAll(cfg1, n1, evs1).ledger.chain, ReactAll(cfg2, n2, evs2).ledger.chain;
            c1.accounts == c2.accounts && c1.height == c2.height
  {
    RunIsEpochs(cfg1, n1, evs1);
    RunIsEpochs(cfg2, n2, evs2);
    RecordIn(cfg1, n1, evs1, all);
    FreshReplicasConverge(cfg1.env, n1.ledger, n2.ledger, Record(cfg1, n1, evs1).batches,
                          Record(cfg2, n2, evs2).batches, all);
  }

  /** A node's accounts after any run: what the transactions of its successful
      blocks pay, as often as they are in one, less what they draw. */
  lemma {:induction false} NodeBalances(cfg: Config, n: Node, evs: seq<Event>, all: seq<Transaction>, a: Text)
    requires AllBuilt(cfg.env, all) && ReceivedIn(evs, all) && Settled(n.ledger) && n.ledger.chain.pending == []
    requires var held := Listed(HeldBy(cfg.env, n.ledger, Record(cfg, n, evs).batches));
             BalanceOf(n.ledger.chain, a) + Sum(held, PaidTo(a)) < Bytes.U64_LIMIT
    ensures var held := Listed(HeldBy(cfg.env, n.ledger, Record(cfg, n, evs).batches));
            BalanceOf(ReactAll(cfg, n, evs).ledger.chain, a) + Sum(held, DrawnFrom(a)) ==
            BalanceOf(n.ledger.chain, a) + Sum(held, PaidTo(a))
  {
    RunIsEpochs(cfg, n, evs);
    RecordIn(cfg, n, evs, all);
    BalanceIsHeld(cfg.env, n.ledger, Record(cfg, n, evs).batches, all, a);
  }

  // ---------- Turns ----------

  function Ticks(k: nat): (r: seq<Message>)
    ensures |r| == k && forall i :: 0 <= i < k ==> r[i] == Tick
  {
    seq(k, _ => Tick)
  }

  lemma {:induction false} TickTurn(cfg: Config, n: Node)
    requires |n.cons.validators| >= 2 && 0 < n.cons.round
    ensures var e, leader := OnTick(cfg, n), Leader(n.cons.validators, NextRound(n.cons.round));
            && e.node.cons.round == NextRound(n.cons.round) && e.node.cons.validators == n.cons.validators
            && e.node.cons.proposer == leader && (e.node.cons.isLeader <==> cfg.me == leader)
            && e.node.cons.phase == (if cfg.me == leader then Prevoting else WaitingForPropose)
            && e.node.ledger == n.ledger
            && e.sent == if cfg.me == leader
                         then [LeaderAnnouncement(leader.value, NextRound(n.cons.round)),
                               BlockProposal(cfg.me, ProposedBlock(cfg.env, n.ledger.chain, None, cfg.me))]
                         else []
  {
  }

  /** The state a number of ticks on. */
  ghost function AfterTicks(cfg: Config, n: Node, k: nat): ConsensusState {
    Run(cfg, n, Ticks(k)).node.cons
  }

  lemma {:induction false} RunTicks(cfg: Config, n: Node, k: nat) returns (before: Node)
    ensures before.cons == AfterTicks(cfg, n, k) && AfterTicks(cfg, n, k + 1) == OnTick(cfg, before).node.cons
  {
    before := Run(cfg, n, Ticks(k)).node;
    assert Ticks(k + 1)[..k] == Ticks(k);
  }

  /** The round `k` ticks on from `start`: it stays at zero once it gets there. */
  function TickedRound(start: Round, k: nat): Round {
    if start + k < ROUND_LIMIT then start + k else 0
  }

  /** The node names the leader of that round. */
  ghost predicate Rotated(cfg: Config, vs: set<PeerId>, round: Round, s: ConsensusState) {
    s.validators == vs && s.round == round && s.proposer == Leader(vs, round) && (s.isLeader <==> cfg.me == s.proposer)
  }

  lemma {:induction false} TickRotates(cfg: Config, n: Node)
    requires |n.cons.validators| >= 2
    requires n.cons.round > 0 || Rotated(cfg, n.cons.validators, 0, n.cons)
    ensures Rotated(cfg, n.cons.validators, if n.cons.round == 0 then 0 else NextRound(n.cons.round),
                    OnTick(cfg, n).node.cons)
  {
    if n.cons.round > 0 {
      TickTurn(cfg, n);
    }
  }

  /** The timer takes the validators in turn, the `k`-th tick naming the leader of
      the `k`-th round on, until the round number runs out: then the round is
      zero, where the timer does nothing. */
  lemma {:induction false} TicksRotate(cfg: Config, n: Node, k: nat)
    requires |n.cons.validators| >= 2 && 0 < n.cons.round && k > 0
    ensures Rotated(cfg, n.cons.validators, TickedRound(n.cons.round, k), AfterTicks(cfg, n, k))
  {
    var vs, start := n.cons.validators, n.cons.round;
    if k > 1 {
      TicksRotate(cfg, n, k - 1);
    } else {
      NoTicks(cfg, n);
    }
    var before := RunTicks(cfg, n, k - 1);
    TickRotates(cfg, before);
  }

  lemma {:induction false} NoTicks(cfg: Config, n: Node)
    ensures AfterTicks(cfg, n, 0) == n.cons
  {
    assert Ticks(0) == [];
  }

  /** So in as many ticks as there are validators each is proposer exactly once. */
  lemma {:induction false} TicksAreFair(cfg: Config, n: Node, v: PeerId) returns (k: nat)
    requires |n.cons.validators| >= 2 && 0 < n.cons.round && v in n.cons.validators
    requires n.cons.round + |n.cons.validators| < ROUND_LIMIT
    ensures 1 <= k <= |n.cons.validators|
    ensures forall j :: 1 <= j <= |n.cons.validators| ==>
              (AfterTicks(cfg, n, j).proposer == Some(v) <==> j == k)
  {
    var vs, first := n.cons.validators, n.cons.round + 1;
    assert Fair(vs, first) by {
      LeaderIsFair(vs, first);
    }
    var i: nat :| LeadsOnly(vs, first, v, i);
    k := i + 1;
    forall j | 1 <= j <= |vs|
      ensures AfterTicks(cfg, n, j).proposer == Some(v) <==> j == k
    {
      TickLeads(cfg, n, v, i, j);
    }
  }

  lemma {:induction false} TickLeads(cfg: Config, n: Node, v: PeerId, i: nat, j: nat)
    requires |n.cons.validators| >= 2 && 0 < n.cons.round && 1 <= j <= |n.cons.validators|
    requires n.cons.round + |n.cons.validators| < ROUND_LIMIT
    requires LeadsOnly(n.cons.validators, n.cons.round + 1, v, i)
    ensures AfterTicks(cfg, n, j).proposer == Some(v) <==> j == i + 1
  {
    TickProposer(cfg, n, j);
  }

  lemma {:induction false} SameRound(start: Round, j: nat)
    requires 1 <= j && start + j < ROUND_LIMIT
    ensures RoundAt(start + 1, j - 1) == TickedRound(start, j)
  {
    RoundAtIs(start + 1, j - 1);
  }

  lemma {:induction false} TickProposer(cfg: Config, n: Node, j: nat)
    requires |n.cons.validators| >= 2 && 0 < n.cons.round && 1 <= j && n.cons.round + j < ROUND_LIMIT
    ensures AfterTicks(cfg, n, j).proposer == Leader(n.cons.validators, RoundAt(n.cons.round + 1, j - 1))
  {
    var s := AfterTicks(cfg, n, j);
    assert Rotated(cfg, n.cons.validators, TickedRound(n.cons.round, j), s) by {
      TicksRotate(cfg, n, j);
    }
    SameRound(n.cons.round, j);
  }
}
