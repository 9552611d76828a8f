/** An undisturbed round, from the leader's timer to the last vote. */
module FullRound {
  import opened Prelude
  import opened Sorting
  import opened Protocol
  import opened Chain
  import opened Convergence
  import opened LeaderElection
  import opened Consensus
  import opened ConsensusLedger
  import opened Rounds
  import VoteNetwork

  /** Nodes about to go through a round, and its leader. */
  datatype Cluster = Cluster(configs: map<PeerId, Config>, nodes: map<PeerId, Node>, leader: PeerId, round: Round)

  ghost predicate Formed(c: Cluster) {
    c.configs.Keys == c.nodes.Keys && c.leader in c.nodes
  }

  /** The nodes are each other's validators, are at the same height, have the same
      transactions pending, and no votes; the leader's timer is due. */
  ghost predicate Ready(c: Cluster) {
    && Formed(c) && |c.nodes.Keys| >= 2
    && 0 < c.round < ROUND_LIMIT - 1 && Leader(c.nodes.Keys, c.round + 1) == Some(c.leader)
    && c.nodes[c.leader].cons.round == c.round
    && InjectiveOn(c.nodes[c.leader].ledger.chain.pending, c.configs[c.leader].env.id)
    && forall p :: p in c.nodes ==> Prepared(c, p)
  }

  ghost predicate Prepared(c: Cluster, p: PeerId)
    requires Formed(c) && p in c.nodes
  {
    var cfg, n, lead := c.configs[p], c.nodes[p], c.nodes[c.leader];
    && cfg.me == Some(p) && cfg.env == c.configs[c.leader].env
    && n.cons.validators == c.nodes.Keys && FreshRound(n.cons) && n.cons.round <= c.round + 1
    && n.ledger.chain.height == lead.ledger.chain.height
    && multiset(n.ledger.chain.pending) == multiset(lead.ledger.chain.pending)
  }

  /** A broadcast as it reaches the consensus of another node. */
  function Heard(from: PeerId, b: Broadcast): Message {
    match b
    case LeaderAnnouncement(leader, round) => HandleLeaderAnnouncement(Some(from), Some(leader), round)
    case CastVote(vote) => HandleVote(Some(from), vote)
    case BlockProposal(proposer, block) => HandleBlockProposal(proposer, Some(block))
  }

  function AllHeard(from: PeerId, bs: seq<Broadcast>): (r: seq<Message>)
    ensures |r| == |bs| && forall i :: 0 <= i < |bs| ==> r[i] == Heard(from, bs[i])
  {
    seq(|bs|, i requires 0 <= i < |bs| => Heard(from, bs[i]))
  }

  /** What a node gets before any vote: the leader its timer, the others what the
      leader broadcast on it. */
  ghost function Opening(c: Cluster, p: PeerId): seq<Message>
    requires Formed(c)
  {
    if p == c.leader then [Tick]
    else AllHeard(c.leader, OnTick(c.configs[c.leader], c.nodes[c.leader]).sent)
  }

  /** A node's round, given the votes that reach it. */
  ghost function Played(c: Cluster, p: PeerId, votes: seq<Message>): Effect
    requires Formed(c) && p in c.nodes
  {
    Run(c.configs[p], c.nodes[p], Opening(c, p) + votes)
  }

  ghost predicate Cast(sent: seq<Broadcast>, vote: Vote) {
    CastVote(vote) in sent
  }

  /** The votes that reach a node, in any order and with any repeats, are those
      that the others cast. A node does not hear itself. */
  ghost predicate HeardBy(votes: seq<Message>, cast: map<PeerId, seq<Broadcast>>, p: PeerId) {
    AllVotes(votes) && forall q, v :: HandleVote(Some(q), v) in votes <==> q in cast && q != p && Cast(cast[q], v)
  }

  ghost predicate Mutual(votes: map<PeerId, seq<Message>>, cast: map<PeerId, seq<Broadcast>>) {
    votes.Keys == cast.Keys && forall p :: p in votes ==> HeardBy(votes[p], cast, p)
  }

  ghost predicate AllVotes(msgs: seq<Message>) {
    forall i :: 0 <= i < |msgs| ==> msgs[i].HandleVote? && msgs[i].sender.Some?
  }

  /** Everything broadcast in the round has reached all others. */
  ghost predicate Exchanged(c: Cluster, votes: map<PeerId, seq<Message>>, cast: map<PeerId, seq<Broadcast>>)
    requires Formed(c)
  {
    && Mutual(votes, cast) && votes.Keys == c.nodes.Keys
    && forall p :: p in c.nodes ==> cast[p] == Played(c, p, votes[p]).sent
  }

  /** Who finalises: everybody if there are four or more, the follower of two, and
      nobody of three. */
  predicate Succeeds(c: Cluster, p: PeerId) {
    |c.nodes.Keys| >= 4 || (|c.nodes.Keys| == 2 && p != c.leader)
  }

  lemma {:induction false} RunSnoc(cfg: Config, n: Node, msgs: seq<Message>, msg: Message)
    ensures Run(cfg, n, msgs + [msg]) == Then(Run(cfg, n, msgs), Step(cfg, Run(cfg, n, msgs).node, msg))
  {
    assert (msgs + [msg])[..|msgs|] == msgs;
  }

  lemma {:induction false} ThenAssociates(e: Effect, f: Effect, g: Effect)
    ensures Then(Then(e, f), g) == Then(e, Then(f, g))
  {
  }

  lemma {:induction false} RunConcat(cfg: Config, n: Node, a: seq<Message>, b: seq<Message>)
    ensures Run(cfg, n, a + b) == Then(Run(cfg, n, a), Run(cfg, Run(cfg, n, a).node, b))
  {
    var e := Run(cfg, n, a);
    if b == [] {
      assert a + b == a && e.sent + [] == e.sent;
    } else {
      var k := |b| - 1;
      var f := Run(cfg, e.node, b[..k]);
      assert a + b == (a + b[..k]) + [b[k]] && b == b[..k] + [b[k]];
      RunConcat(cfg, n, a, b[..k]);
      RunSnoc(cfg, n, a + b[..k], b[k]);
      RunSnoc(cfg, e.node, b[..k], b[k]);
      ThenAssociates(e, f, Step(cfg, f.node, b[k]));
    }
  }

  lemma {:induction false} RunOne(cfg: Config, n: Node, msg: Message)
    ensures Run(cfg, n, [msg]) == Step(cfg, n, msg)
  {
    RunSnoc(cfg, n, [], msg);
    assert [] + [msg] == [msg];
    var e := Step(cfg, n, msg);
    assert [] + e.sent == e.sent;
  }

  lemma {:induction false} RunTwo(cfg: Config, n: Node, first: Message, second: Message)
    ensures Run(cfg, n, [first, second]) == Then(Step(cfg, n, first), Step(cfg, Step(cfg, n, first).node, second))
  {
    assert [first, second] == [first] + [second];
    RunConcat(cfg, n, [first], [second]);
    RunOne(cfg, n, first);
    RunOne(cfg, Step(cfg, n, first).node, second);
  }

  // ---------- The opening ----------

  ghost predicate CastsKind(sent: seq<Broadcast>, t: VoteType) {
    exists v :: Cast(sent, v) && v.voteType == t
  }

  /** What a node has done before the first vote reaches it. */
  ghost predicate OpenedWell(c: Cluster, p: PeerId, e: Effect)
    requires p in c.nodes
  {
    Opened(c.nodes[p], c.leader, c.round + 1, p, e) && e.node.cons.validators == c.nodes.Keys
  }

  ghost predicate Opened(n: Node, l: PeerId, round: int, p: PeerId, e: Effect) {
    var s := e.node.cons;
    && FreshRound(s) && s.validators == n.cons.validators && e.node.ledger == n.ledger && e.requests == 0
    && s.round == round && s.proposer == Some(l) && (s.isLeader <==> p == l)
    && (CastsKind(e.sent, Prevote) <==> p != l) && !CastsKind(e.sent, Precommit)
  }

  ghost function ProposalOf(c: Cluster): Block
    requires Formed(c)
  {
    ProposedBlock(c.configs[c.leader].env, c.nodes[c.leader].ledger.chain, None, Some(c.leader))
  }

  lemma {:induction false} TickClears(cfg: Config, n: Node)
    requires |n.cons.validators| >= 2 && 0 < n.cons.round
    ensures var e := OnTick(cfg, n);
            FreshRound(e.node.cons) && e.requests == 0 && e.node.cons.height == n.cons.height
  {
  }

  lemma {:induction false} LeaderTicks(cfg: Config, n: Node, l: PeerId)
    requires |n.cons.validators| >= 2 && 0 < n.cons.round < ROUND_LIMIT - 1 && cfg.me == Some(l)
    requires Leader(n.cons.validators, n.cons.round + 1) == Some(l)
    ensures var e := OnTick(cfg, n);
            && Opened(n, l, n.cons.round + 1, l, e)
            && e.sent == [LeaderAnnouncement(l, n.cons.round + 1),
                          BlockProposal(Some(l), ProposedBlock(cfg.env, n.ledger.chain, None, Some(l)))]
  {
    TickTurn(cfg, n);
    TickClears(cfg, n);
    NoVotes(LeaderAnnouncement(l, n.cons.round + 1),
            BlockProposal(Some(l), ProposedBlock(cfg.env, n.ledger.chain, None, Some(l))));
  }

  lemma {:induction false} LeaderOpens(c: Cluster)
    requires Ready(c)
    ensures var e := OnTick(c.configs[c.leader], c.nodes[c.leader]);
            && OpenedWell(c, c.leader, e)
            && e.sent == [LeaderAnnouncement(c.leader, c.round + 1), BlockProposal(Some(c.leader), ProposalOf(c))]
  {
    assert Prepared(c, c.leader);
    LeaderTicks(c.configs[c.leader], c.nodes[c.leader], c.leader);
  }

  lemma {:induction false} NoVotes(a: Broadcast, b: Broadcast)
    requires !a.CastVote? && !b.CastVote?
    ensures forall t :: !CastsKind([a, b], t)
  {
  }

  lemma {:induction false} OneVote(v: Vote)
    ensures forall t :: CastsKind([CastVote(v)], t) <==> t == v.voteType
  {
    assert Cast([CastVote(v)], v);
  }

  lemma {:induction false} AnnouncementHeard(cfg: Config, n: Node, l: PeerId, r: Round)
    requires n.cons.round <= r
    ensures var e := Step(cfg, n, HandleLeaderAnnouncement(Some(l), Some(l), r));
            && e.sent == [] && e.requests == 0 && e.node.ledger == n.ledger
            && e.node.cons == n.cons.(round := r, proposer := Some(l), isLeader := cfg.me == Some(l),
                                      phase := WaitingForPropose)
  {
  }

  lemma {:induction false} ProposalHeard(cfg: Config, n: Node, lead: Node, l: PeerId)
    requires InjectiveOn(lead.ledger.chain.pending, cfg.env.id) && n.cons.proposer == Some(l)
    requires n.ledger.chain.height == lead.ledger.chain.height
    requires multiset(n.ledger.chain.pending) == multiset(lead.ledger.chain.pending)
    ensures var b := ProposedBlock(cfg.env, lead.ledger.chain, None, Some(l));
            var e := Step(cfg, n, HandleBlockProposal(Some(l), Some(b)));
            && e.node == n && e.requests == 0
            && e.sent == [CastVote(Vote(n.cons.round, n.cons.height, HashOf(b), cfg.me, Prevote))]
  {
    VoteNetwork.PrevoteMeansSamePool(cfg, n, lead, l);
  }

  lemma {:induction false} FollowerHears(cfg: Config, n: Node, lead: Node, l: PeerId, round: Round, p: PeerId, b: Block)
    requires n.cons.round <= round && FreshRound(n.cons) && cfg.me == Some(p) && p != l
    requires InjectiveOn(lead.ledger.chain.pending, cfg.env.id)
    requires n.ledger.chain.height == lead.ledger.chain.height
    requires multiset(n.ledger.chain.pending) == multiset(lead.ledger.chain.pending)
    requires b == ProposedBlock(cfg.env, lead.ledger.chain, None, Some(l))
    ensures Opened(n, l, round, p, Run(cfg, n, [HandleLeaderAnnouncement(Some(l), Some(l), round),
                                                HandleBlockProposal(Some(l), Some(b))]))
  {
    var first, second := HandleLeaderAnnouncement(Some(l), Some(l), round), HandleBlockProposal(Some(l), Some(b));
    RunTwo(cfg, n, first, second);
    AnnouncementHeard(cfg, n, l, round);
    var mid := Step(cfg, n, first).node;
    ProposalHeard(cfg, mid, lead, l);
    var vote := Vote(round, mid.cons.height, HashOf(b), cfg.me, Prevote);
    assert [] + [CastVote(vote)] == [CastVote(vote)];
    OneVote(vote);
  }

  lemma {:induction false} LeaderSends(c: Cluster)
    requires Ready(c)
    ensures OnTick(c.configs[c.leader], c.nodes[c.leader]).sent ==
            [LeaderAnnouncement(c.leader, c.round + 1), BlockProposal(Some(c.leader), ProposalOf(c))]
  {
    LeaderOpens(c);
  }

  lemma {:induction false} HeardTwo(from: PeerId, a: Broadcast, b: Broadcast)
    ensures AllHeard(from, [a, b]) == [Heard(from, a), Heard(from, b)]
  {
  }

  lemma {:induction false} FollowerOpening(c: Cluster, p: PeerId)
    requires Ready(c) && p != c.leader
    ensures Opening(c, p) == [HandleLeaderAnnouncement(Some(c.leader), Some(c.leader), c.round + 1),
                              HandleBlockProposal(Some(c.leader), Some(ProposalOf(c)))]
  {
    LeaderSends(c);
    OpeningFrom(c, p, ProposalOf(c));
  }

  lemma {:induction false} OpeningFrom(c: Cluster, p: PeerId, b: Block)
    requires Formed(c) && p != c.leader && c.round + 1 < ROUND_LIMIT
    requires OnTick(c.configs[c.leader], c.nodes[c.leader]).sent ==
             [LeaderAnnouncement(c.leader, c.round + 1), BlockProposal(Some(c.leader), b)]
    ensures Opening(c, p) == [HandleLeaderAnnouncement(Some(c.leader), Some(c.leader), c.round + 1),
                              HandleBlockProposal(Some(c.leader), Some(b))]
  {
    HeardTwo(c.leader, LeaderAnnouncement(c.leader, c.round + 1), BlockProposal(Some(c.leader), b));
  }

  lemma {:induction false} FollowerOpens(c: Cluster, p: PeerId)
    requires Ready(c) && p in c.nodes && p != c.leader
    ensures OpenedWell(c, p, Run(c.configs[p], c.nodes[p], Opening(c, p)))
  {
    assert Prepared(c, p);
    FollowerOpening(c, p);
    FollowerHears(c.configs[p], c.nodes[p], c.nodes[c.leader], c.leader, c.round + 1, p, ProposalOf(c));
  }

  lemma {:induction false} Opens(c: Cluster, p: PeerId)
    requires Ready(c) && p in c.nodes
    ensures OpenedWell(c, p, Run(c.configs[p], c.nodes[p], Opening(c, p)))
  {
    if p == c.leader {
      LeaderOpens(c);
      TickIs(c.configs[p], c.nodes[p]);
      assert Opening(c, p) == [Tick];
    } else {
      FollowerOpens(c, p);
    }
  }

  // ---------- The votes ----------

  ghost predicate OnlyPrecommits(sent: seq<Broadcast>) {
    forall i :: 0 <= i < |sent| ==> sent[i].CastVote? && sent[i].vote.voteType == Precommit
  }

  lemma {:induction false} VoteSends(cfg: Config, n: Node, msg: Message)
    requires msg.HandleVote?
    ensures OnlyPrecommits(Step(cfg, n, msg).sent)
  {
  }

  /** Votes are answered by precommits only. */
  lemma {:induction false} VotesBringPrecommits(cfg: Config, n: Node, msgs: seq<Message>)
    requires AllVotes(msgs)
    ensures var e := Run(cfg, n, msgs);
            && OnlyPrecommits(e.sent) && e.node.cons.round == n.cons.round && e.node.cons.proposer == n.cons.proposer
            && e.node.cons.isLeader == n.cons.isLeader
  {
    if msgs != [] {
      var k := |msgs| - 1;
      var before := Run(cfg, n, msgs[..k]).node;
      VotesBringPrecommits(cfg, n, msgs[..k]);
      VoteSends(cfg, before, msgs[k]);
      if msgs[k].sender.Some? {
        VoteKeepsLeader(cfg, before, msgs[k].sender.value, msgs[k].vote);
      }
    }
  }

  /** The ledger moves with the request for a finalisation, and only then. */
  lemma {:induction false} VotesLedger(cfg: Config, n: Node, msgs: seq<Message>)
    requires AllVotes(msgs) && !n.cons.blockFinalized
    ensures var e := Run(cfg, n, msgs);
            && e.requests == Pending(e.node.cons)
            && e.node.ledger == if e.requests == 0 then n.ledger else Epoch(cfg.env, n.ledger, Batch([], cfg.me))
  {
    if msgs != [] {
      var k := |msgs| - 1;
      VotesLedger(cfg, n, msgs[..k]);
      var before := Run(cfg, n, msgs[..k]).node;
      LedgerStep(cfg, before, msgs[k]);
      FinalizingRequests(cfg, before, msgs[k]);
    }
  }

  lemma {:induction false} FinalizingRequests(cfg: Config, n: Node, msg: Message)
    requires msg.HandleVote?
    ensures var e := Step(cfg, n, msg);
            && e.requests == (if Finalizing(n, msg) then 1 else 0)
            && (e.node.cons.blockFinalized <==> n.cons.blockFinalized || Finalizing(n, msg))
  {
    if msg.sender.Some? && msg.sender.value in n.cons.validators && msg.vote.voteType.Precommit? {
      var p := msg.sender.value;
      PrecommitShape(cfg, n, p);
      assert p !in n.cons.precommits ==> |n.cons.precommits + {p}| == |n.cons.precommits| + 1;
    }
  }

  lemma {:induction false} PrecommitsSentIff(sent: seq<Broadcast>)
    ensures PrecommitsSent(sent) > 0 <==> CastsKind(sent, Precommit)
  {
    if sent != [] {
      var k := |sent| - 1;
      PrecommitsSentIff(sent[..k]);
      assert sent == sent[..k] + [sent[k]];
      CastsConcat(sent[..k], [sent[k]], Precommit);
      assert sent[k].CastVote? ==> Cast([sent[k]], sent[k].vote);
    }
  }

  lemma {:induction false} CastsConcat(a: seq<Broadcast>, b: seq<Broadcast>, t: VoteType)
    ensures CastsKind(a + b, t) <==> CastsKind(a, t) || CastsKind(b, t)
  {
    if CastsKind(a, t) {
      var v :| Cast(a, v) && v.voteType == t;
      assert Cast(a + b, v);
    }
    if CastsKind(b, t) {
      var v :| Cast(b, v) && v.voteType == t;
      assert Cast(a + b, v);
    }
    if CastsKind(a + b, t) {
      var v :| Cast(a + b, v) && v.voteType == t;
      assert Cast(a, v) || Cast(b, v);
    }
  }

  lemma {:induction false} PlayedCasts(c: Cluster, p: PeerId, votes: seq<Message>)
    requires Ready(c) && p in c.nodes && AllVotes(votes)
    ensures CastsWell(c.nodes.Keys, c.leader, p, votes, Played(c, p, votes).sent)
  {
    var cfg, vs := c.configs[p], c.nodes.Keys;
    var e := Run(cfg, c.nodes[p], Opening(c, p));
    var f := Run(cfg, e.node, votes);
    Opens(c, p);
    RunConcat(cfg, c.nodes[p], Opening(c, p), votes);
    VotesBringPrecommits(cfg, e.node, votes);
    RoundDependsOnVoters(cfg, e.node, votes);
    PrecommitsSentIff(f.sent);
    CastsConcat(e.sent, f.sent, Prevote);
    CastsConcat(e.sent, f.sent, Precommit);
  }

  /** What comes of it. */
  lemma {:induction false} PlayedResult(c: Cluster, p: PeerId, votes: seq<Message>)
    requires Ready(c) && p in c.nodes && AllVotes(votes)
    ensures var e, vs, l := Played(c, p, votes), c.nodes.Keys, c.nodes[p].ledger;
            && e.requests == (if |Voters(vs, votes, Precommit)| >= Quorum(|vs|) then 1 else 0)
            && e.node.ledger == (if e.requests == 0 then l else Epoch(c.configs[p].env, l, Batch([], Some(p))))
            && e.node.cons.round == c.round + 1 && e.node.cons.proposer == Some(c.leader)
            && (e.node.cons.isLeader <==> p == c.leader)
  {
    assert c.configs[p].me == Some(p) by {
      assert Prepared(c, p);
    }
    Opens(c, p);
    OpenedResult(c.configs[p], c.nodes[p], Opening(c, p), votes, c.leader, c.round + 1, p);
  }

  lemma {:induction false} OpenedResult(cfg: Config, n: Node, opening: seq<Message>, votes: seq<Message>, l: PeerId,
                                        round: int, p: PeerId)
    requires Opened(n, l, round, p, Run(cfg, n, opening)) && AllVotes(votes)
    ensures var e, vs := Run(cfg, n, opening + votes), n.cons.validators;
            && e.requests == (if |Voters(vs, votes, Precommit)| >= Quorum(|vs|) then 1 else 0)
            && e.node.ledger == (if e.requests == 0 then n.ledger else Epoch(cfg.env, n.ledger, Batch([], cfg.me)))
            && e.node.cons.round == round && e.node.cons.proposer == Some(l)
            && (e.node.cons.isLeader <==> p == l)
  {
    RunConcat(cfg, n, opening, votes);
    VotesResult(cfg, Run(cfg, n, opening).node, votes);
  }

  lemma {:induction false} VotesResult(cfg: Config, n: Node, votes: seq<Message>)
    requires AllVotes(votes) && FreshRound(n.cons)
    ensures var e, vs := Run(cfg, n, votes), n.cons.validators;
            && e.requests == (if |Voters(vs, votes, Precommit)| >= Quorum(|vs|) then 1 else 0)
            && e.node.ledger == (if e.requests == 0 then n.ledger else Epoch(cfg.env, n.ledger, Batch([], cfg.me)))
            && e.node.cons.round == n.cons.round && e.node.cons.proposer == n.cons.proposer
            && e.node.cons.isLeader == n.cons.isLeader
  {
    VotesBringPrecommits(cfg, n, votes);
    RoundDependsOnVoters(cfg, n, votes);
    VotesLedger(cfg, n, votes);
  }

  // ---------- The exchange ----------

  /** Who casts a vote of a kind. */
  ghost function Casters(cast: map<PeerId, seq<Broadcast>>, t: VoteType): set<PeerId> {
    set q | q in cast && CastsKind(cast[q], t)
  }

  lemma {:induction false} HeardVoters(votes: map<PeerId, seq<Message>>, cast: map<PeerId, seq<Broadcast>>, p: PeerId,
                                       t: VoteType)
    requires Mutual(votes, cast) && p in votes
    ensures Voters(votes.Keys, votes[p], t) == Casters(cast, t) - {p}
  {
    forall q | q in votes
      ensures HasVoted(votes[p], q, t) <==> q != p && CastsKind(cast[q], t)
    {
      if HasVoted(votes[p], q, t) {
        var i :| && 0 <= i < |votes[p]| && votes[p][i].HandleVote? && votes[p][i].sender == Some(q)
                 && votes[p][i].vote.voteType == t;
        assert votes[p][i] == HandleVote(Some(q), votes[p][i].vote);
        assert Cast(cast[q], votes[p][i].vote);
      }
      if q != p && CastsKind(cast[q], t) {
        var v :| Cast(cast[q], v) && v.voteType == t;
        assert HandleVote(Some(q), v) in votes[p];
      }
    }
  }

  /** What a node casts in its round: a prevote unless it leads, and a precommit
      if enough prevotes reach it. */
  ghost predicate CastsWell(vs: set<PeerId>, l: PeerId, p: PeerId, votes: seq<Message>, sent: seq<Broadcast>) {
    && (CastsKind(sent, Prevote) <==> p != l)
    && (CastsKind(sent, Precommit) <==> |Voters(vs, votes, Prevote)| >= Quorum(|vs|))
  }

  lemma {:induction false} Prevoters(vs: set<PeerId>, l: PeerId, votes: map<PeerId, seq<Message>>,
                                     cast: map<PeerId, seq<Broadcast>>)
    requires vs == votes.Keys == cast.Keys && forall p :: p in vs ==> CastsWell(vs, l, p, votes[p], cast[p])
    ensures Casters(cast, Prevote) == vs - {l}
  {
  }

  lemma {:induction false} PrevotesHeard(vs: set<PeerId>, l: PeerId, p: PeerId)
    requires |vs| >= 2 && l in vs && p in vs
    ensures |vs - {l} - {p}| >= Quorum(|vs|) <==> p == l || |vs| >= 4
  {
    assert vs - {l} - {l} == vs - {l};
    assert p != l ==> |vs - {l} - {p}| == |vs| - 2;
  }

  lemma {:induction false} PrecommitterIs(vs: set<PeerId>, l: PeerId, votes: map<PeerId, seq<Message>>,
                                          cast: map<PeerId, seq<Broadcast>>, q: PeerId)
    requires Mutual(votes, cast) && vs == votes.Keys && |vs| >= 2 && l in vs && q in vs
    requires Casters(cast, Prevote) == vs - {l} && CastsWell(vs, l, q, votes[q], cast[q])
    ensures CastsKind(cast[q], Precommit) <==> q == l || |vs| >= 4
  {
    HeardVoters(votes, cast, q, Prevote);
    PrevotesHeard(vs, l, q);
  }

  /** Everybody precommits if there are four or more, else only the leader. */
  lemma {:induction false} Precommitters(vs: set<PeerId>, l: PeerId, votes: map<PeerId, seq<Message>>,
                                         cast: map<PeerId, seq<Broadcast>>)
    requires Mutual(votes, cast) && vs == votes.Keys && |vs| >= 2 && l in vs
    requires forall p :: p in vs ==> CastsWell(vs, l, p, votes[p], cast[p])
    ensures Casters(cast, Precommit) == if |vs| >= 4 then vs else {l}
  {
    var who := if |vs| >= 4 then vs else {l};
    assert Casters(cast, Prevote) == vs - {l} by {
      Prevoters(vs, l, votes, cast);
    }
    forall q | q in vs
      ensures CastsKind(cast[q], Precommit) <==> q in who
    {
      assert CastsWell(vs, l, q, votes[q], cast[q]);
      PrecommitterIs(vs, l, votes, cast, q);
    }
    CastersAre(cast, Precommit, who);
  }

  lemma {:induction false} CastersAre(cast: map<PeerId, seq<Broadcast>>, t: VoteType, who: set<PeerId>)
    requires who <= cast.Keys && forall q :: q in cast ==> (CastsKind(cast[q], t) <==> q in who)
    ensures Casters(cast, t) == who
  {
  }

  lemma {:induction false} PrecommitsHeard(vs: set<PeerId>, l: PeerId, p: PeerId)
    requires |vs| >= 2 && l in vs && p in vs
    ensures |(if |vs| >= 4 then vs else {l}) - {p}| >= Quorum(|vs|) <==> |vs| >= 4 || (|vs| == 2 && p != l)
  {
    assert {l} - {p} == if p == l then {} else {l};
  }

  /** An undisturbed round, from the leader's timer to the last vote: if there are
      four or more validators, every node finalises the block of what is pending,
      exactly once. Of two only the follower does, and of three nobody, since
      a node does not count its own vote. */
  lemma {:induction false} RoundFinalizes(c: Cluster, votes: map<PeerId, seq<Message>>,
                                          cast: map<PeerId, seq<Broadcast>>, p: PeerId)
    requires Ready(c) && Exchanged(c, votes, cast) && p in c.nodes
    ensures var e, l := Played(c, p, votes[p]), c.nodes[p].ledger;
            && e.requests == (if Succeeds(c, p) then 1 else 0)
            && e.node.ledger == (if Succeeds(c, p) then Epoch(c.configs[p].env, l, Batch([], Some(p))) else l)
            && e.node.cons.round == c.round + 1 && e.node.cons.proposer == Some(c.leader)
            && (e.node.cons.isLeader <==> p == c.leader)
  {
    PlayedResult(c, p, votes[p]);
    forall q | q in c.nodes
      ensures CastsWell(c.nodes.Keys, c.leader, q, votes[q], cast[q])
    {
      PlayedCasts(c, q, votes[q]);
    }
    HeardVoters(votes, cast, p, Precommit);
    Precommitters(c.nodes.Keys, c.leader, votes, cast);
    PrecommitsHeard(c.nodes.Keys, c.leader, p);
  }

  lemma {:induction false} EpochAlike(env: ChainEnv, l1: Ledger, l2: Ledger, p: PeerId, q: PeerId,
                                      all: seq<Transaction>)
    requires Settled(l1) && Settled(l2) && SamePool(l1.chain.pending, l2.chain.pending)
    requires l1.chain.accounts == l2.chain.accounts && l1.chain.height == l2.chain.height
    requires Universe(env, all) && AllIn(l1.chain.pending, all)
    ensures var c1, c2 := Epoch(env, l1, Batch([], Some(p))).chain, Epoch(env, l2, Batch([], Some(q))).chain;
            c1.accounts == c2.accounts && c1.height == c2.height
  {
    var b1, b2 := [Batch([], Some(p))], [Batch([], Some(q))];
    FreshReplicasConverge(env, l1, l2, b1, b2, all);
    EpochsOfOne(env, l1, b1[0]);
    EpochsOfOne(env, l2, b2[0]);
  }

  lemma {:induction false} EpochsOfOne(env: ChainEnv, l: Ledger, b: Batch)
    ensures Epochs(env, l, [b]) == Epoch(env, l, b)
  {
    assert [b][1..] == [];
  }

  /** And then all of them hold the same accounts at the same height. */
  lemma {:induction false} RoundAgrees(c: Cluster, votes: map<PeerId, seq<Message>>,
                                       cast: map<PeerId, seq<Broadcast>>, p: PeerId, q: PeerId, all: seq<Transaction>)
    requires Ready(c) && Exchanged(c, votes, cast) && p in c.nodes && q in c.nodes && |c.nodes.Keys| >= 4
    requires Universe(c.configs[p].env, all)
    requires var l1, l2 := c.nodes[p].ledger, c.nodes[q].ledger;
             && Settled(l1) && Settled(l2) && SamePool(l1.chain.pending, l2.chain.pending)
             && AllIn(l1.chain.pending, all) && l1.chain.accounts == l2.chain.accounts
    ensures var c1, c2 := Played(c, p, votes[p]).node.ledger.chain, Played(c, q, votes[q]).node.ledger.chain;
            c1.accounts == c2.accounts && c1.height == c2.height
  {
    assert Prepared(c, p) && Prepared(c, q);
    RoundFinalizes(c, votes, cast, p);
    RoundFinalizes(c, votes, cast, q);
    EpochAlike(c.configs[p].env, c.nodes[p].ledger, c.nodes[q].ledger, p, q, all);
  }

  // ---------- What the votes say ----------

  ghost predicate HasHash(msgs: seq<Message>, hash: BlockHash) {
    exists i :: && 0 <= i < |msgs| && msgs[i].HandleVote? && msgs[i].vote.voteType == Prevote
                && msgs[i].vote.blockHash == hash
  }

  /** A precommit of this node, in its round, for a block that a prevote named. */
  ghost predicate Echoes(cfg: Config, round: Round, msgs: seq<Message>, b: Broadcast) {
    && b.CastVote? && b.vote.voteType == Precommit && b.vote.round == round && b.vote.voter == cfg.me
    && HasHash(msgs, b.vote.blockHash)
  }

  lemma {:induction false} HasHashSnoc(msgs: seq<Message>, msg: Message, hash: BlockHash)
    requires HasHash(msgs, hash) || (msg.HandleVote? && msg.vote.voteType == Prevote && msg.vote.blockHash == hash)
    ensures HasHash(msgs + [msg], hash)
  {
    var all := msgs + [msg];
    if HasHash(msgs, hash) {
      var i :| && 0 <= i < |msgs| && msgs[i].HandleVote? && msgs[i].vote.voteType == Prevote
               && msgs[i].vote.blockHash == hash;
      assert all[i] == msgs[i];
    } else {
      assert all[|msgs|] == msg;
    }
  }

  lemma {:induction false} VoteEchoes(cfg: Config, n: Node, msg: Message, i: nat)
    requires msg.HandleVote? && i < |Step(cfg, n, msg).sent|
    ensures var b := Step(cfg, n, msg).sent[i];
            && msg.vote.voteType == Prevote
            && b == CastVote(Vote(n.cons.round, n.cons.height, msg.vote.blockHash, cfg.me, Precommit))
  {
  }

  lemma {:induction false} VotesEcho(cfg: Config, n: Node, msgs: seq<Message>)
    requires AllVotes(msgs)
    ensures var sent := Run(cfg, n, msgs).sent;
            forall i :: 0 <= i < |sent| ==> Echoes(cfg, n.cons.round, msgs, sent[i])
  {
    if msgs != [] {
      var k := |msgs| - 1;
      var init, msg := msgs[..k], msgs[k];
      assert msgs == init + [msg];
      VotesEcho(cfg, n, init);
      VotesBringPrecommits(cfg, n, init);
      var e := Run(cfg, n, init);
      RunSnoc(cfg, n, init, msg);
      var sent := e.sent + Step(cfg, e.node, msg).sent;
      forall i | 0 <= i < |sent|
        ensures Echoes(cfg, n.cons.round, msgs, sent[i])
      {
        if i < |e.sent| {
          HasHashSnoc(init, msg, sent[i].vote.blockHash);
        } else {
          VoteEchoes(cfg, e.node, msg, i - |e.sent|);
          HasHashSnoc(init, msg, sent[i].vote.blockHash);
        }
      }
    }
  }

  function Prevoted(c: Cluster, p: PeerId, b: Block): Vote
    requires p in c.nodes && c.round + 1 < ROUND_LIMIT
  {
    Vote(c.round + 1, c.nodes[p].cons.height, HashOf(b), Some(p), Prevote)
  }

  lemma {:induction false} FollowerSends(cfg: Config, n: Node, lead: Node, l: PeerId, round: Round, b: Block)
    requires n.cons.round <= round && InjectiveOn(lead.ledger.chain.pending, cfg.env.id)
    requires n.ledger.chain.height == lead.ledger.chain.height
    requires multiset(n.ledger.chain.pending) == multiset(lead.ledger.chain.pending)
    requires b == ProposedBlock(cfg.env, lead.ledger.chain, None, Some(l))
    ensures var e := Run(cfg, n, [HandleLeaderAnnouncement(Some(l), Some(l), round),
                                  HandleBlockProposal(Some(l), Some(b))]);
            e.sent == [CastVote(Vote(round, n.cons.height, HashOf(b), cfg.me, Prevote))]
            && e.node.cons.height == n.cons.height
  {
    var first, second := HandleLeaderAnnouncement(Some(l), Some(l), round), HandleBlockProposal(Some(l), Some(b));
    RunTwo(cfg, n, first, second);
    AnnouncementHeard(cfg, n, l, round);
    var mid := Step(cfg, n, first).node;
    ProposalHeard(cfg, mid, lead, l);
    var vote := Vote(round, mid.cons.height, HashOf(b), cfg.me, Prevote);
    assert [] + [CastVote(vote)] == [CastVote(vote)];
  }

  /** The one vote cast before any is heard. */
  lemma {:induction false} OpeningCasts(c: Cluster, p: PeerId, v: Vote)
    requires Ready(c) && p in c.nodes
    ensures var e := Run(c.configs[p], c.nodes[p], Opening(c, p));
            && (Cast(e.sent, v) <==> p != c.leader && v == Prevoted(c, p, ProposalOf(c)))
            && e.node.cons.height == c.nodes[p].cons.height
  {
    if p == c.leader {
      LeaderCasts(c, v);
    } else {
      FollowerCasts(c, p, v);
    }
  }

  lemma {:induction false} FollowerCasts(c: Cluster, p: PeerId, v: Vote)
    requires Ready(c) && p in c.nodes && p != c.leader
    ensures var e := Run(c.configs[p], c.nodes[p], Opening(c, p));
            && (Cast(e.sent, v) <==> v == Prevoted(c, p, ProposalOf(c)))
            && e.node.cons.height == c.nodes[p].cons.height
  {
    FollowerOpening(c, p);
    FollowerVotes(c, p);
    OneCast(Prevoted(c, p, ProposalOf(c)), v);
  }

  lemma {:induction false} OneCast(w: Vote, v: Vote)
    ensures Cast([CastVote(w)], v) <==> v == w
  {
  }

  lemma {:induction false} FollowerVotes(c: Cluster, p: PeerId)
    requires Ready(c) && p in c.nodes && p != c.leader
    ensures var e := Run(c.configs[p], c.nodes[p],
                         [HandleLeaderAnnouncement(Some(c.leader), Some(c.leader), c.round + 1),
                          HandleBlockProposal(Some(c.leader), Some(ProposalOf(c)))]);
            && e.sent == [CastVote(Prevoted(c, p, ProposalOf(c)))] && e.node.cons.height == c.nodes[p].cons.height
  {
    LikeTheLeader(c, p, ProposalOf(c));
    FollowerSends(c.configs[p], c.nodes[p], c.nodes[c.leader], c.leader, c.round + 1, ProposalOf(c));
  }

  lemma {:induction false} LikeTheLeader(c: Cluster, p: PeerId, b: Block)
    requires Ready(c) && p in c.nodes && b == ProposalOf(c)
    ensures var cfg, n, lead := c.configs[p], c.nodes[p], c.nodes[c.leader];
            && cfg.me == Some(p) && n.cons.round <= c.round + 1
            && InjectiveOn(lead.ledger.chain.pending, cfg.env.id)
            && n.ledger.chain.height == lead.ledger.chain.height
            && multiset(n.ledger.chain.pending) == multiset(lead.ledger.chain.pending)
            && b == ProposedBlock(cfg.env, lead.ledger.chain, None, Some(c.leader))
  {
    assert Prepared(c, p);
  }

  lemma {:induction false} LeaderCasts(c: Cluster, v: Vote)
    requires Ready(c)
    ensures var e := Run(c.configs[c.leader], c.nodes[c.leader], Opening(c, c.leader));
            !Cast(e.sent, v) && e.node.cons.height == c.nodes[c.leader].cons.height
  {
    TickIs(c.configs[c.leader], c.nodes[c.leader]);
    LeaderSends(c);
    NeitherCasts(LeaderAnnouncement(c.leader, c.round + 1), BlockProposal(Some(c.leader), ProposalOf(c)), v);
    assert c.nodes[c.leader].cons.validators == c.nodes.Keys by {
      assert Prepared(c, c.leader);
    }
    TickClears(c.configs[c.leader], c.nodes[c.leader]);
  }

  lemma {:induction false} NeitherCasts(a: Broadcast, b: Broadcast, v: Vote)
    requires !a.CastVote? && !b.CastVote?
    ensures !Cast([a, b], v)
  {
  }

  lemma {:induction false} TickIs(cfg: Config, n: Node)
    ensures Run(cfg, n, [Tick]) == OnTick(cfg, n)
  {
    RunOne(cfg, n, Tick);
  }

  lemma {:induction false} CastSplit(a: seq<Broadcast>, b: seq<Broadcast>, v: Vote)
    ensures Cast(a + b, v) <==> Cast(a, v) || Cast(b, v)
  {
  }

  /** A node's votes: the prevote of its opening, and precommits that echo. */
  lemma {:induction false} PlayedVotes(c: Cluster, p: PeerId, votes: seq<Message>, v: Vote)
    requires Ready(c) && p in c.nodes && AllVotes(votes) && Cast(Played(c, p, votes).sent, v)
    ensures if v.voteType.Prevote? then p != c.leader && v == Prevoted(c, p, ProposalOf(c))
            else v.round == c.round + 1 && v.voter == Some(p) && HasHash(votes, v.blockHash)
  {
    var cfg := c.configs[p];
    var e := Run(cfg, c.nodes[p], Opening(c, p));
    var f := Run(cfg, e.node, votes);
    assert Prepared(c, p);
    assert e.node.cons.round == c.round + 1 by {
      Opens(c, p);
    }
    RunConcat(cfg, c.nodes[p], Opening(c, p), votes);
    CastSplit(e.sent, f.sent, v);
    OpeningCasts(c, p, v);
    VotesEcho(cfg, e.node, votes);
  }

  /** Who cast a prevote that a node heard. */
  lemma {:induction false} HeardPrevote(votes: seq<Message>, cast: map<PeerId, seq<Broadcast>>, p: PeerId,
                                        hash: BlockHash) returns (q: PeerId, u: Vote)
    requires HeardBy(votes, cast, p) && HasHash(votes, hash)
    ensures q in cast && Cast(cast[q], u) && u.voteType == Prevote && u.blockHash == hash
  {
    var i :| && 0 <= i < |votes| && votes[i].HandleVote? && votes[i].vote.voteType == Prevote
             && votes[i].vote.blockHash == hash;
    q, u := votes[i].sender.value, votes[i].vote;
    assert votes[i] == HandleVote(Some(q), u);
  }

  /** The prevotes that a node hears name that block. */
  lemma {:induction false} HeardHash(c: Cluster, votes: map<PeerId, seq<Message>>, cast: map<PeerId, seq<Broadcast>>,
                                     p: PeerId, hash: BlockHash)
    requires Ready(c) && Exchanged(c, votes, cast) && p in c.nodes && HasHash(votes[p], hash)
    ensures hash == HashOf(ProposalOf(c))
  {
    assert HeardBy(votes[p], cast, p);
    var q, u := HeardPrevote(votes[p], cast, p, hash);
    assert HeardBy(votes[q], cast, q);
    PlayedVotes(c, q, votes[q], u);
  }

  /** Every vote of the round is for it, in the voter's name, and names the block
      the leader proposed. */
  lemma {:induction false} VotesNameTheBlock(c: Cluster, votes: map<PeerId, seq<Message>>,
                                             cast: map<PeerId, seq<Broadcast>>, p: PeerId, v: Vote)
    requires Ready(c) && Exchanged(c, votes, cast) && p in c.nodes && Cast(cast[p], v)
    ensures v.round == c.round + 1 && v.voter == Some(p) && v.blockHash == HashOf(ProposalOf(c))
    ensures v.voteType.Prevote? ==> v.height == c.nodes[p].cons.height
  {
    assert AllVotes(votes[p]);
    PlayedVotes(c, p, votes[p], v);
    if v.voteType.Precommit? {
      HeardHash(c, votes, cast, p, v.blockHash);
    }
  }

  // ---------- Such rounds exist ----------

  ghost function VoteOf(c: Cluster, hash: BlockHash, p: PeerId, t: VoteType): Vote
    requires p in c.nodes && c.round + 1 < ROUND_LIMIT
  {
    Vote(c.round + 1, c.nodes[p].cons.height, hash, Some(p), t)
  }

  ghost function BallotsOf(c: Cluster, hash: BlockHash, voters: set<PeerId>, t: VoteType): (r: seq<Message>)
    requires c.round + 1 < ROUND_LIMIT && voters <= c.nodes.Keys
    ensures AllVotes(r) && forall i :: 0 <= i < |r| ==> r[i].vote.voteType == t
  {
    var s := Ordered(voters);
    seq(|s|, i requires 0 <= i < |s| => assert s[i] in voters; HandleVote(Some(s[i]), VoteOf(c, hash, s[i], t)))
  }

  lemma {:induction false} BallotsOfSay(c: Cluster, hash: BlockHash, voters: set<PeerId>, t: VoteType, q: PeerId,
                                        v: Vote)
    requires c.round + 1 < ROUND_LIMIT && voters <= c.nodes.Keys
    ensures HandleVote(Some(q), v) in BallotsOf(c, hash, voters, t) <==> q in voters && v == VoteOf(c, hash, q, t)
  {
    var s, r := Ordered(voters), BallotsOf(c, hash, voters, t);
    if q in voters && v == VoteOf(c, hash, q, t) {
      var i :| 0 <= i < |s| && s[i] == q;
      assert r[i] == HandleVote(Some(q), v);
    }
    if HandleVote(Some(q), v) in r {
      var i :| 0 <= i < |r| && r[i] == HandleVote(Some(q), v);
      assert s[i] == q;
    }
  }

  ghost function Committers(c: Cluster): set<PeerId> {
    if |c.nodes.Keys| >= 4 then c.nodes.Keys else {c.leader}
  }

  /** The votes that reach a node, the prevotes first. */
  ghost function Ballots(c: Cluster, hash: BlockHash, p: PeerId): (r: seq<Message>)
    requires c.round + 1 < ROUND_LIMIT && c.leader in c.nodes
    ensures AllVotes(r)
  {
    BallotsOf(c, hash, c.nodes.Keys - {c.leader} - {p}, Prevote) + BallotsOf(c, hash, Committers(c) - {p}, Precommit)
  }

  ghost predicate SentAt(sent: seq<Broadcast>, height: nat) {
    forall i :: 0 <= i < |sent| && sent[i].CastVote? ==> sent[i].vote.height == height
  }

  lemma {:induction false} PrevotesKeepHeight(cfg: Config, n: Node, msgs: seq<Message>)
    requires AllVotes(msgs) && forall i :: 0 <= i < |msgs| ==> msgs[i].vote.voteType == Prevote
    ensures var e := Run(cfg, n, msgs);
            e.node.cons.height == n.cons.height && SentAt(e.sent, n.cons.height)
  {
    if msgs != [] {
      var k := |msgs| - 1;
      PrevotesKeepHeight(cfg, n, msgs[..k]);
      var before := Run(cfg, n, msgs[..k]).node;
      forall i | 0 <= i < |Step(cfg, before, msgs[k]).sent|
        ensures Step(cfg, before, msgs[k]).sent[i].CastVote?
        ensures Step(cfg, before, msgs[k]).sent[i].vote.height == n.cons.height
      {
        VoteEchoes(cfg, before, msgs[k], i);
      }
    }
  }

  lemma {:induction false} PrecommitsAreQuiet(cfg: Config, n: Node, msgs: seq<Message>)
    requires AllVotes(msgs) && forall i :: 0 <= i < |msgs| ==> msgs[i].vote.voteType == Precommit
    ensures Run(cfg, n, msgs).sent == []
  {
    if msgs != [] {
      var k := |msgs| - 1;
      PrecommitsAreQuiet(cfg, n, msgs[..k]);
      var before := Run(cfg, n, msgs[..k]).node;
      if Step(cfg, before, msgs[k]).sent != [] {
        VoteEchoes(cfg, before, msgs[k], 0);
      }
    }
  }

  lemma {:induction false} HeightSent(cfg: Config, n: Node, pres: seq<Message>, precs: seq<Message>)
    requires AllVotes(pres) && forall i :: 0 <= i < |pres| ==> pres[i].vote.voteType == Prevote
    requires AllVotes(precs) && forall i :: 0 <= i < |precs| ==> precs[i].vote.voteType == Precommit
    ensures SentAt(Run(cfg, n, pres + precs).sent, n.cons.height)
  {
    RunConcat(cfg, n, pres, precs);
    PrevotesKeepHeight(cfg, n, pres);
    PrecommitsAreQuiet(cfg, Run(cfg, n, pres).node, precs);
    var sent := Run(cfg, n, pres).sent;
    assert sent + [] == sent;
  }

  lemma {:induction false} BallotsHeight(c: Cluster, hash: BlockHash, p: PeerId, v: Vote)
    requires Ready(c) && p in c.nodes && Cast(Played(c, p, Ballots(c, hash, p)).sent, v)
    ensures v.height == c.nodes[p].cons.height
  {
    var cfg := c.configs[p];
    var e := Run(cfg, c.nodes[p], Opening(c, p));
    var pres := BallotsOf(c, hash, c.nodes.Keys - {c.leader} - {p}, Prevote);
    var precs := BallotsOf(c, hash, Committers(c) - {p}, Precommit);
    var f := Run(cfg, e.node, pres + precs);
    RunConcat(cfg, c.nodes[p], Opening(c, p), pres + precs);
    CastSplit(e.sent, f.sent, v);
    OpeningCasts(c, p, v);
    HeightSent(cfg, e.node, pres, precs);
  }

  lemma {:induction false} BallotsSay(c: Cluster, hash: BlockHash, p: PeerId, q: PeerId, v: Vote)
    requires c.round + 1 < ROUND_LIMIT && c.leader in c.nodes
    ensures HandleVote(Some(q), v) in Ballots(c, hash, p) <==>
            || (q in c.nodes.Keys - {c.leader} - {p} && v == VoteOf(c, hash, q, Prevote))
            || (q in Committers(c) - {p} && v == VoteOf(c, hash, q, Precommit))
  {
    BallotsOfSay(c, hash, c.nodes.Keys - {c.leader} - {p}, Prevote, q, v);
    BallotsOfSay(c, hash, Committers(c) - {p}, Precommit, q, v);
  }

  lemma {:induction false} BallotsVoters(c: Cluster, hash: BlockHash, p: PeerId)
    requires c.round + 1 < ROUND_LIMIT && c.leader in c.nodes
    ensures Voters(c.nodes.Keys, Ballots(c, hash, p), Prevote) == c.nodes.Keys - {c.leader} - {p}
  {
    var all := Ballots(c, hash, p);
    forall q | q in c.nodes
      ensures HasVoted(all, q, Prevote) <==> q in c.nodes.Keys - {c.leader} - {p}
    {
      if HasVoted(all, q, Prevote) {
        var i :| 0 <= i < |all| && all[i].HandleVote? && all[i].sender == Some(q) && all[i].vote.voteType == Prevote;
        assert all[i] == HandleVote(Some(q), all[i].vote);
        BallotsSay(c, hash, p, q, all[i].vote);
      }
      if q in c.nodes.Keys - {c.leader} - {p} {
        BallotsSay(c, hash, p, q, VoteOf(c, hash, q, Prevote));
      }
    }
  }

  lemma {:induction false} BallotsHash(c: Cluster, hash: BlockHash, p: PeerId, other: BlockHash)
    requires c.round + 1 < ROUND_LIMIT && c.leader in c.nodes && HasHash(Ballots(c, hash, p), other)
    ensures other == hash
  {
    var all := Ballots(c, hash, p);
    var i :| && 0 <= i < |all| && all[i].HandleVote? && all[i].vote.voteType == Prevote
             && all[i].vote.blockHash == other;
    assert all[i] == HandleVote(Some(all[i].sender.value), all[i].vote);
    BallotsSay(c, hash, p, all[i].sender.value, all[i].vote);
  }

  /** Such votes are answered by the same votes. */
  lemma {:induction false} BallotsSendOnly(c: Cluster, hash: BlockHash, p: PeerId, v: Vote)
    requires Ready(c) && p in c.nodes && hash == HashOf(ProposalOf(c))
    requires Cast(Played(c, p, Ballots(c, hash, p)).sent, v)
    ensures Answer(c, hash, p, v)
  {
    forall other | HasHash(Ballots(c, hash, p), other)
      ensures other == hash
    {
      BallotsHash(c, hash, p, other);
    }
    BallotsHeight(c, hash, p, v);
    AnswerIs(c, hash, p, Ballots(c, hash, p), v);
  }

  ghost predicate Answer(c: Cluster, hash: BlockHash, p: PeerId, v: Vote)
    requires p in c.nodes
  {
    v.round == c.round + 1 && v.height == c.nodes[p].cons.height && v.blockHash == hash && v.voter == Some(p)
  }

  lemma {:induction false} AnswerIs(c: Cluster, hash: BlockHash, p: PeerId, votes: seq<Message>, v: Vote)
    requires Ready(c) && p in c.nodes && hash == HashOf(ProposalOf(c)) && AllVotes(votes)
    requires forall other :: HasHash(votes, other) ==> other == hash
    requires v.height == c.nodes[p].cons.height && Cast(Played(c, p, votes).sent, v)
    ensures Answer(c, hash, p, v)
  {
    PlayedVotes(c, p, votes, v);
  }

  lemma {:induction false} BallotsKinds(c: Cluster, hash: BlockHash, p: PeerId)
    requires Ready(c) && p in c.nodes
    ensures var sent := Played(c, p, Ballots(c, hash, p)).sent;
            && (CastsKind(sent, Prevote) <==> p != c.leader) && (CastsKind(sent, Precommit) <==> p in Committers(c))
  {
    PlayedCasts(c, p, Ballots(c, hash, p));
    BallotsVoters(c, hash, p);
    PrevotesHeard(c.nodes.Keys, c.leader, p);
  }

  ghost predicate AllAnswers(c: Cluster, hash: BlockHash, p: PeerId, sent: seq<Broadcast>)
    requires p in c.nodes
  {
    forall u :: Cast(sent, u) ==> Answer(c, hash, p, u)
  }

  lemma {:induction false} BallotsAnswered(c: Cluster, hash: BlockHash, p: PeerId, sent: seq<Broadcast>)
    requires Ready(c) && p in c.nodes && hash == HashOf(ProposalOf(c))
    requires sent == Played(c, p, Ballots(c, hash, p)).sent
    ensures AllAnswers(c, hash, p, sent)
  {
    forall u | Cast(sent, u)
      ensures Answer(c, hash, p, u)
    {
      BallotsSendOnly(c, hash, p, u);
    }
  }

  lemma {:induction false} AnswersAre(c: Cluster, hash: BlockHash, p: PeerId, sent: seq<Broadcast>)
    requires p in c.nodes && c.round + 1 < ROUND_LIMIT && AllAnswers(c, hash, p, sent)
    ensures OnlyThese(sent, VoteOf(c, hash, p, Prevote), VoteOf(c, hash, p, Precommit))
  {
    forall u | Cast(sent, u)
      ensures u == VoteOf(c, hash, p, Prevote) || u == VoteOf(c, hash, p, Precommit)
    {
      assert Answer(c, hash, p, u) && (u.voteType.Prevote? || u.voteType.Precommit?);
    }
  }

  ghost predicate OnlyThese(sent: seq<Broadcast>, pre: Vote, prec: Vote) {
    forall u :: Cast(sent, u) ==> u == pre || u == prec
  }

  /** Two kinds of votes, each with one content, if at all. */
  lemma {:induction false} TwoVotes(sent: seq<Broadcast>, v: Vote, pre: Vote, prec: Vote)
    requires pre.voteType == Prevote && prec.voteType == Precommit
    requires OnlyThese(sent, pre, prec)
    ensures Cast(sent, v) <==> (CastsKind(sent, Prevote) && v == pre) || (CastsKind(sent, Precommit) && v == prec)
  {
  }

  lemma {:induction false} BallotsSend(c: Cluster, hash: BlockHash, p: PeerId, v: Vote)
    requires Ready(c) && p in c.nodes && hash == HashOf(ProposalOf(c))
    ensures Cast(Played(c, p, Ballots(c, hash, p)).sent, v) <==>
            || (p != c.leader && v == VoteOf(c, hash, p, Prevote))
            || (p in Committers(c) && v == VoteOf(c, hash, p, Precommit))
  {
    var pre, prec := VoteOf(c, hash, p, Prevote), VoteOf(c, hash, p, Precommit);
    BallotsKinds(c, hash, p);
    var sent := Played(c, p, Ballots(c, hash, p)).sent;
    BallotsAnswered(c, hash, p, sent);
    AnswersAre(c, hash, p, sent);
    TwoVotes(sent, v, pre, prec);
  }

  /** The votes of such a round. */
  ghost predicate Intended(c: Cluster, hash: BlockHash, q: PeerId, v: Vote)
    requires c.round + 1 < ROUND_LIMIT && c.leader in c.nodes
  {
    && q in c.nodes
    && (|| (q != c.leader && v == VoteOf(c, hash, q, Prevote))
        || (q in Committers(c) && v == VoteOf(c, hash, q, Precommit)))
  }

  lemma {:induction false} BallotsIntended(c: Cluster, hash: BlockHash, p: PeerId, q: PeerId, v: Vote)
    requires c.round + 1 < ROUND_LIMIT && c.leader in c.nodes
    ensures HandleVote(Some(q), v) in Ballots(c, hash, p) <==> q != p && Intended(c, hash, q, v)
  {
    BallotsSay(c, hash, p, q, v);
  }

  lemma {:induction false} CastIntended(c: Cluster, hash: BlockHash, q: PeerId, v: Vote)
    requires Ready(c) && q in c.nodes && hash == HashOf(ProposalOf(c))
    ensures Cast(Played(c, q, Ballots(c, hash, q)).sent, v) <==> Intended(c, hash, q, v)
  {
    BallotsSend(c, hash, q, v);
  }

  ghost predicate AsIntended(c: Cluster, hash: BlockHash, q: PeerId, sent: seq<Broadcast>)
    requires c.round + 1 < ROUND_LIMIT && c.leader in c.nodes
  {
    forall v :: Cast(sent, v) <==> Intended(c, hash, q, v)
  }

  lemma {:induction false} BallotsHeard(c: Cluster, hash: BlockHash, cast: map<PeerId, seq<Broadcast>>, p: PeerId)
    requires c.round + 1 < ROUND_LIMIT && c.leader in c.nodes && cast.Keys == c.nodes.Keys
    requires forall q :: q in cast ==> AsIntended(c, hash, q, cast[q])
    ensures HeardBy(Ballots(c, hash, p), cast, p)
  {
    forall q, v
      ensures HandleVote(Some(q), v) in Ballots(c, hash, p) <==> q in cast && q != p && Cast(cast[q], v)
    {
      BallotsIntended(c, hash, p, q, v);
      assert q in cast ==> AsIntended(c, hash, q, cast[q]);
    }
  }

  lemma {:induction false} BallotsExchanged(c: Cluster, hash: BlockHash, votes: map<PeerId, seq<Message>>,
                                            cast: map<PeerId, seq<Broadcast>>)
    requires Ready(c) && hash == HashOf(ProposalOf(c)) && votes.Keys == cast.Keys == c.nodes.Keys
    requires forall p :: p in c.nodes ==> votes[p] == Ballots(c, hash, p)
    requires forall p :: p in c.nodes ==> cast[p] == Played(c, p, votes[p]).sent
    ensures Exchanged(c, votes, cast)
  {
    forall q | q in cast
      ensures AsIntended(c, hash, q, cast[q])
    {
      forall v
        ensures Cast(cast[q], v) <==> Intended(c, hash, q, v)
      {
        CastIntended(c, hash, q, v);
      }
    }
    forall p | p in votes
      ensures HeardBy(votes[p], cast, p)
    {
      BallotsHeard(c, hash, cast, p);
    }
  }

  lemma {:induction false} BallotMap(c: Cluster, hash: BlockHash) returns (votes: map<PeerId, seq<Message>>)
    requires Formed(c) && c.round + 1 < ROUND_LIMIT
    ensures votes.Keys == c.nodes.Keys && forall p :: p in c.nodes ==> votes[p] == Ballots(c, hash, p)
  {
    votes := map p | p in c.nodes :: Ballots(c, hash, p);
  }

  lemma {:induction false} CastMap(c: Cluster, votes: map<PeerId, seq<Message>>)
    returns (cast: map<PeerId, seq<Broadcast>>)
    requires Formed(c) && votes.Keys == c.nodes.Keys
    ensures cast.Keys == c.nodes.Keys && forall p :: p in c.nodes ==> cast[p] == Played(c, p, votes[p]).sent
  {
    cast := map p | p in c.nodes :: Played(c, p, votes[p]).sent;
  }

  /** Every cluster that is ready can go through such a round. */
  lemma {:induction false} RoundExists(c: Cluster) returns (votes: map<PeerId, seq<Message>>,
                                                            cast: map<PeerId, seq<Broadcast>>)
    requires Ready(c)
    ensures Exchanged(c, votes, cast)
  {
    var hash := HashOf(ProposalOf(c));
    votes := BallotMap(c, hash);
    cast := CastMap(c, votes);
    BallotsExchanged(c, hash, votes, cast);
  }

}
