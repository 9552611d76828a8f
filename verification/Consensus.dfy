/** One node's round machine: votes, quorums, finalisation, rotation. */
module Consensus {
  import opened Prelude
  import opened Protocol
  import opened Chain
  import opened LeaderElection

  datatype Phase = WaitingForPropose | Propose | Prevoting

  datatype VoteType = Prevote | Precommit

  datatype Vote = Vote(round: Round, height: nat, blockHash: BlockHash, voter: Option<PeerId>, voteType: VoteType)

  datatype ConsensusState = ConsensusState(phase: Phase, round: Round, height: nat, proposer: Option<PeerId>,
                                           validators: set<PeerId>, isLeader: bool, prevotes: set<PeerId>,
                                           precommits: set<PeerId>, blockFinalized: bool)

  /** Senders and blocks that do not decode are `None`. `Tick` is the round
      timer of the main loop. */
  datatype Message =
    | StartNewRound
    | HandleVote(sender: Option<PeerId>, vote: Vote)
    | HandleNewRound(sender: Option<PeerId>, newRound: Round)
    | HandleLeaderAnnouncement(sender: Option<PeerId>, leader: Option<PeerId>, leaderRound: Round)
    | HandleBlockProposal(sender: Option<PeerId>, block: Option<Block>)
    | TriggerConsensusRound
    | SetLeader(lead: bool)
    | AddValidator(peer: Option<PeerId>)
    | GetConsensusState
    | Tick

  datatype Broadcast =
    | LeaderAnnouncement(leader: PeerId, round: Round)
    | CastVote(vote: Vote)
    | BlockProposal(proposer: Option<PeerId>, block: Block)

  datatype Config = Config(env: ChainEnv, me: Option<PeerId>, maxValidators: Option<nat>)

  /** The consensus actor together with the chain actor it talks to. */
  datatype Node = Node(cons: ConsensusState, ledger: Ledger)

  /** What handling a message does: the new state, what is broadcast, and how
      many rounds were started and finalisations requested. */
  datatype Effect = Effect(node: Node, sent: seq<Broadcast>, started: nat, requests: nat)

  function Quiet(n: Node): Effect { Effect(n, [], 0, 0) }

  function NextRound(r: Round): Round {
    if r + 1 < ROUND_LIMIT then r + 1 else 0
  }

  function Threshold(validators: set<PeerId>): nat { |validators| * 2 / 3 }

  ghost function BeginRound(cfg: Config, n: Node): Effect {
    var s := n.cons.(round := NextRound(n.cons.round));
    var leader := Leader(s.validators, s.round);
    var s' := if leader.None? then s else s.(proposer := leader, isLeader := cfg.me == leader);
    Effect(n.(cons := s'.(phase := WaitingForPropose, prevotes := {}, precommits := {}, blockFinalized := false)),
           if leader.Some? && cfg.me == leader then [LeaderAnnouncement(leader.value, s.round)] else [], 1, 0)
  }

  function VoteFor(cfg: Config, s: ConsensusState, hash: BlockHash, t: VoteType): Broadcast {
    CastVote(Vote(s.round, s.height, hash, cfg.me, t))
  }

  function OnPrevote(cfg: Config, n: Node, sender: PeerId, vote: Vote): Effect {
    if sender in n.cons.prevotes then Quiet(n)
    else
      var s := n.cons.(prevotes := n.cons.prevotes + {sender});
      Effect(n.(cons := s),
             if |s.prevotes| >= Threshold(s.validators) then [VoteFor(cfg, s, vote.blockHash, Precommit)] else [], 0, 0)
  }

  /** A node finalises the block it would itself propose. */
  function FinalizeOwn(cfg: Config, n: Node): Node {
    var b := ProposedBlock(cfg.env, n.ledger.chain, None, cfg.me);
    var (l, error) := Finalize(cfg.env, n.ledger, b);
    Node(if error.None? then n.cons.(height := b.header.height) else n.cons, l)
  }

  function OnPrecommit(cfg: Config, n: Node, sender: PeerId): Effect {
    if sender in n.cons.precommits then Quiet(n)
    else
      var s := n.cons.(precommits := n.cons.precommits + {sender});
      if |s.precommits| >= Threshold(s.validators) && !s.blockFinalized
      then Effect(FinalizeOwn(cfg, n.(cons := s.(blockFinalized := true))), [], 0, 1)
      else Quiet(n.(cons := s))
  }

  function OnVote(cfg: Config, n: Node, sender: PeerId, vote: Vote): Effect {
    if sender !in n.cons.validators then Quiet(n)
    else
      match vote.voteType
      case Prevote => OnPrevote(cfg, n, sender, vote)
      case Precommit => OnPrecommit(cfg, n, sender)
  }

  /** The proposal is the block this node would propose in the leader's name. */
  predicate Matches(cfg: Config, n: Node, b: Block) {
    b == ProposedBlock(cfg.env, n.ledger.chain, None, n.cons.proposer)
  }

  function OnProposal(cfg: Config, n: Node, b: Block): Effect {
    if Matches(cfg, n, b) then Effect(n, [VoteFor(cfg, n.cons, HashOf(b), Prevote)], 0, 0) else Quiet(n)
  }

  ghost function OnNewRound(cfg: Config, n: Node, sender: PeerId, round: Round): Effect {
    if round <= n.cons.round then Quiet(n)
    else if n.cons.proposer.Some? && n.cons.proposer.value != sender then Quiet(n)
    else if n.cons.proposer.None? && n.cons.round > 0 then Quiet(n)
    else BeginRound(cfg, n.(cons := n.cons.(round := round - 1)))
  }

  function OnAnnouncement(cfg: Config, n: Node, leader: PeerId, round: Round): Effect {
    if round < n.cons.round then Quiet(n)
    else Quiet(n.(cons := n.cons.(round := round, proposer := Some(leader), isLeader := cfg.me == Some(leader),
                         phase := WaitingForPropose)))
  }

  ghost function OnValidator(cfg: Config, n: Node, peer: PeerId): Effect {
    var n' := n.(cons := n.cons.(validators := n.cons.validators + {peer}));
    if n.cons.round == 0 && cfg.maxValidators.Some? && |n'.cons.validators| >= cfg.maxValidators.value
    then BeginRound(cfg, n') else Quiet(n')
  }

  ghost function OnTick(cfg: Config, n: Node): Effect {
    if |n.cons.validators| < 2 || n.cons.round == 0 then Quiet(n)
    else
      var e := BeginRound(cfg, n);
      if !e.node.cons.isLeader then e
      else
        var b := ProposedBlock(cfg.env, n.ledger.chain, None, cfg.me);
        Effect(e.node.(cons := e.node.cons.(phase := Prevoting)), e.sent + [BlockProposal(cfg.me, b)], 1, 0)
  }

  ghost function Step(cfg: Config, n: Node, msg: Message): Effect {
    match msg
    case StartNewRound => BeginRound(cfg, n)
    case TriggerConsensusRound => BeginRound(cfg, n)
    case HandleVote(Some(p), vote) => OnVote(cfg, n, p, vote)
    case HandleNewRound(Some(p), round) => OnNewRound(cfg, n, p, round)
    case HandleLeaderAnnouncement(Some(_), Some(leader), round) => OnAnnouncement(cfg, n, leader, round)
    case HandleBlockProposal(Some(_), Some(b)) => OnProposal(cfg, n, b)
    case SetLeader(lead) => Quiet(n.(cons := n.cons.(isLeader := lead)))
    case AddValidator(Some(p)) => OnValidator(cfg, n, p)
    case Tick => OnTick(cfg, n)
    case _ => Quiet(n)
  }

  /** A run of messages, with everything broadcast and counted on the way. */
  ghost function Run(cfg: Config, n: Node, msgs: seq<Message>): Effect {
    if msgs == [] then Quiet(n)
    else
      var e := Run(cfg, n, msgs[..|msgs| - 1]);
      var f := Step(cfg, e.node, msgs[|msgs| - 1]);
      Effect(f.node, e.sent + f.sent, e.started + f.started, e.requests + f.requests)
  }

  // ---------- Every run ----------

  ghost predicate VotesValid(s: ConsensusState) {
    s.prevotes <= s.validators && s.precommits <= s.validators
  }

  function Pending(s: ConsensusState): nat { if s.blockFinalized then 1 else 0 }

  /** What a step may do to votes, validators and counters. */
  ghost predicate Bounded(n: Node, e: Effect) {
    && VotesValid(e.node.cons) && n.cons.validators <= e.node.cons.validators
    && e.requests + Pending(n.cons) <= e.started + Pending(e.node.cons)
  }

  lemma {:induction false} BeginRoundBounds(cfg: Config, n: Node)
    ensures Bounded(n, BeginRound(cfg, n))
  {
  }

  lemma {:induction false} FinalizeOwnVotes(cfg: Config, n: Node)
    ensures FinalizeOwn(cfg, n).cons == n.cons.(height := FinalizeOwn(cfg, n).cons.height)
  {
  }

  lemma {:induction false} PrecommitShape(cfg: Config, n: Node, sender: PeerId)
    ensures var e := OnPrecommit(cfg, n, sender);
            && e.node.cons.prevotes == n.cons.prevotes && e.node.cons.validators == n.cons.validators
            && e.node.cons.precommits == n.cons.precommits + {sender}
            && e.requests + Pending(n.cons) == Pending(e.node.cons) && e.started == 0
  {
    if sender in n.cons.precommits {
      assert n.cons.precommits + {sender} == n.cons.precommits;
    }
    var s := n.cons.(precommits := n.cons.precommits + {sender});
    FinalizeOwnVotes(cfg, n.(cons := s.(blockFinalized := true)));
  }

  lemma {:induction false} PrevoteBounds(cfg: Config, n: Node, sender: PeerId, vote: Vote)
    requires VotesValid(n.cons) && sender in n.cons.validators
    ensures Bounded(n, OnPrevote(cfg, n, sender, vote))
  {
  }

  lemma {:induction false} VoteBounds(cfg: Config, n: Node, sender: PeerId, vote: Vote)
    requires VotesValid(n.cons)
    ensures Bounded(n, OnVote(cfg, n, sender, vote))
  {
    if sender in n.cons.validators {
      if vote.voteType.Precommit? {
        PrecommitShape(cfg, n, sender);
      } else {
        PrevoteBounds(cfg, n, sender, vote);
      }
    }
  }

  lemma {:induction false} NewRoundBounds(cfg: Config, n: Node, sender: PeerId, round: Round)
    requires VotesValid(n.cons)
    ensures Bounded(n, OnNewRound(cfg, n, sender, round))
  {
    if round > n.cons.round {
      BeginRoundBounds(cfg, n.(cons := n.cons.(round := round - 1)));
    }
  }

  lemma {:induction false} ValidatorBounds(cfg: Config, n: Node, peer: PeerId)
    requires VotesValid(n.cons)
    ensures Bounded(n, OnValidator(cfg, n, peer))
  {
    BeginRoundBounds(cfg, n.(cons := n.cons.(validators := n.cons.validators + {peer})));
  }

  lemma {:induction false} TickBounds(cfg: Config, n: Node)
    requires VotesValid(n.cons)
    ensures Bounded(n, OnTick(cfg, n))
  {
    BeginRoundBounds(cfg, n);
  }

  lemma {:induction false} AnnouncementBounds(cfg: Config, n: Node, leader: PeerId, round: Round)
    requires VotesValid(n.cons)
    ensures Bounded(n, OnAnnouncement(cfg, n, leader, round))
  {
  }

  lemma {:induction false} ProposalBounds(cfg: Config, n: Node, b: Block)
    requires VotesValid(n.cons)
    ensures Bounded(n, OnProposal(cfg, n, b))
  {
  }

  lemma {:induction false} StepBounds(cfg: Config, n: Node, msg: Message)
    requires VotesValid(n.cons)
    ensures Bounded(n, Step(cfg, n, msg))
  {
    match msg
    case HandleVote(Some(p), vote) => VoteBounds(cfg, n, p, vote);
    case HandleNewRound(Some(p), round) => NewRoundBounds(cfg, n, p, round);
    case HandleLeaderAnnouncement(Some(_), Some(leader), round) => AnnouncementBounds(cfg, n, leader, round);
    case HandleBlockProposal(Some(_), Some(b)) => ProposalBounds(cfg, n, b);
    case AddValidator(Some(p)) => ValidatorBounds(cfg, n, p);
    case StartNewRound => BeginRoundBounds(cfg, n);
    case TriggerConsensusRound => BeginRoundBounds(cfg, n);
    case Tick => TickBounds(cfg, n);
    case _ =>
  }

  /** Over every run of messages vote sets stay within the validators, which
      only grow, and at most one finalisation is requested per round started,
      plus one for the round the run began in. */
  lemma {:induction false} RunBounds(cfg: Config, n: Node, msgs: seq<Message>)
    requires VotesValid(n.cons)
    ensures var e := Run(cfg, n, msgs);
            Bounded(n, e) && e.requests <= e.started + 1
  {
    if msgs != [] {
      RunBounds(cfg, n, msgs[..|msgs| - 1]);
      StepBounds(cfg, Run(cfg, n, msgs[..|msgs| - 1]).node, msgs[|msgs| - 1]);
    }
  }

  /** The round number is about to be counted past its 32 bits. */
  predicate RoundWraps(n: Node, msg: Message) {
    && n.cons.round == ROUND_LIMIT - 1
    && (msg.StartNewRound? || msg.TriggerConsensusRound? || (msg.Tick? && |n.cons.validators| >= 2))
  }

  lemma {:induction false} BeginRoundNext(cfg: Config, n: Node)
    ensures BeginRound(cfg, n).node.cons.round == NextRound(n.cons.round)
  {
  }

  lemma {:induction false} VoteKeepsRound(cfg: Config, n: Node, p: PeerId, vote: Vote)
    ensures OnVote(cfg, n, p, vote).node.cons.round == n.cons.round
  {
    if p in n.cons.validators && vote.voteType.Precommit? && p !in n.cons.precommits {
      var s := n.cons.(precommits := n.cons.precommits + {p});
      FinalizeOwnVotes(cfg, n.(cons := s.(blockFinalized := true)));
    }
  }

  lemma {:induction false} NewRoundRises(cfg: Config, n: Node, sender: PeerId, round: Round)
    ensures OnNewRound(cfg, n, sender, round).node.cons.round >= n.cons.round
  {
    if round > n.cons.round {
      BeginRoundNext(cfg, n.(cons := n.cons.(round := round - 1)));
    }
  }

  lemma {:induction false} ValidatorRises(cfg: Config, n: Node, peer: PeerId)
    ensures OnValidator(cfg, n, peer).node.cons.round >= n.cons.round
  {
    BeginRoundNext(cfg, n.(cons := n.cons.(validators := n.cons.validators + {peer})));
  }

  lemma {:induction false} TickRises(cfg: Config, n: Node)
    ensures OnTick(cfg, n).node.cons.round >= n.cons.round <==> !RoundWraps(n, Tick)
  {
    BeginRoundNext(cfg, n);
  }

  /** The round never goes back, but for the one wrap-around. */
  lemma {:induction false} RoundMonotone(cfg: Config, n: Node, msg: Message)
    ensures Step(cfg, n, msg).node.cons.round >= n.cons.round <==> !RoundWraps(n, msg)
  {
    match msg
    case StartNewRound => BeginRoundNext(cfg, n);
    case TriggerConsensusRound => BeginRoundNext(cfg, n);
    case HandleVote(Some(p), vote) => VoteKeepsRound(cfg, n, p, vote);
    case HandleNewRound(Some(p), round) => NewRoundRises(cfg, n, p, round);
    case AddValidator(Some(p)) => ValidatorRises(cfg, n, p);
    case Tick => TickRises(cfg, n);
    case _ =>
  }

  ghost predicate NeverWraps(cfg: Config, n: Node, msgs: seq<Message>) {
    msgs != [] ==>
      var init := msgs[..|msgs| - 1];
      NeverWraps(cfg, n, init) && !RoundWraps(Run(cfg, n, init).node, msgs[|msgs| - 1])
  }

  lemma {:induction false} RoundMonotoneOverRuns(cfg: Config, n: Node, msgs: seq<Message>)
    requires NeverWraps(cfg, n, msgs)
    ensures Run(cfg, n, msgs).node.cons.round >= n.cons.round
  {
    if msgs != [] {
      var init := msgs[..|msgs| - 1];
      RoundMonotoneOverRuns(cfg, n, init);
      RoundMonotone(cfg, Run(cfg, n, init).node, msgs[|msgs| - 1]);
    }
  }

  // ---------- One round ----------

  /** Neither starts a round nor changes the validators. */
  predicate WithinRound(msg: Message) {
    || msg.HandleVote? || msg.HandleBlockProposal? || msg.HandleLeaderAnnouncement? || msg.SetLeader?
    || msg.GetConsensusState?
  }

  /** The validators whose vote of a kind is among the messages. */
  ghost function Voters(validators: set<PeerId>, msgs: seq<Message>, t: VoteType): set<PeerId> {
    set p | p in validators && HasVoted(msgs, p, t)
  }

  ghost predicate HasVoted(msgs: seq<Message>, p: PeerId, t: VoteType) {
    exists i :: 0 <= i < |msgs| && msgs[i].HandleVote? && msgs[i].sender == Some(p) && msgs[i].vote.voteType == t
  }

  lemma {:induction false} HasVotedSnoc(msgs: seq<Message>, p: PeerId, t: VoteType)
    requires msgs != []
    ensures var last := msgs[|msgs| - 1];
            HasVoted(msgs, p, t) <==>
            || HasVoted(msgs[..|msgs| - 1], p, t)
            || (last.HandleVote? && last.sender == Some(p) && last.vote.voteType == t)
  {
    var init := msgs[..|msgs| - 1];
    if HasVoted(init, p, t) {
      var i :| 0 <= i < |init| && init[i].HandleVote? && init[i].sender == Some(p) && init[i].vote.voteType == t;
      assert msgs[i] == init[i];
    }
    if HasVoted(msgs, p, t) {
      var i :| 0 <= i < |msgs| && msgs[i].HandleVote? && msgs[i].sender == Some(p) && msgs[i].vote.voteType == t;
      if i < |init| {
        assert init[i] == msgs[i];
      }
    }
  }

  lemma {:induction false} VotersSnoc(vs: set<PeerId>, msgs: seq<Message>, t: VoteType)
    requires msgs != []
    ensures var last := msgs[|msgs| - 1];
            var init := Voters(vs, msgs[..|msgs| - 1], t);
            Voters(vs, msgs, t) ==
            if last.HandleVote? && last.vote.voteType == t && last.sender.Some? && last.sender.value in vs
            then init + {last.sender.value} else init
  {
    forall p
      ensures p in Voters(vs, msgs, t) <==> p in vs && HasVoted(msgs, p, t)
    {
      HasVotedSnoc(msgs, p, t);
    }
    forall p | p in vs {
      HasVotedSnoc(msgs, p, t);
    }
  }

  ghost predicate FreshRound(s: ConsensusState) {
    s.prevotes == {} && s.precommits == {} && !s.blockFinalized
  }

  function Quorum(n: nat): nat { if n * 2 / 3 == 0 then 1 else n * 2 / 3 }

  /** Precommits broadcast on reaching `have` prevotes. */
  function Repeats(have: nat, need: nat): nat {
    if have < need then 0 else have - need + 1
  }

  function PrecommitsSent(sent: seq<Broadcast>): nat {
    if sent == [] then 0
    else
      PrecommitsSent(sent[..|sent| - 1]) +
      var last := sent[|sent| - 1];
      if last.CastVote? && last.vote.voteType.Precommit? then 1 else 0
  }

  lemma {:induction false} PrecommitsSentConcat(a: seq<Broadcast>, b: seq<Broadcast>)
    requires |b| <= 1
    ensures PrecommitsSent(a + b) == PrecommitsSent(a) + PrecommitsSent(b)
  {
    if b == [] {
      assert a + b == a;
    } else {
      assert (a + b)[..|a|] == a;
      assert b[..0] == [];
    }
  }

  lemma {:induction false} PrevoteOutcome(cfg: Config, n: Node, sender: PeerId, vote: Vote)
    requires n.cons.prevotes <= n.cons.validators && sender in n.cons.validators
    ensures var e := OnPrevote(cfg, n, sender, vote);
            var need := Quorum(|n.cons.validators|);
            && e.node == n.(cons := n.cons.(prevotes := n.cons.prevotes + {sender}))
            && Repeats(|n.cons.prevotes|, need) + PrecommitsSent(e.sent) == Repeats(|e.node.cons.prevotes|, need)
            && |e.sent| <= 1
  {
    if sender in n.cons.prevotes {
      assert n.cons.prevotes + {sender} == n.cons.prevotes;
    } else {
      assert |n.cons.prevotes + {sender}| == |n.cons.prevotes| + 1;
      assert forall b: Broadcast :: [b][..0] == [];
    }
  }

  lemma {:induction false} PrecommitOutcome(cfg: Config, n: Node, sender: PeerId)
    requires n.cons.blockFinalized <==> |n.cons.precommits| >= Quorum(|n.cons.validators|)
    requires sender in n.cons.validators
    ensures var e := OnPrecommit(cfg, n, sender);
            var s := e.node.cons;
            && s.precommits == n.cons.precommits + {sender} && s.prevotes == n.cons.prevotes
            && s.validators == n.cons.validators
            && (s.blockFinalized <==> |s.precommits| >= Quorum(|s.validators|))
            && e.requests + Pending(n.cons) == Pending(s) && e.sent == []
  {
    if sender in n.cons.precommits {
      assert n.cons.precommits + {sender} == n.cons.precommits;
    } else {
      assert |n.cons.precommits + {sender}| == |n.cons.precommits| + 1;
    }
  }

  function Then(e: Effect, f: Effect): Effect {
    Effect(f.node, e.sent + f.sent, e.started + f.started, e.requests + f.requests)
  }

  /** The votes taken, and what they led to. */
  ghost predicate Tally(vs: set<PeerId>, prevoters: set<PeerId>, precommitters: set<PeerId>, e: Effect) {
    && e.node.cons.validators == vs && prevoters <= vs
    && e.node.cons.prevotes == prevoters && e.node.cons.precommits == precommitters
    && (e.node.cons.blockFinalized <==> |precommitters| >= Quorum(|vs|))
    && e.requests == (if |precommitters| >= Quorum(|vs|) then 1 else 0)
    && PrecommitsSent(e.sent) == Repeats(|prevoters|, Quorum(|vs|))
  }

  ghost predicate RoundOutcome(vs: set<PeerId>, msgs: seq<Message>, e: Effect) {
    Tally(vs, Voters(vs, msgs, Prevote), Voters(vs, msgs, Precommit), e)
  }

  lemma {:induction false} PrevoteTally(cfg: Config, vs: set<PeerId>, pre: set<PeerId>, prec: set<PeerId>, e: Effect,
                                        p: PeerId, vote: Vote)
    requires Tally(vs, pre, prec, e) && p in vs
    ensures Tally(vs, pre + {p}, prec, Then(e, OnPrevote(cfg, e.node, p, vote)))
  {
    PrevoteOutcome(cfg, e.node, p, vote);
    PrecommitsSentConcat(e.sent, OnPrevote(cfg, e.node, p, vote).sent);
  }

  lemma {:induction false} PrecommitTally(cfg: Config, vs: set<PeerId>, pre: set<PeerId>, prec: set<PeerId>, e: Effect,
                                          p: PeerId)
    requires Tally(vs, pre, prec, e) && p in vs
    ensures Tally(vs, pre, prec + {p}, Then(e, OnPrecommit(cfg, e.node, p)))
  {
    PrecommitOutcome(cfg, e.node, p);
    PrecommitsSentConcat(e.sent, OnPrecommit(cfg, e.node, p).sent);
  }

  lemma {:induction false} OtherTally(cfg: Config, vs: set<PeerId>, pre: set<PeerId>, prec: set<PeerId>, e: Effect,
                                      msg: Message)
    requires Tally(vs, pre, prec, e) && WithinRound(msg)
    requires !(msg.HandleVote? && msg.sender.Some? && msg.sender.value in vs)
    ensures Tally(vs, pre, prec, Then(e, Step(cfg, e.node, msg)))
  {
    OtherOutcome(cfg, e.node, msg);
    PrecommitsSentConcat(e.sent, Step(cfg, e.node, msg).sent);
  }

  /** Within one round, in whatever order and with whatever repeats, only which
      validators sent which votes matters: exactly one finalisation is requested
      once the distinct precommits reach the quorum, none before, and a precommit
      goes out for every distinct prevote from the quorum on. */
  lemma {:induction false} RoundDependsOnVoters(cfg: Config, n: Node, msgs: seq<Message>)
    requires FreshRound(n.cons)
    requires forall i :: 0 <= i < |msgs| ==> WithinRound(msgs[i])
    ensures RoundOutcome(n.cons.validators, msgs, Run(cfg, n, msgs))
  {
    var vs := n.cons.validators;
    if msgs == [] {
      assert Voters(vs, msgs, Prevote) == {} && Voters(vs, msgs, Precommit) == {};
    } else {
      var init, last := msgs[..|msgs| - 1], msgs[|msgs| - 1];
      RoundDependsOnVoters(cfg, n, init);
      RoundStep(cfg, vs, msgs, Run(cfg, n, init));
    }
  }

  lemma {:induction false} RoundStep(cfg: Config, vs: set<PeerId>, msgs: seq<Message>, e: Effect)
    requires msgs != [] && WithinRound(msgs[|msgs| - 1])
    requires RoundOutcome(vs, msgs[..|msgs| - 1], e)
    ensures RoundOutcome(vs, msgs, Then(e, Step(cfg, e.node, msgs[|msgs| - 1])))
  {
    var init, last := msgs[..|msgs| - 1], msgs[|msgs| - 1];
    var pre, prec := Voters(vs, init, Prevote), Voters(vs, init, Precommit);
    VotersSnoc(vs, msgs, Prevote);
    VotersSnoc(vs, msgs, Precommit);
    if last.HandleVote? && last.sender.Some? && last.sender.value in vs {
      if last.vote.voteType.Prevote? {
        PrevoteTally(cfg, vs, pre, prec, e, last.sender.value, last.vote);
      } else {
        PrecommitTally(cfg, vs, pre, prec, e, last.sender.value);
      }
    } else {
      OtherTally(cfg, vs, pre, prec, e, last);
    }
  }

  lemma {:induction false} OtherOutcome(cfg: Config, n: Node, msg: Message)
    requires WithinRound(msg)
    requires !(msg.HandleVote? && msg.sender.Some? && msg.sender.value in n.cons.validators)
    ensures var e := Step(cfg, n, msg);
            && e.node.cons.prevotes == n.cons.prevotes && e.node.cons.precommits == n.cons.precommits
            && e.node.cons.validators == n.cons.validators && e.node.cons.blockFinalized == n.cons.blockFinalized
            && |e.sent| <= 1 && PrecommitsSent(e.sent) == 0 && e.requests == 0
  {
    assert forall b: Broadcast :: [b][..0] == [];
  }

  // ---------- Heights ----------

  /** Everything that happens to a node: a consensus message, or a transaction
      reaching the chain actor. */
  datatype Event = Received(msg: Message) | Submitted(tx: Transaction)

  ghost function React(cfg: Config, n: Node, ev: Event): Node {
    match ev
    case Received(msg) => Step(cfg, n, msg).node
    case Submitted(tx) =>
      n.(ledger := n.ledger.(chain := n.ledger.chain.(pending := AddPending(n.ledger.chain.pending, tx))))
  }

  ghost function ReactAll(cfg: Config, n: Node, evs: seq<Event>): Node {
    if evs == [] then n else React(cfg, ReactAll(cfg, n, evs[..|evs| - 1]), evs[|evs| - 1])
  }

  lemma {:induction false} FinalizeOwnHeight(cfg: Config, n: Node)
    requires n.cons.height == n.ledger.chain.height
    ensures var n' := FinalizeOwn(cfg, n);
            && n'.cons.height == n'.ledger.chain.height
            && n.ledger.chain.height <= n'.ledger.chain.height <= n.ledger.chain.height + 1
  {
    AllOrNothing(cfg.env, n.ledger, ProposedBlock(cfg.env, n.ledger.chain, None, cfg.me));
  }

  lemma {:induction false} StepHeight(cfg: Config, n: Node, msg: Message)
    requires n.cons.height == n.ledger.chain.height
    ensures var n' := Step(cfg, n, msg).node;
            n'.cons.height == n'.ledger.chain.height && n.ledger.chain.height <= n'.ledger.chain.height
  {
    match msg
    case HandleVote(Some(p), vote) =>
      if p in n.cons.validators && vote.voteType.Precommit? {
        PrecommitHeight(cfg, n, p);
      }
    case _ => StepKeepsLedger(cfg, n, msg);
  }

  lemma {:induction false} PrecommitHeight(cfg: Config, n: Node, sender: PeerId)
    requires n.cons.height == n.ledger.chain.height
    ensures var n' := OnPrecommit(cfg, n, sender).node;
            n'.cons.height == n'.ledger.chain.height && n.ledger.chain.height <= n'.ledger.chain.height
  {
    var s := n.cons.(precommits := n.cons.precommits + {sender});
    FinalizeOwnHeight(cfg, n.(cons := s.(blockFinalized := true)));
  }

  lemma {:induction false} StepKeepsLedger(cfg: Config, n: Node, msg: Message)
    requires !(msg.HandleVote? && msg.sender.Some?)
    ensures Step(cfg, n, msg).node.ledger == n.ledger && Step(cfg, n, msg).node.cons.height == n.cons.height
  {
  }

  /** The two actors agree on the height in every reachable state. */
  lemma {:induction false} HeightsAgree(cfg: Config, n: Node, evs: seq<Event>)
    requires n.cons.height == n.ledger.chain.height
    ensures var n' := ReactAll(cfg, n, evs);
            n'.cons.height == n'.ledger.chain.height && n.ledger.chain.height <= n'.ledger.chain.height
  {
    if evs != [] {
      var init, ev := evs[..|evs| - 1], evs[|evs| - 1];
      HeightsAgree(cfg, n, init);
      if ev.Received? {
        StepHeight(cfg, ReactAll(cfg, n, init), ev.msg);
      }
    }
  }

  class ConsensusInterface {
    const cfg: Config
    const chain: ChainInterface
    var state: ConsensusState
    // Broadcasts handed to the network, and what was counted on the way.
    var outbox: seq<Broadcast>
    ghost var started: nat
    ghost var requests: nat

    ghost predicate Valid() {
      chain.Valid() && chain.env == cfg.env
    }

    ghost function View(): Node
      reads this, chain, chain.executor
    {
      Node(state, chain.View())
    }

    /** Between the two states exactly the effect `e` took place. */
    twostate predicate Performed(e: Effect)
      reads this, chain, chain.executor
    {
      && View() == e.node && outbox == old(outbox) + e.sent
      && started == old(started) + e.started && requests == old(requests) + e.requests
    }

    constructor (cfg: Config, chain: ChainInterface)
      requires chain.Valid() && chain.env == cfg.env
      ensures Valid() && this.cfg == cfg && this.chain == chain
      ensures state == ConsensusState(WaitingForPropose, 0, 0, None, {}, false, {}, {}, false)
      ensures outbox == [] && started == 0 && requests == 0
    {
      this.cfg, this.chain := cfg, chain;
      state := ConsensusState(WaitingForPropose, 0, 0, None, {}, false, {}, {}, false);
      outbox, started, requests := [], 0, 0;
    }

    /** The defaults stay if the chain actor does not answer. */
    method InitializeFromChainState(answered: bool)
      modifies this`state
      ensures state == if answered then old(state).(height := chain.chainState.height, round := 0) else old(state)
    {
      if answered {
        state := state.(height := chain.chainState.height);
        state := state.(round := 0);
      }
    }

    method Send(b: Broadcast)
      modifies this`outbox
      ensures outbox == old(outbox) + [b]
    {
      outbox := outbox + [b];
    }

    method StartNewRound()
      modifies this
      ensures Performed(BeginRound(cfg, old(View())))
    {
      started := started + 1;
      state := state.(round := NextRound(state.round));
      var leader := SelectLeader(state.validators, state.round);
      if leader.Some? {
        state := state.(proposer := leader, isLeader := cfg.me == leader);
        if state.isLeader {
          Send(LeaderAnnouncement(leader.value, state.round));
        }
      }
      state := state.(phase := WaitingForPropose);
      state := state.(prevotes := {}, precommits := {});
      state := state.(blockFinalized := false);
    }

    method ProposeBlockAsLeader()
      modifies this
      ensures state == old(state).(phase := Prevoting) && started == old(started) && requests == old(requests)
      ensures outbox == old(outbox) + [BlockProposal(cfg.me, ProposedBlock(chain.env, chain.chainState, None, cfg.me))]
    {
      var b := chain.GetProposedBlock(None, cfg.me);
      Send(BlockProposal(cfg.me, b));
      state := state.(phase := Prevoting);
    }

    method HandleProposal(b: Block)
      requires Valid()
      modifies this`outbox
      ensures Performed(OnProposal(cfg, old(View()), b))
    {
      var local := chain.GetProposedBlock(None, state.proposer);
      if local == b {
        Send(VoteFor(cfg, state, HashOf(b), Prevote));
      }
    }

    method ProcessPrevoteVote(sender: PeerId, vote: Vote)
      modifies this
      ensures Performed(OnPrevote(cfg, old(View()), sender, vote))
    {
      if sender !in state.prevotes {
        state := state.(prevotes := state.prevotes + {sender});
        if |state.prevotes| >= Threshold(state.validators) {
          Send(VoteFor(cfg, state, vote.blockHash, Precommit));
        }
      }
    }

    method ProcessPrecommitVote(sender: PeerId)
      requires Valid()
      modifies this, chain, chain.executor
      ensures Valid()
      ensures Performed(OnPrecommit(cfg, old(View()), sender))
    {
      if sender !in state.precommits {
        state := state.(precommits := state.precommits + {sender});
        if |state.precommits| >= Threshold(state.validators) && !state.blockFinalized {
          state := state.(blockFinalized := true);
          requests := requests + 1;
          var b := chain.GetProposedBlock(None, cfg.me);
          var error := chain.FinalizeAndStoreBlock(b, WRITES);
          if error.None? {
            state := state.(height := b.header.height);
          }
        }
      }
    }

    method HandleVoteFrom(sender: PeerId, vote: Vote)
      requires Valid()
      modifies this, chain, chain.executor
      ensures Valid()
      ensures Performed(OnVote(cfg, old(View()), sender, vote))
    {
      if sender in state.validators {
        match vote.voteType
        case Prevote => ProcessPrevoteVote(sender, vote);
        case Precommit => ProcessPrecommitVote(sender);
      }
    }

    method HandleNewRoundFrom(sender: PeerId, round: Round)
      modifies this
      ensures Performed(OnNewRound(cfg, old(View()), sender, round))
    {
      if round <= state.round {
        return;
      }
      if state.proposer.Some? {
        if state.proposer.value != sender {
          return;
        }
      } else if state.round > 0 {
        return;
      }
      state := state.(round := round - 1);
      StartNewRound();
    }

    method HandleAnnouncement(leader: PeerId, round: Round)
      modifies this`state
      ensures Performed(OnAnnouncement(cfg, old(View()), leader, round))
    {
      if round >= state.round {
        state := state.(round := round, proposer := Some(leader));
        state := state.(isLeader := cfg.me == Some(leader), phase := WaitingForPropose);
      }
    }

    method AddValidatorPeer(peer: PeerId)
      modifies this
      ensures Performed(OnValidator(cfg, old(View()), peer))
    {
      state := state.(validators := state.validators + {peer});
      if state.round == 0 && cfg.maxValidators.Some? && |state.validators| >= cfg.maxValidators.value {
        StartNewRound();
      }
    }

    method TriggerNewRound()
      requires Valid()
      modifies this
      ensures Performed(OnTick(cfg, old(View())))
    {
      if |state.validators| >= 2 && state.round > 0 {
        StartNewRound();
        if state.isLeader {
          ProposeBlockAsLeader();
        }
      }
    }

    /** `handle_message`, and the timer; `ok` is false for a peer id that does
        not decode. */
    method HandleMessage(msg: Message) returns (ok: bool)
      requires Valid()
      modifies this, chain, chain.executor
      ensures Valid()
      ensures Performed(Step(cfg, old(View()), msg))
    {
      ok := true;
      match msg {
        case StartNewRound => StartNewRound();
        case TriggerConsensusRound => StartNewRound();
        case HandleVote(Some(p), vote) => HandleVoteFrom(p, vote);
        case HandleNewRound(Some(p), round) => HandleNewRoundFrom(p, round);
        case HandleLeaderAnnouncement(Some(_), Some(leader), round) => HandleAnnouncement(leader, round);
        case HandleBlockProposal(Some(_), Some(b)) => HandleProposal(b);
        case HandleBlockProposal(Some(_), None) =>
        case SetLeader(lead) => state := state.(isLeader := lead);
        case AddValidator(Some(p)) => AddValidatorPeer(p);
        case GetConsensusState =>
        case Tick => TriggerNewRound();
        case _ => ok := false;
      }
    }
  }
}
