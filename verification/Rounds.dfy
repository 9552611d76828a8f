/** Which messages start a round, who its validators are, and whose announcement
    a node follows. */
module Rounds {
  import opened Prelude
  import opened Chain
  import opened LeaderElection
  import opened Consensus

  // ---------- Starting a round ----------

  /** The timer in a running network, a request, a later round from the expected
      proposer, or the validator that was still missing before the first one. */
  ghost predicate Enters(cfg: Config, n: Node, msg: Message) {
    match msg
    case StartNewRound => true
    case TriggerConsensusRound => true
    case Tick => |n.cons.validators| >= 2 && n.cons.round > 0
    case HandleNewRound(Some(p), r) =>
      r > n.cons.round && (n.cons.proposer == Some(p) || (n.cons.proposer.None? && n.cons.round == 0))
    case AddValidator(Some(p)) =>
      n.cons.round == 0 && cfg.maxValidators.Some? && |n.cons.validators + {p}| >= cfg.maxValidators.value
    case _ => false
  }

  /** A round starts exactly if it should: the announced one or the next, led by
      whom the election names, with no votes yet. Otherwise, announcements aside,
      round and leader stay. */
  ghost predicate EntersWell(cfg: Config, n: Node, msg: Message, e: Effect) {
    var s := e.node.cons;
    if Enters(cfg, n, msg) then
      && e.started == 1 && FreshRound(s) && (msg.Tick? || s.phase == WaitingForPropose)
      && s.round == (if msg.HandleNewRound? then msg.newRound else NextRound(n.cons.round))
      && (s.validators != {} ==>
            s.proposer == Leader(s.validators, s.round) && (s.isLeader <==> cfg.me == s.proposer))
    else
      && e.started == 0
      && (!msg.HandleLeaderAnnouncement? ==>
            && s.round == n.cons.round && s.proposer == n.cons.proposer
            && s.isLeader == if msg.SetLeader? then msg.lead else n.cons.isLeader)
  }

  lemma {:induction false} EntersIff(cfg: Config, n: Node, msg: Message)
    ensures EntersWell(cfg, n, msg, Step(cfg, n, msg))
  {
    match msg
    case HandleVote(Some(p), vote) => VoteKeepsLeader(cfg, n, p, vote);
    case HandleNewRound(Some(p), r) => NewRoundEnters(cfg, n, p, r);
    case AddValidator(Some(p)) => ValidatorEnters(cfg, n, p);
    case Tick => TickEnters(cfg, n);
    case StartNewRound => BeginsWith(cfg, n);
    case TriggerConsensusRound => BeginsWith(cfg, n);
    case _ =>
  }

  lemma {:induction false} NewRoundEnters(cfg: Config, n: Node, p: PeerId, r: Round)
    ensures EntersWell(cfg, n, HandleNewRound(Some(p), r), OnNewRound(cfg, n, p, r))
  {
    if r > n.cons.round {
      BeginsWith(cfg, n.(cons := n.cons.(round := r - 1)));
    }
  }

  lemma {:induction false} ValidatorEnters(cfg: Config, n: Node, p: PeerId)
    ensures EntersWell(cfg, n, AddValidator(Some(p)), OnValidator(cfg, n, p))
  {
    BeginsWith(cfg, n.(cons := n.cons.(validators := n.cons.validators + {p})));
  }

  lemma {:induction false} TickEnters(cfg: Config, n: Node)
    ensures EntersWell(cfg, n, Tick, OnTick(cfg, n))
  {
    BeginsWith(cfg, n);
  }

  lemma {:induction false} BeginsWith(cfg: Config, n: Node)
    ensures var s := BeginRound(cfg, n).node.cons;
            && BeginRound(cfg, n).started == 1 && FreshRound(s)
            && s.round == NextRound(n.cons.round) && s.validators == n.cons.validators
            && s.phase == WaitingForPropose
            && (s.validators != {} ==>
                  && Leader(s.validators, s.round).Some? && s.proposer == Leader(s.validators, s.round)
                  && (s.isLeader <==> cfg.me == s.proposer))
  {
  }

  lemma {:induction false} VoteKeepsLeader(cfg: Config, n: Node, p: PeerId, vote: Vote)
    ensures var s := OnVote(cfg, n, p, vote).node.cons;
            && s.round == n.cons.round && s.proposer == n.cons.proposer && s.isLeader == n.cons.isLeader
            && OnVote(cfg, n, p, vote).started == 0
  {
    if p in n.cons.validators && vote.voteType.Precommit? {
      FinalizeOwnVotes(cfg, n.(cons := n.cons.(precommits := n.cons.precommits + {p}, blockFinalized := true)));
    }
  }

  // ---------- Validators ----------

  ghost function Added(msgs: seq<Message>): set<PeerId> {
    set i | 0 <= i < |msgs| && msgs[i].AddValidator? && msgs[i].peer.Some? :: msgs[i].peer.value
  }

  lemma {:induction false} StepValidators(cfg: Config, n: Node, msg: Message)
    ensures Step(cfg, n, msg).node.cons.validators ==
            if msg.AddValidator? && msg.peer.Some? then n.cons.validators + {msg.peer.value} else n.cons.validators
  {
    match msg
    case HandleVote(Some(p), vote) => VoteValidators(cfg, n, p, vote);
    case HandleNewRound(Some(p), r) => NewRoundValidators(cfg, n, p, r);
    case AddValidator(Some(p)) => ValidatorAdded(cfg, n, p);
    case Tick => TickValidators(cfg, n);
    case StartNewRound => BeginsWith(cfg, n);
    case TriggerConsensusRound => BeginsWith(cfg, n);
    case _ =>
  }

  lemma {:induction false} VoteValidators(cfg: Config, n: Node, p: PeerId, vote: Vote)
    ensures OnVote(cfg, n, p, vote).node.cons.validators == n.cons.validators
  {
    if p in n.cons.validators && vote.voteType.Precommit? {
      PrecommitShape(cfg, n, p);
    }
  }

  lemma {:induction false} ValidatorAdded(cfg: Config, n: Node, p: PeerId)
    ensures OnValidator(cfg, n, p).node.cons.validators == n.cons.validators + {p}
  {
    BeginsWith(cfg, n.(cons := n.cons.(validators := n.cons.validators + {p})));
  }

  lemma {:induction false} TickValidators(cfg: Config, n: Node)
    ensures OnTick(cfg, n).node.cons.validators == n.cons.validators
  {
    BeginsWith(cfg, n);
  }

  lemma {:induction false} NewRoundValidators(cfg: Config, n: Node, p: PeerId, r: Round)
    ensures OnNewRound(cfg, n, p, r).node.cons.validators == n.cons.validators
  {
    if r > n.cons.round {
      BeginsWith(cfg, n.(cons := n.cons.(round := r - 1)));
    }
  }

  lemma {:induction false} AddedSnoc(msgs: seq<Message>, k: nat)
    requires |msgs| == k + 1
    ensures Added(msgs) ==
            Added(msgs[..k]) + if msgs[k].AddValidator? && msgs[k].peer.Some? then {msgs[k].peer.value} else {}
  {
    var last := if msgs[k].AddValidator? && msgs[k].peer.Some? then {msgs[k].peer.value} else {};
    forall p
      ensures p in Added(msgs) <==> p in Added(msgs[..k]) + last
    {
      if p in Added(msgs) {
        var i :| 0 <= i < |msgs| && msgs[i].AddValidator? && msgs[i].peer == Some(p);
        assert i < k ==> msgs[..k][i] == msgs[i];
      }
      if p in Added(msgs[..k]) {
        var i :| 0 <= i < k && msgs[..k][i].AddValidator? && msgs[..k][i].peer == Some(p);
        assert msgs[i] == msgs[..k][i];
      }
    }
  }

  /** The validators are those at the start and those added, and nobody else. */
  lemma {:induction false} ValidatorsAre(cfg: Config, n: Node, msgs: seq<Message>)
    ensures Run(cfg, n, msgs).node.cons.validators == n.cons.validators + Added(msgs)
  {
    if msgs != [] {
      var k := |msgs| - 1;
      ValidatorsAre(cfg, n, msgs[..k]);
      StepValidators(cfg, Run(cfg, n, msgs[..k]).node, msgs[k]);
      AddedSnoc(msgs, k);
    }
  }

  // ---------- Announcements ----------

  predicate Announces(msg: Message) {
    msg.HandleLeaderAnnouncement? && msg.sender.Some? && msg.leader.Some?
  }

  /** Message `k` announces a round no lower than the node's and any announced
      before. */
  ghost predicate Highest(msgs: seq<Message>, start: Round, k: nat) {
    && k < |msgs| && Announces(msgs[k]) && msgs[k].leaderRound >= start
    && forall j :: 0 <= j < k && Announces(msgs[j]) ==> msgs[j].leaderRound <= msgs[k].leaderRound
  }

  /** The last such message. */
  ghost predicate LastHighest(msgs: seq<Message>, start: Round, k: nat) {
    Highest(msgs, start, k) && forall j: nat :: Highest(msgs, start, j) ==> j <= k
  }

  /** The state follows an announcement. */
  ghost predicate Obeys(cfg: Config, msg: Message, s: ConsensusState)
    requires Announces(msg)
  {
    s.round == msg.leaderRound && s.proposer == msg.leader && (s.isLeader <==> cfg.me == msg.leader)
  }

  predicate SameLeader(s: ConsensusState, s': ConsensusState) {
    s'.round == s.round && s'.proposer == s.proposer && s'.isLeader == s.isLeader
  }

  /** Round, proposer and leadership as the last such message says, or as at the
      start if there is none. */
  ghost predicate Follows(cfg: Config, n: Node, msgs: seq<Message>, s: ConsensusState) {
    || (exists k: nat :: LastHighest(msgs, n.cons.round, k) && Obeys(cfg, msgs[k], s))
    || ((forall k: nat :: !Highest(msgs, n.cons.round, k)) && SameLeader(n.cons, s))
  }

  lemma {:induction false} HighestPrefix(msgs: seq<Message>, start: Round, k: nat)
    requires msgs != [] && k < |msgs| - 1
    ensures Highest(msgs, start, k) <==> Highest(msgs[..|msgs| - 1], start, k)
  {
    var init := msgs[..|msgs| - 1];
    assert forall j :: 0 <= j < |init| ==> init[j] == msgs[j];
  }

  /** No announcement is above the round the node is in. */
  ghost predicate Topped(msgs: seq<Message>, n: Node, s: ConsensusState) {
    n.cons.round <= s.round && forall j :: 0 <= j < |msgs| && Announces(msgs[j]) ==> msgs[j].leaderRound <= s.round
  }

  lemma {:induction false} HighestBelow(msgs: seq<Message>, start: Round)
    requires msgs != []
    ensures forall k: nat :: k < |msgs| - 1 ==>
              (Highest(msgs, start, k) <==> Highest(msgs[..|msgs| - 1], start, k))
  {
    forall k: nat | k < |msgs| - 1
      ensures Highest(msgs, start, k) <==> Highest(msgs[..|msgs| - 1], start, k)
    {
      HighestPrefix(msgs, start, k);
    }
  }

  /** An announcement that is not below what came before. */
  lemma {:induction false} FollowsNew(cfg: Config, n: Node, msgs: seq<Message>, s: ConsensusState, s': ConsensusState)
    requires msgs != [] && Topped(msgs[..|msgs| - 1], n, s)
    requires var last := msgs[|msgs| - 1];
             Announces(last) && last.leaderRound >= s.round && Obeys(cfg, last, s')
    ensures Topped(msgs, n, s') && Follows(cfg, n, msgs, s')
  {
    var k := |msgs| - 1;
    assert forall j :: 0 <= j < k ==> msgs[..k][j] == msgs[j];
    assert Highest(msgs, n.cons.round, k);
    assert LastHighest(msgs, n.cons.round, k);
  }

  /** Any other message. */
  lemma {:induction false} FollowsOld(cfg: Config, n: Node, msgs: seq<Message>, s: ConsensusState, s': ConsensusState)
    requires msgs != [] && Follows(cfg, n, msgs[..|msgs| - 1], s) && Topped(msgs[..|msgs| - 1], n, s)
    requires var last := msgs[|msgs| - 1];
             !(Announces(last) && last.leaderRound >= s.round) && SameLeader(s, s')
    ensures Topped(msgs, n, s') && Follows(cfg, n, msgs, s')
  {
    var k, start := |msgs| - 1, n.cons.round;
    var init := msgs[..k];
    assert forall j :: 0 <= j < k ==> init[j] == msgs[j];
    assert !Highest(msgs, start, k) by {
      Reached(cfg, n, init, s);
    }
    HighestBelow(msgs, start);
    if j: nat :| LastHighest(init, start, j) && Obeys(cfg, init[j], s) {
      assert LastHighest(msgs, start, j) && Obeys(cfg, msgs[j], s');
    }
  }

  /** The round the node is in was announced, or is the one it started in. */
  lemma {:induction false} Reached(cfg: Config, n: Node, msgs: seq<Message>, s: ConsensusState)
    requires Follows(cfg, n, msgs, s)
    ensures || s.round == n.cons.round
            || exists j :: 0 <= j < |msgs| && Announces(msgs[j]) && msgs[j].leaderRound == s.round
  {
  }

  /** A node that hears announcements, votes and proposals follows the last
      announcement that was not below an earlier one or its own round. */
  lemma {:induction false} LastHighestWins(cfg: Config, n: Node, msgs: seq<Message>)
    requires forall i :: 0 <= i < |msgs| ==> WithinRound(msgs[i]) && !msgs[i].SetLeader?
    ensures Follows(cfg, n, msgs, Run(cfg, n, msgs).node.cons) && Topped(msgs, n, Run(cfg, n, msgs).node.cons)
  {
    if msgs != [] {
      var init, last := msgs[..|msgs| - 1], msgs[|msgs| - 1];
      LastHighestWins(cfg, n, init);
      var before := Run(cfg, n, init).node;
      var after := Step(cfg, before, last).node;
      if Announces(last) && last.leaderRound >= before.cons.round {
        FollowsNew(cfg, n, msgs, before.cons, after.cons);
      } else {
        AnnouncementIgnored(cfg, before, last);
        FollowsOld(cfg, n, msgs, before.cons, after.cons);
      }
    }
  }

  lemma {:induction false} AnnouncementIgnored(cfg: Config, n: Node, msg: Message)
    requires WithinRound(msg) && !msg.SetLeader? && !(Announces(msg) && msg.leaderRound >= n.cons.round)
    ensures SameLeader(n.cons, Step(cfg, n, msg).node.cons)
  {
    if !msg.HandleLeaderAnnouncement? {
      EntersIff(cfg, n, msg);
    }
  }
}
