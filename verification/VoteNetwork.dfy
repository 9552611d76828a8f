/** Any number of nodes exchanging votes over a network that may reorder, lose
    and repeat them. */
module VoteNetwork {
  import opened Prelude
  import opened Sets
  import opened Sorting
  import opened Chain
  import opened LeaderElection
  import opened Consensus
  import Executor
  import Protocol

  /** A vote that was broadcast, with its authenticated sender. */
  datatype Cast = Cast(from: PeerId, vote: Vote)

  /** The nodes, every vote ever broadcast, who matched a proposal against the
      block of their own, and who requested a finalisation. */
  datatype World = World(nodes: map<PeerId, Node>, casts: set<Cast>, matched: set<PeerId>, finalized: set<PeerId>)

  datatype Event =
    | Deliver(to: PeerId, msg: Message)
    | Submit(to: PeerId, tx: Protocol.Transaction)

  /** Votes are delivered only if they were cast, at any time and as often as
      the network likes; proposals, announcements, timers and requests may come
      from anyone with any content. The validators are fixed. */
  ghost predicate Enabled(w: World, ev: Event) {
    && ev.to in w.nodes
    && (ev.Deliver? ==>
          && (ev.msg.HandleVote? && ev.msg.sender.Some? ==> Cast(ev.msg.sender.value, ev.msg.vote) in w.casts)
          && (ev.msg.AddValidator? && ev.msg.peer.Some? ==> ev.msg.peer.value in w.nodes))
  }

  ghost function NewCasts(from: PeerId, sent: seq<Broadcast>): set<Cast> {
    set i | 0 <= i < |sent| && sent[i].CastVote? :: Cast(from, sent[i].vote)
  }

  ghost predicate MatchesProposal(cfg: Config, n: Node, msg: Message) {
    msg.HandleBlockProposal? && msg.sender.Some? && msg.block.Some? && Matches(cfg, n, msg.block.value)
  }

  ghost function Next(setup: PeerId -> Config, w: World, ev: Event): World
    requires ev.to in w.nodes
  {
    var n, cfg := w.nodes[ev.to], setup(ev.to);
    match ev
    case Submit(_, tx) => w.(nodes := w.nodes[ev.to := React(cfg, n, Submitted(tx))])
    case Deliver(_, msg) =>
      var e := Step(cfg, n, msg);
      World(w.nodes[ev.to := e.node],
            w.casts + NewCasts(ev.to, e.sent),
            w.matched + (if MatchesProposal(cfg, n, msg) then {ev.to} else {}),
            w.finalized + (if e.requests > 0 then {ev.to} else {}))
  }

  /** The world after a run of events, if each was enabled in its turn. */
  ghost function After(setup: PeerId -> Config, w0: World, evs: seq<Event>): Option<World> {
    if evs == [] then Some(w0)
    else
      var ev := evs[|evs| - 1];
      match After(setup, w0, evs[..|evs| - 1])
      case None => None
      case Some(w) => if Enabled(w, ev) then Some(Next(setup, w, ev)) else None
  }

  ghost predicate Initial(w: World) {
    && w.casts == {} && w.matched == {} && w.finalized == {}
    && forall p :: p in w.nodes ==> w.nodes[p].cons.validators == w.nodes.Keys && FreshRound(w.nodes[p].cons)
  }

  ghost predicate HasCast(casts: set<Cast>, p: PeerId, t: VoteType) {
    exists c :: c in casts && c.from == p && c.vote.voteType == t
  }

  /** The distinct nodes that ever broadcast a vote of a kind. */
  ghost function Casters(w: World, t: VoteType): set<PeerId> {
    set p | p in w.nodes && HasCast(w.casts, p, t)
  }

  ghost predicate Inv(w: World) {
    && (forall p :: p in w.nodes ==>
          && w.nodes[p].cons.validators == w.nodes.Keys
          && w.nodes[p].cons.prevotes <= Casters(w, Prevote)
          && w.nodes[p].cons.precommits <= Casters(w, Precommit))
    && Casters(w, Prevote) <= w.matched
    && (Casters(w, Precommit) != {} ==> |Casters(w, Prevote)| >= Quorum(|w.nodes.Keys|))
    && (w.finalized != {} ==> |Casters(w, Precommit)| >= Quorum(|w.nodes.Keys|))
  }

  // ---------- What a step sends ----------

  /** A prevote goes out only on a matching proposal; a precommit only on a
      prevote that brings the prevotes to the threshold. */
  ghost predicate Justified(cfg: Config, n: Node, msg: Message, e: Effect, v: Vote) {
    && (v.voteType.Prevote? ==> MatchesProposal(cfg, n, msg))
    && (v.voteType.Precommit? ==> |e.node.cons.prevotes| >= Quorum(|n.cons.validators|))
  }

  ghost predicate AllJustified(cfg: Config, n: Node, msg: Message, e: Effect) {
    forall i :: 0 <= i < |e.sent| && e.sent[i].CastVote? ==> Justified(cfg, n, msg, e, e.sent[i].vote)
  }

  /** What a step leaves of the votes: no more than it had and the sender's. */
  ghost predicate VotesFrom(n: Node, msg: Message, s: ConsensusState) {
    && (forall p :: p in s.prevotes ==> p in n.cons.prevotes || (p in n.cons.validators && IsVote(msg, p, Prevote)))
    && (forall p :: p in s.precommits ==>
          p in n.cons.precommits || (p in n.cons.validators && IsVote(msg, p, Precommit)))
  }

  predicate IsVote(msg: Message, p: PeerId, t: VoteType) {
    msg.HandleVote? && msg.sender == Some(p) && msg.vote.voteType == t
  }

  lemma {:induction false} PrevoteJustified(cfg: Config, n: Node, p: PeerId, vote: Vote)
    requires vote.voteType.Prevote? && p in n.cons.validators
    ensures var msg := HandleVote(Some(p), vote);
            var e := Step(cfg, n, msg);
            && AllJustified(cfg, n, msg, e) && VotesFrom(n, msg, e.node.cons)
            && e.node.cons.validators == n.cons.validators && e.requests == 0
  {
    var e := OnPrevote(cfg, n, p, vote);
    if e.sent != [] {
      assert p in e.node.cons.prevotes;
      assert |e.node.cons.prevotes| >= 1 by {
        assert {p} <= e.node.cons.prevotes;
        SubsetSize({p}, e.node.cons.prevotes);
      }
    }
  }

  lemma {:induction false} PrecommitJustified(cfg: Config, n: Node, p: PeerId, vote: Vote)
    requires vote.voteType.Precommit? && p in n.cons.validators
    ensures var msg := HandleVote(Some(p), vote);
            var e := Step(cfg, n, msg);
            && AllJustified(cfg, n, msg, e) && VotesFrom(n, msg, e.node.cons)
            && e.node.cons.validators == n.cons.validators
            && (e.requests > 0 ==> |e.node.cons.precommits| >= Quorum(|n.cons.validators|))
  {
    PrecommitShape(cfg, n, p);
    var e := OnPrecommit(cfg, n, p);
    if e.requests > 0 {
      SubsetSize({p}, e.node.cons.precommits);
    }
  }

  /** A step that starts a round casts nothing and clears the votes. */
  ghost predicate StartsAfresh(n: Node, e: Effect) {
    && (forall i :: 0 <= i < |e.sent| ==> !e.sent[i].CastVote?)
    && FreshRound(e.node.cons) && e.node.cons.validators == n.cons.validators && e.requests == 0
  }

  lemma {:induction false} BeginStartsAfresh(cfg: Config, n: Node)
    ensures StartsAfresh(n, BeginRound(cfg, n))
  {
  }

  lemma {:induction false} NewRoundJustified(cfg: Config, n: Node, sender: PeerId, round: Round)
    ensures var e := OnNewRound(cfg, n, sender, round);
            StartsAfresh(n, e) || e == Quiet(n)
  {
    if round > 0 {
      BeginStartsAfresh(cfg, n.(cons := n.cons.(round := round - 1)));
    }
  }

  lemma {:induction false} ValidatorJustified(cfg: Config, n: Node, peer: PeerId)
    requires peer in n.cons.validators
    ensures var e := OnValidator(cfg, n, peer);
            StartsAfresh(n, e) || e == Quiet(n)
  {
    assert n.cons.validators + {peer} == n.cons.validators;
    assert n.(cons := n.cons.(validators := n.cons.validators + {peer})) == n;
    BeginStartsAfresh(cfg, n);
  }

  lemma {:induction false} TickJustified(cfg: Config, n: Node)
    ensures var e := OnTick(cfg, n);
            StartsAfresh(n, e) || e == Quiet(n)
  {
    BeginStartsAfresh(cfg, n);
  }

  lemma {:induction false} RoundStartJustified(cfg: Config, n: Node, msg: Message)
    requires msg.StartNewRound? || msg.TriggerConsensusRound? || msg.Tick? || msg.HandleNewRound? || msg.AddValidator?
    requires msg.AddValidator? && msg.peer.Some? ==> msg.peer.value in n.cons.validators
    ensures var e := Step(cfg, n, msg);
            StartsAfresh(n, e) || e == Quiet(n)
  {
    match msg
    case HandleNewRound(Some(p), round) => NewRoundJustified(cfg, n, p, round);
    case AddValidator(Some(p)) => ValidatorJustified(cfg, n, p);
    case Tick => TickJustified(cfg, n);
    case _ => BeginStartsAfresh(cfg, n);
  }

  lemma {:induction false} StepJustified(cfg: Config, n: Node, msg: Message)
    requires msg.AddValidator? && msg.peer.Some? ==> msg.peer.value in n.cons.validators
    ensures var e := Step(cfg, n, msg);
            && AllJustified(cfg, n, msg, e) && VotesFrom(n, msg, e.node.cons)
            && e.node.cons.validators == n.cons.validators
            && (e.requests > 0 ==> |e.node.cons.precommits| >= Quorum(|n.cons.validators|))
  {
    match msg
    case HandleVote(Some(p), vote) =>
      if p in n.cons.validators {
        if vote.voteType.Prevote? {
          PrevoteJustified(cfg, n, p, vote);
        } else {
          PrecommitJustified(cfg, n, p, vote);
        }
      }
    case StartNewRound => RoundStartJustified(cfg, n, msg);
    case TriggerConsensusRound => RoundStartJustified(cfg, n, msg);
    case Tick => RoundStartJustified(cfg, n, msg);
    case HandleNewRound(_, _) => RoundStartJustified(cfg, n, msg);
    case AddValidator(_) => RoundStartJustified(cfg, n, msg);
    case _ =>
  }

  // ---------- Runs ----------

  lemma {:induction false} CastersGrow(w: World, w': World, t: VoteType)
    requires w.nodes.Keys == w'.nodes.Keys && w.casts <= w'.casts
    ensures Casters(w, t) <= Casters(w', t)
  {
  }

  lemma {:induction false} DeliveredVotes(cfg: Config, w: World, to: PeerId, msg: Message)
    requires Inv(w) && Enabled(w, Deliver(to, msg))
    ensures var s := Step(cfg, w.nodes[to], msg).node.cons;
            && s.validators == w.nodes.Keys
            && s.prevotes <= Casters(w, Prevote) && s.precommits <= Casters(w, Precommit)
  {
    var n, s := w.nodes[to], Step(cfg, w.nodes[to], msg).node.cons;
    StepJustified(cfg, n, msg);
    forall q | q in s.prevotes
      ensures q in Casters(w, Prevote)
    {
      CastOrKept(w, msg, q, Prevote, n.cons.prevotes);
    }
    forall q | q in s.precommits
      ensures q in Casters(w, Precommit)
    {
      CastOrKept(w, msg, q, Precommit, n.cons.precommits);
    }
  }

  ghost predicate VotersIn(nodes: map<PeerId, Node>, w: World) {
    && nodes.Keys == w.nodes.Keys
    && forall p :: p in nodes ==>
         && nodes[p].cons.validators == w.nodes.Keys
         && nodes[p].cons.prevotes <= Casters(w, Prevote)
         && nodes[p].cons.precommits <= Casters(w, Precommit)
  }

  lemma {:induction false} OneReplaced(w: World, to: PeerId, n: Node)
    requires Inv(w) && to in w.nodes
    requires n.cons.validators == w.nodes.Keys
    requires n.cons.prevotes <= Casters(w, Prevote) && n.cons.precommits <= Casters(w, Precommit)
    ensures VotersIn(w.nodes[to := n], w)
  {
  }

  lemma {:induction false} DeliveredVoters(setup: PeerId -> Config, w: World, to: PeerId, msg: Message)
    requires Inv(w) && Enabled(w, Deliver(to, msg))
    ensures VotersIn(Next(setup, w, Deliver(to, msg)).nodes, w)
  {
    DeliveredVotes(setup(to), w, to, msg);
    OneReplaced(w, to, Step(setup(to), w.nodes[to], msg).node);
  }

  lemma {:induction false} CastOrKept(w: World, msg: Message, q: PeerId, t: VoteType, kept: set<PeerId>)
    requires kept <= Casters(w, t)
    requires msg.HandleVote? && msg.sender.Some? ==> Cast(msg.sender.value, msg.vote) in w.casts
    requires q in kept || (IsVote(msg, q, t) && q in w.nodes)
    ensures q in Casters(w, t)
  {
  }

  lemma {:induction false} NewCasters(setup: PeerId -> Config, w: World, to: PeerId, msg: Message, t: VoteType)
    requires to in w.nodes && w.nodes[to].cons.validators == w.nodes.Keys
    requires Enabled(w, Deliver(to, msg))
    ensures var w' := Next(setup, w, Deliver(to, msg));
            var e := Step(setup(to), w.nodes[to], msg);
            && w'.nodes.Keys == w.nodes.Keys
            && Casters(w, t) <= Casters(w', t) <= Casters(w, t) + {to}
            && (to in Casters(w', t) && to !in Casters(w, t) ==>
                  exists v: Vote :: v.voteType == t && Justified(setup(to), w.nodes[to], msg, e, v))
  {
    var w' := Next(setup, w, Deliver(to, msg));
    var e := Step(setup(to), w.nodes[to], msg);
    StepJustified(setup(to), w.nodes[to], msg);
    CastersGrow(w, w', t);
    forall p | p in Casters(w', t) && p !in Casters(w, t)
      ensures p == to
      ensures exists v: Vote :: v.voteType == t && Justified(setup(to), w.nodes[to], msg, e, v)
    {
      var c :| c in w'.casts && c.from == p && c.vote.voteType == t;
      assert c in NewCasts(to, e.sent);
      var i :| 0 <= i < |e.sent| && e.sent[i].CastVote? && c == Cast(to, e.sent[i].vote);
      assert Justified(setup(to), w.nodes[to], msg, e, e.sent[i].vote);
    }
  }

  lemma {:induction false} DeliverPreserves(setup: PeerId -> Config, w: World, to: PeerId, msg: Message)
    requires Inv(w) && Enabled(w, Deliver(to, msg))
    ensures Inv(Next(setup, w, Deliver(to, msg)))
  {
    var w' := Next(setup, w, Deliver(to, msg));
    var n, e := w.nodes[to], Step(setup(to), w.nodes[to], msg);
    StepJustified(setup(to), n, msg);
    DeliveredVoters(setup, w, to, msg);
    NewCasters(setup, w, to, msg, Prevote);
    NewCasters(setup, w, to, msg, Precommit);
    assert w'.nodes[to] == e.node;
    assert Casters(w', Prevote) <= w'.matched;
    if Casters(w', Precommit) != {} {
      if Casters(w, Precommit) == {} {
        assert to in Casters(w', Precommit);
        SubsetSize(e.node.cons.prevotes, Casters(w, Prevote));
      }
      SubsetSize(Casters(w, Prevote), Casters(w', Prevote));
    }
    if w'.finalized != {} {
      if w.finalized == {} {
        SubsetSize(e.node.cons.precommits, Casters(w, Precommit));
      }
      SubsetSize(Casters(w, Precommit), Casters(w', Precommit));
    }
  }

  lemma {:induction false} SubmitPreserves(setup: PeerId -> Config, w: World, to: PeerId, tx: Protocol.Transaction)
    requires Inv(w) && to in w.nodes
    ensures Inv(Next(setup, w, Submit(to, tx)))
  {
    var w' := Next(setup, w, Submit(to, tx));
    assert w'.nodes.Keys == w.nodes.Keys;
    assert w'.nodes[to].cons == w.nodes[to].cons;
    assert Casters(w', Prevote) == Casters(w, Prevote) && Casters(w', Precommit) == Casters(w, Precommit);
  }

  lemma {:induction false} InitialInv(w: World)
    requires Initial(w)
    ensures Inv(w)
  {
    assert Casters(w, Prevote) == {} && Casters(w, Precommit) == {};
  }

  lemma {:induction false} EventPreserves(setup: PeerId -> Config, w: World, ev: Event)
    requires Inv(w) && Enabled(w, ev)
    ensures Inv(Next(setup, w, ev)) && Next(setup, w, ev).nodes.Keys == w.nodes.Keys
  {
    match ev
    case Deliver(to, msg) => DeliverPreserves(setup, w, to, msg);
    case Submit(to, tx) => SubmitPreserves(setup, w, to, tx);
  }

  lemma {:induction false} ReachableInv(setup: PeerId -> Config, w0: World, evs: seq<Event>, w: World)
    requires Initial(w0) && After(setup, w0, evs) == Some(w)
    ensures Inv(w) && w.nodes.Keys == w0.nodes.Keys
    decreases |evs|
  {
    if evs == [] {
      InitialInv(w0);
    } else {
      var init := evs[..|evs| - 1];
      var mid := After(setup, w0, init).value;
      ReachableInv(setup, w0, init, mid);
      EventPreserves(setup, mid, evs[|evs| - 1]);
    }
  }

  /** In every run, a finalisation anywhere means that a quorum of distinct
      validators broadcast precommits, and a quorum of distinct validators
      broadcast prevotes, each after matching a proposal against its own block. */
  lemma {:induction false} FinalizationNeedsQuorums(setup: PeerId -> Config, w0: World, evs: seq<Event>, w: World)
    requires Initial(w0) && After(setup, w0, evs) == Some(w)
    requires w.finalized != {}
    ensures |Casters(w, Precommit)| >= Quorum(|w0.nodes.Keys|)
    ensures |Casters(w, Prevote)| >= Quorum(|w0.nodes.Keys|)
    ensures Casters(w, Prevote) <= w.matched
  {
    ReachableInv(setup, w0, evs, w);
    assert Casters(w, Precommit) != {};
  }

  // ---------- What a prevote says ----------

  lemma {:induction false} Contents(env: ChainEnv, c: Executor.ChainState, p: Option<PeerId>)
    ensures var b := ProposedBlock(env, c, None, p);
            && b.transactions == SortByKey(c.pending, env.id)
            && b.header.height == c.height + 1 && b.header.proposer == p
  {
  }

  lemma {:induction false} SameBlockOnlyIf(env: ChainEnv, c: Executor.ChainState, d: Executor.ChainState,
                                           p: Option<PeerId>, q: Option<PeerId>)
    requires InjectiveOn(c.pending, env.id)
    requires ProposedBlock(env, c, None, p) == ProposedBlock(env, d, None, q)
    ensures p == q && c.height == d.height && multiset(c.pending) == multiset(d.pending)
  {
    Contents(env, c, p);
    Contents(env, d, q);
    SortedSame(c.pending, d.pending, env.id);
  }

  lemma {:induction false} SameBlockIf(env: ChainEnv, c: Executor.ChainState, d: Executor.ChainState,
                                       p: Option<PeerId>)
    requires InjectiveOn(c.pending, env.id)
    requires c.height == d.height && multiset(c.pending) == multiset(d.pending)
    ensures ProposedBlock(env, c, None, p) == ProposedBlock(env, d, None, p)
  {
    assert SortByKey(c.pending, env.id) == SortByKey(d.pending, env.id) by {
      SortedSame(c.pending, d.pending, env.id);
    }
  }

  lemma {:induction false} SameBlock(env: ChainEnv, c: Executor.ChainState, d: Executor.ChainState, p: Option<PeerId>,
                                     q: Option<PeerId>)
    requires InjectiveOn(c.pending, env.id)
    ensures ProposedBlock(env, c, None, p) == ProposedBlock(env, d, None, q) <==>
            p == q && c.height == d.height && multiset(c.pending) == multiset(d.pending)
  {
    if ProposedBlock(env, c, None, p) == ProposedBlock(env, d, None, q) {
      SameBlockOnlyIf(env, c, d, p, q);
    }
    if p == q && c.height == d.height && multiset(c.pending) == multiset(d.pending) {
      SameBlockIf(env, c, d, p);
    }
  }

  /** A node prevotes for a leader's proposal exactly if it expects that leader,
      is at the same height, and has the same transactions pending. */
  lemma {:induction false} PrevoteMeansSamePool(cfg: Config, n: Node, leader: Node, l: PeerId)
    requires InjectiveOn(leader.ledger.chain.pending, cfg.env.id)
    ensures var b := ProposedBlock(cfg.env, leader.ledger.chain, None, Some(l));
            OnProposal(cfg, n, b).sent != [] <==>
            && n.cons.proposer == Some(l)
            && n.ledger.chain.height == leader.ledger.chain.height
            && multiset(n.ledger.chain.pending) == multiset(leader.ledger.chain.pending)
  {
    SameBlock(cfg.env, leader.ledger.chain, n.ledger.chain, Some(l), n.cons.proposer);
  }

  // ---------- Quorums ----------

  ghost predicate QuorumsIntersect(vs: set<PeerId>) {
    forall a, b :: a <= vs && b <= vs && |a| >= Quorum(|vs|) && |b| >= Quorum(|vs|) ==> a * b != {}
  }

  lemma {:induction false} Split(vs: set<PeerId>, k: nat) returns (a: set<PeerId>)
    requires k <= |vs|
    ensures a <= vs && |a| == k
  {
    if k == 0 {
      a := {};
    } else {
      var p :| p in vs;
      var rest := Split(vs - {p}, k - 1);
      a := rest + {p};
    }
  }

  /** Any two quorums share a validator, except among two or four validators. */
  lemma {:induction false} QuorumIntersection(vs: set<PeerId>)
    ensures QuorumsIntersect(vs) <==> |vs| != 2 && |vs| != 4
  {
    if |vs| == 2 || |vs| == 4 {
      var a := Split(vs, |vs| / 2);
      var b := vs - a;
      UnionSize(a, b);
      assert a + b == vs;
      assert a * b == {};
    } else {
      forall a, b | a <= vs && b <= vs && |a| >= Quorum(|vs|) && |b| >= Quorum(|vs|)
        ensures a * b != {}
      {
        if a * b == {} {
          UnionSize(a, b);
          SubsetSize(a + b, vs);
        }
      }
    }
  }
}
