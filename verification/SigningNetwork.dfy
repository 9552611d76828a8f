/** Honest nodes signing over a network that may delay, reorder and lose
    messages, and delivers none twice. Sessions may overlap and overwrite each
    other; session ids are never drawn twice. */
module SigningNetwork {
  import opened Prelude
  import opened Bytes
  import opened Sets
  import opened Chain
  import opened Signing

  datatype Envelope = Envelope(from: PeerId, to: PeerId, msg: Message)

  /** What a session was started with. */
  datatype Session = Session(coordinator: PeerId, message: Bytes, peers: seq<PeerId>)

  /** Everything ever sent, the places of what was delivered, and what the
      sessions, packages and aggregations were. */
  datatype World = World(nodes: map<PeerId, SigningState>, sent: seq<Envelope>, delivered: set<nat>,
                         sessions: map<SignId, Session>, packages: map<SignId, SigningPackage>,
                         aggregations: seq<Aggregation>)

  datatype Event =
    | Begin(node: PeerId, text: Option<Bytes>, signId: SignId, chosen: seq<PeerId>)
    | Arrive(index: nat)

  function ConfigOf(p: PeerId, min: nat): Config { Config(p, Some(min), min) }

  ghost predicate Enabled(w: World, min: nat, ev: Event) {
    match ev
    case Begin(p, _, id, chosen) => p in w.nodes && id !in w.sessions && Draws(w.nodes[p].peers, Required(min), chosen)
    case Arrive(i) => i < |w.sent| && i !in w.delivered && w.sent[i].to in w.nodes
  }

  function Wrap(from: PeerId, out: seq<Outgoing>): (r: seq<Envelope>)
    ensures |r| == |out|
    ensures forall i :: 0 <= i < |out| ==> r[i] == Envelope(from, out[i].to, out[i].msg)
  {
    seq(|out|, i requires 0 <= i < |out| => Envelope(from, out[i].to, out[i].msg))
  }

  ghost function AfterBegin(w: World, min: nat, p: PeerId, text: Option<Bytes>, id: SignId, chosen: seq<PeerId>): World
    requires p in w.nodes
  {
    var e := OnStart(ConfigOf(p, min), w.nodes[p], text, id, chosen);
    if !e.ok then w
    else
      w.(nodes := w.nodes[p := e.s], sent := w.sent + Wrap(p, e.out),
      sessions := w.sessions[id := Session(p, text.value, chosen)])
  }

  ghost function AfterArrive(w: World, min: nat, i: nat): World
    requires i < |w.sent| && w.sent[i].to in w.nodes
  {
    var m := w.sent[i];
    var e := OnMessage(ConfigOf(m.to, min), w.nodes[m.to], m.from, m.msg);
    World(w.nodes[m.to := e.s], w.sent + Wrap(m.to, e.out), w.delivered + {i}, w.sessions,
          if e.built.None? then w.packages else w.packages[m.msg.signId := e.built.value],
          if e.aggregated.None? then w.aggregations else w.aggregations + [e.aggregated.value])
  }

  ghost function Next(w: World, min: nat, ev: Event): World
    requires Enabled(w, min, ev)
  {
    match ev
    case Begin(p, text, id, chosen) => AfterBegin(w, min, p, text, id, chosen)
    case Arrive(i) => AfterArrive(w, min, i)
  }

  ghost function After(w0: World, min: nat, evs: seq<Event>): Option<World> {
    if evs == [] then Some(w0)
    else
      var ev := evs[|evs| - 1];
      match After(w0, min, evs[..|evs| - 1])
      case None => None
      case Some(w) => if Enabled(w, min, ev) then Some(Next(w, min, ev)) else None
  }

  ghost predicate Initial(w: World) {
    && w.sent == [] && w.delivered == {} && w.sessions == map[] && w.packages == map[] && w.aggregations == []
    && forall p :: p in w.nodes ==> w.nodes[p].active.None? && p !in w.nodes[p].peers
  }

  // ---------- What the messages in the network say ----------

  function Signers(s: Session): set<PeerId> {
    {s.coordinator} + set i | 0 <= i < |s.peers| :: s.peers[i]
  }

  /** Each message belongs to a session, goes between its members, and carries
      what the session is about. */
  ghost predicate Honest(w: World, m: Envelope) {
    var id := m.msg.signId;
    && id in w.sessions
    && match m.msg
       case SignRequest(_, message) =>
         m.from == w.sessions[id].coordinator && m.to in w.sessions[id].peers && message == w.sessions[id].message
       case Commitments(_, _) => m.from in w.sessions[id].peers && Asked(w, id, m.from)
       case SignPackage(_, package) => id in w.packages && package == Some(w.packages[id])
       case SignatureShare(_, share) =>
         && id in w.packages && share.Some? && share.value.signer == m.from && share.value.package == w.packages[id]
         && m.from in w.packages[id].commitments
         && w.packages[id].commitments[m.from] == Commitment(share.value.nonce)
  }

  /** The request of session `id` has reached `q`. */
  ghost predicate Asked(w: World, id: SignId, q: PeerId) {
    exists i :: i in w.delivered && i < |w.sent| && IsRequest(w.sent[i], id, q)
  }

  predicate IsRequest(m: Envelope, id: SignId, q: PeerId) {
    m.msg.SignRequest? && m.msg.signId == id && m.to == q
  }

  predicate IsCommitment(m: Envelope, id: SignId, q: PeerId) {
    m.msg.Commitments? && m.msg.signId == id && m.from == q
  }

  ghost predicate OneRequest(w: World) {
    forall i, j, id, q :: 0 <= i < j < |w.sent| && IsRequest(w.sent[i], id, q) ==> !IsRequest(w.sent[j], id, q)
  }

  ghost predicate OneCommitment(w: World) {
    forall i, j, id, q :: 0 <= i < j < |w.sent| && IsCommitment(w.sent[i], id, q) ==> !IsCommitment(w.sent[j], id, q)
  }

  /** A commitment the coordinator holds has been delivered to it. */
  ghost predicate Collected(w: World, id: SignId, q: PeerId) {
    exists i :: i in w.delivered && i < |w.sent| && IsCommitment(w.sent[i], id, q)
  }

  ghost predicate ShareFits(package: SigningPackage, q: PeerId, sh: Share) {
    && q in package.commitments && package.commitments[q] == Commitment(sh.nonce)
    && sh.package == package && sh.signer == q
  }

  /** What holds of a coordinator and its session. */
  ghost predicate CoordinatorInv(w: World, min: nat, p: PeerId, a: Active) {
    && a.signId in w.sessions && w.sessions[a.signId] == Session(p, a.message, a.selectedPeers)
    && a.commitments.Keys <= Signers(w.sessions[a.signId])
    && p in a.commitments && a.commitments[p] == Commitment(a.nonce)
    && (forall q :: q in a.commitments && q != p ==> Collected(w, a.signId, q))
    && match a.package
       case None => a.signId !in w.packages && a.shares == map[]
       case Some(package) =>
         && a.signId in w.packages && w.packages[a.signId] == package && package.message == a.message
         && package.commitments == a.commitments && a.commitments.Keys == Signers(w.sessions[a.signId])
         && forall q :: q in a.shares ==> ShareFits(package, q, a.shares[q])
  }

  ghost predicate NodeInv(w: World, min: nat, p: PeerId)
    requires p in w.nodes
  {
    && p !in w.nodes[p].peers
    && (w.nodes[p].active.Some? && w.nodes[p].active.value.isCoordinator ==>
          w.nodes[p].hasKeys && CoordinatorInv(w, min, p, w.nodes[p].active.value))
  }

  ghost predicate SessionInv(s: Session, min: nat) {
    && |Signers(s)| == Required(min) + 1 && s.coordinator !in s.peers
  }

  /** An aggregation is over the shares of exactly the package's signers, each
      made on that package with the nonce committed in it, for the message of
      the session. */
  ghost predicate Sound(w: World, min: nat, g: Aggregation) {
    && g.signId in w.sessions && g.package.message == w.sessions[g.signId].message
    && g.shares.Keys == g.package.commitments.Keys == Signers(w.sessions[g.signId])
    && |g.shares.Keys| == min
    && forall q :: q in g.shares ==> ShareFits(g.package, q, g.shares[q])
  }

  ghost predicate Messages(w: World) {
    (forall i :: 0 <= i < |w.sent| ==> Honest(w, w.sent[i])) && OneRequest(w) && OneCommitment(w)
  }

  ghost predicate Nodes(w: World, min: nat) {
    forall p :: p in w.nodes ==> NodeInv(w, min, p)
  }

  ghost predicate Records(w: World, min: nat) {
    && (forall id :: id in w.sessions ==> SessionInv(w.sessions[id], min))
    && (forall id :: id in w.packages ==> id in w.sessions)
    && (forall g :: g in w.aggregations ==> Sound(w, min, g))
  }

  ghost predicate Inv(w: World, min: nat) {
    Messages(w) && Nodes(w, min) && Records(w, min)
  }

  // ---------- Growth ----------

  /** `w'` adds to the record of `w` and takes nothing back. */
  ghost predicate Extends(w: World, w': World) {
    && |w.sent| <= |w'.sent| && (forall i :: 0 <= i < |w.sent| ==> w'.sent[i] == w.sent[i])
    && w.delivered <= w'.delivered
    && (forall id :: id in w.sessions ==> id in w'.sessions && w'.sessions[id] == w.sessions[id])
    && (forall id :: id in w.packages ==> id in w'.packages && w'.packages[id] == w.packages[id])
  }

  lemma {:induction false} AskedExtends(w: World, w': World, id: SignId, q: PeerId)
    requires Extends(w, w') && Asked(w, id, q)
    ensures Asked(w', id, q)
  {
    var i :| i in w.delivered && i < |w.sent| && IsRequest(w.sent[i], id, q);
    assert i in w'.delivered && IsRequest(w'.sent[i], id, q);
  }

  lemma {:induction false} HonestExtends(w: World, w': World, m: Envelope)
    requires Extends(w, w') && Honest(w, m)
    ensures Honest(w', m)
  {
    if m.msg.Commitments? {
      AskedExtends(w, w', m.msg.signId, m.from);
    }
  }

  lemma {:induction false} CollectedExtends(w: World, w': World, id: SignId, q: PeerId)
    requires Extends(w, w') && Collected(w, id, q)
    ensures Collected(w', id, q)
  {
    var i :| i in w.delivered && i < |w.sent| && IsCommitment(w.sent[i], id, q);
    assert i in w'.delivered && IsCommitment(w'.sent[i], id, q);
  }

  lemma {:induction false} CoordinatorExtends(w: World, w': World, min: nat, p: PeerId, a: Active)
    requires Extends(w, w') && CoordinatorInv(w, min, p, a)
    requires a.package.None? ==> a.signId !in w'.packages
    ensures CoordinatorInv(w', min, p, a)
  {
    forall q | q in a.commitments && q != p
      ensures Collected(w', a.signId, q)
    {
      CollectedExtends(w, w', a.signId, q);
    }
  }

  lemma {:induction false} MessagesKept(w: World, w': World)
    requires Messages(w) && Extends(w, w')
    requires forall i :: |w.sent| <= i < |w'.sent| ==> Honest(w', w'.sent[i])
    requires OneRequest(w') && OneCommitment(w')
    ensures Messages(w')
  {
    forall i | 0 <= i < |w'.sent|
      ensures Honest(w', w'.sent[i])
    {
      if i < |w.sent| {
        HonestExtends(w, w', w.sent[i]);
      }
    }
  }

  lemma {:induction false} NodesKept(w: World, w': World, min: nat, p: PeerId)
    requires Nodes(w, min) && Extends(w, w') && p in w.nodes
    requires w'.nodes.Keys == w.nodes.Keys && forall q :: q in w.nodes && q != p ==> w'.nodes[q] == w.nodes[q]
    requires NodeInv(w', min, p)
    requires forall id :: id in w'.packages && id !in w.packages ==>
               id in w'.sessions && w'.sessions[id].coordinator == p
    ensures Nodes(w', min)
  {
    forall q | q in w'.nodes
      ensures NodeInv(w', min, q)
    {
      if q != p {
        assert NodeInv(w, min, q);
        if w.nodes[q].active.Some? && w.nodes[q].active.value.isCoordinator {
          CoordinatorExtends(w, w', min, q, w.nodes[q].active.value);
        }
      }
    }
  }

  lemma {:induction false} RecordsKept(w: World, w': World, min: nat)
    requires Records(w, min) && Extends(w, w')
    requires forall id :: id in w'.sessions && id !in w.sessions ==> SessionInv(w'.sessions[id], min)
    requires forall id :: id in w'.packages && id !in w.packages ==> id in w'.sessions
    requires forall g :: g in w'.aggregations ==> g in w.aggregations || Sound(w', min, g)
    ensures Records(w', min)
  {
    forall g | g in w'.aggregations
      ensures Sound(w', min, g)
    {
      if g in w.aggregations {
        assert Sound(w, min, g);
      }
    }
  }

  // ---------- Starting a session ----------

  lemma {:induction false} DrawnSize(peers: set<PeerId>, n: nat, chosen: seq<PeerId>)
    requires Draws(peers, n, chosen)
    ensures |set i | 0 <= i < |chosen| :: chosen[i]| == n
    decreases n
  {
    var all := set i | 0 <= i < |chosen| :: chosen[i];
    if n == 0 {
      assert all == {};
    } else {
      var init := chosen[..n - 1];
      var some := set i | 0 <= i < |init| :: init[i];
      assert Draws(peers, n - 1, init);
      DrawnSize(peers, n - 1, init);
      assert all == some + {chosen[n - 1]} by {
        forall q | q in all
          ensures q in some + {chosen[n - 1]}
        {
          var i :| 0 <= i < n && chosen[i] == q;
          assert i < n - 1 ==> init[i] == q;
        }
        forall q | q in some
          ensures q in all
        {
          var i :| 0 <= i < n - 1 && init[i] == q;
          assert chosen[i] == q;
        }
      }
      assert chosen[n - 1] !in some;
    }
  }

  lemma {:induction false} NewSession(peers: set<PeerId>, min: nat, p: PeerId, message: Bytes, chosen: seq<PeerId>)
    requires Draws(peers, Required(min), chosen) && p !in peers
    ensures SessionInv(Session(p, message, chosen), min)
  {
    var drawn := set i | 0 <= i < |chosen| :: chosen[i];
    DrawnSize(peers, Required(min), chosen);
    assert p !in drawn;
    assert Signers(Session(p, message, chosen)) == {p} + drawn;
  }

  /** The requests of a new session. */
  lemma {:induction false} BeginSends(w: World, w': World, p: PeerId, message: Bytes, id: SignId, chosen: seq<PeerId>)
    requires w'.sent == w.sent + Wrap(p, ToAll(chosen, SignRequest(id, message)))
    requires id in w'.sessions && w'.sessions[id] == Session(p, message, chosen)
    ensures forall i :: |w.sent| <= i < |w'.sent| ==>
              w'.sent[i] == Envelope(p, chosen[i - |w.sent|], SignRequest(id, message)) && Honest(w', w'.sent[i])
  {
  }

  lemma {:induction false} BeginOnce(w: World, w': World, p: PeerId, message: Bytes, id: SignId, chosen: seq<PeerId>,
                                     peers: set<PeerId>)
    requires OneRequest(w) && OneCommitment(w)
    requires forall i :: 0 <= i < |w.sent| ==> w.sent[i].msg.signId != id
    requires w'.sent == w.sent + Wrap(p, ToAll(chosen, SignRequest(id, message)))
    requires Draws(peers, |chosen|, chosen)
    ensures OneRequest(w') && OneCommitment(w')
  {
    var n := |w.sent|;
    forall i | n <= i < |w'.sent|
      ensures w'.sent[i] == Envelope(p, chosen[i - n], SignRequest(id, message))
    {
    }
    forall i, j, d, q | 0 <= i < j < |w'.sent| && IsRequest(w'.sent[i], d, q)
      ensures !IsRequest(w'.sent[j], d, q)
    {
      if j < n {
        assert IsRequest(w.sent[i], d, q);
      } else if i < n {
        assert w.sent[i].msg.signId == d;
      }
    }
    forall i, j, d, q | 0 <= i < j < |w'.sent| && IsCommitment(w'.sent[i], d, q)
      ensures !IsCommitment(w'.sent[j], d, q)
    {
      if j < n {
        assert IsCommitment(w.sent[i], d, q);
      }
    }
  }

  lemma {:induction false} BeginNode(w': World, min: nat, p: PeerId, a: Active)
    requires a.isCoordinator && a.package.None? && a.shares == map[] && a.commitments == map[p := Commitment(a.nonce)]
    requires a.signId in w'.sessions && w'.sessions[a.signId] == Session(p, a.message, a.selectedPeers)
    requires a.signId !in w'.packages
    ensures CoordinatorInv(w', min, p, a)
  {
  }

  lemma {:induction false} IdsKnown(w: World, min: nat, id: SignId)
    requires Inv(w, min) && id !in w.sessions
    ensures forall i :: 0 <= i < |w.sent| ==> w.sent[i].msg.signId != id
    ensures id !in w.packages
  {
    forall i | 0 <= i < |w.sent|
      ensures w.sent[i].msg.signId != id
    {
      assert Honest(w, w.sent[i]);
    }
  }

  /** The world after `p`, now in state `s`, has started session `id`. */
  ghost predicate Begun(w: World, w': World, p: PeerId, message: Bytes, id: SignId, chosen: seq<PeerId>,
                        s: SigningState) {
    && w'.nodes == w.nodes[p := s]
    && w'.sent == w.sent + Wrap(p, ToAll(chosen, SignRequest(id, message)))
    && w'.sessions == w.sessions[id := Session(p, message, chosen)]
    && w'.delivered == w.delivered && w'.packages == w.packages && w'.aggregations == w.aggregations
  }

  lemma {:induction false} BegunMessages(w: World, w': World, min: nat, p: PeerId, message: Bytes, id: SignId,
                                         chosen: seq<PeerId>, s: SigningState)
    requires Inv(w, min) && id !in w.sessions && Begun(w, w', p, message, id, chosen, s)
    requires p in w.nodes && Draws(w.nodes[p].peers, |chosen|, chosen)
    ensures Extends(w, w') && Messages(w')
  {
    IdsKnown(w, min, id);
    BeginSends(w, w', p, message, id, chosen);
    BeginOnce(w, w', p, message, id, chosen, w.nodes[p].peers);
    MessagesKept(w, w');
  }

  lemma {:induction false} BegunKeeps(w: World, w': World, min: nat, p: PeerId, message: Bytes, id: SignId,
                                      chosen: seq<PeerId>, s: SigningState, a: Active)
    requires Inv(w, min) && id !in w.sessions && Begun(w, w', p, message, id, chosen, s)
    requires p in w.nodes && Draws(w.nodes[p].peers, Required(min), chosen)
    requires s.hasKeys && s.peers == w.nodes[p].peers && s.active == Some(a)
    requires a == Active(id, message, chosen, a.nonce, map[p := Commitment(a.nonce)], map[], None, true)
    ensures Inv(w', min)
  {
    assert NodeInv(w, min, p);
    assert SessionInv(Session(p, message, chosen), min) by {
      NewSession(w.nodes[p].peers, min, p, message, chosen);
    }
    assert Extends(w, w') && Messages(w') by {
      BegunMessages(w, w', min, p, message, id, chosen, s);
    }
    assert Nodes(w', min) by {
      IdsKnown(w, min, id);
      BeginNode(w', min, p, a);
      NodesKept(w, w', min, p);
    }
    assert Records(w', min) by {
      RecordsKept(w, w', min);
    }
  }

  lemma {:induction false} BeginPreserves(w: World, min: nat, p: PeerId, text: Option<Bytes>, id: SignId,
                                          chosen: seq<PeerId>)
    requires Inv(w, min) && Enabled(w, min, Begin(p, text, id, chosen))
    ensures Inv(AfterBegin(w, min, p, text, id, chosen), min)
  {
    var e := OnStart(ConfigOf(p, min), w.nodes[p], text, id, chosen);
    if e.ok {
      BegunKeeps(w, AfterBegin(w, min, p, text, id, chosen), min, p, text.value, id, chosen, e.s, e.s.active.value);
    }
  }

  // ---------- Deliveries ----------

  /** A delivery that builds and aggregates nothing. */
  ghost function Handled(w: World, i: nat, s: SigningState, out: seq<Outgoing>): World
    requires i < |w.sent| && w.sent[i].to in w.nodes
  {
    w.(nodes := w.nodes[w.sent[i].to := s], sent := w.sent + Wrap(w.sent[i].to, out), delivered := w.delivered + {i})
  }

  /** The node at hand stays in order: nothing changed for it, or it no longer
      coordinates. */
  lemma {:induction false} QuietNode(w: World, w': World, min: nat, p: PeerId)
    requires Inv(w, min) && Extends(w, w') && p in w.nodes && p in w'.nodes && w'.packages == w.packages
    requires w'.nodes[p].peers == w.nodes[p].peers
    requires w'.nodes[p] == w.nodes[p] || w'.nodes[p].active.None? || !w'.nodes[p].active.value.isCoordinator
    ensures NodeInv(w', min, p)
  {
    assert NodeInv(w, min, p);
    if w'.nodes[p].active.Some? && w'.nodes[p].active.value.isCoordinator {
      CoordinatorExtends(w, w', min, p, w.nodes[p].active.value);
    }
  }

  /** What is new in the network is in order. */
  ghost predicate SendsWell(w: World, w': World) {
    (forall j :: |w.sent| <= j < |w'.sent| ==> Honest(w', w'.sent[j])) && OneRequest(w') && OneCommitment(w')
  }

  lemma {:induction false} HandledPreserves(w: World, min: nat, i: nat, s: SigningState, out: seq<Outgoing>)
    requires Inv(w, min) && i < |w.sent| && w.sent[i].to in w.nodes
    requires SendsWell(w, Handled(w, i, s, out)) && NodeInv(Handled(w, i, s, out), min, w.sent[i].to)
    ensures Inv(Handled(w, i, s, out), min)
  {
    var w' := Handled(w, i, s, out);
    MessagesKept(w, w');
    NodesKept(w, w', min, w.sent[i].to);
    RecordsKept(w, w', min);
  }

  /** Uniqueness is kept by whatever is neither a request nor a commitment. */
  lemma {:induction false} OthersKeepOnce(w: World, w': World)
    requires OneRequest(w) && OneCommitment(w)
    requires |w.sent| <= |w'.sent| && forall i :: 0 <= i < |w.sent| ==> w'.sent[i] == w.sent[i]
    requires forall i :: |w.sent| <= i < |w'.sent| ==> !w'.sent[i].msg.SignRequest? && !w'.sent[i].msg.Commitments?
    ensures OneRequest(w') && OneCommitment(w')
  {
    forall i, j, d, q | 0 <= i < j < |w'.sent| && IsRequest(w'.sent[i], d, q)
      ensures !IsRequest(w'.sent[j], d, q)
    {
      if j < |w.sent| {
        assert IsRequest(w.sent[i], d, q);
      }
    }
    forall i, j, d, q | 0 <= i < j < |w'.sent| && IsCommitment(w'.sent[i], d, q)
      ensures !IsCommitment(w'.sent[j], d, q)
    {
      if j < |w.sent| {
        assert IsCommitment(w.sent[i], d, q);
      }
    }
  }

  lemma {:induction false} AnswerKeepsOnce(w: World, w': World, m: Envelope)
    requires OneRequest(w) && OneCommitment(w)
    requires w'.sent == w.sent + [m] && m.msg.Commitments?
    requires forall j :: 0 <= j < |w.sent| ==> !IsCommitment(w.sent[j], m.msg.signId, m.from)
    ensures OneRequest(w') && OneCommitment(w')
  {
    var n := |w.sent|;
    forall i, j, d, q | 0 <= i < j < |w'.sent| && IsRequest(w'.sent[i], d, q)
      ensures !IsRequest(w'.sent[j], d, q)
    {
      if j < n {
        assert IsRequest(w.sent[i], d, q);
      }
    }
    forall i, j, d, q | 0 <= i < j < |w'.sent| && IsCommitment(w'.sent[i], d, q)
      ensures !IsCommitment(w'.sent[j], d, q)
    {
      if j < n {
        assert IsCommitment(w.sent[i], d, q);
      } else {
        assert w'.sent[i] == w.sent[i] && w'.sent[j] == m;
      }
    }
  }

  /** Nobody has answered a request that has not arrived. */
  lemma {:induction false} NotYetAnswered(w: World, i: nat)
    requires Messages(w) && i < |w.sent| && i !in w.delivered && w.sent[i].msg.SignRequest?
    ensures forall j :: 0 <= j < |w.sent| ==> !IsCommitment(w.sent[j], w.sent[i].msg.signId, w.sent[i].to)
  {
    var id, q := w.sent[i].msg.signId, w.sent[i].to;
    assert IsRequest(w.sent[i], id, q);
    forall k | k in w.delivered && k < |w.sent|
      ensures !IsRequest(w.sent[k], id, q)
    {
      assert k < i || i < k;
    }
    forall j | 0 <= j < |w.sent|
      ensures !IsCommitment(w.sent[j], id, q)
    {
      assert Honest(w, w.sent[j]);
    }
  }

  /** A request is answered by one message, and leaves no coordinator. */
  lemma {:induction false} RequestEffect(cfg: Config, s: SigningState, from: PeerId, id: SignId, message: Bytes)
    ensures var e := OnSignRequest(cfg, s, from, id, message);
            && |e.out| == 1 && e.out[0].msg.Commitments? && e.out[0].msg.signId == id && e.s.peers == s.peers
            && (e.s == s || (e.s.active.Some? && !e.s.active.value.isCoordinator))
            && e.built.None? && e.aggregated.None?
  {
  }

  lemma {:induction false} RequestSends(w: World, i: nat, s: SigningState, out: seq<Outgoing>)
    requires Messages(w) && i < |w.sent| && w.sent[i].to in w.nodes && i !in w.delivered && w.sent[i].msg.SignRequest?
    requires |out| == 1 && out[0].msg.Commitments? && out[0].msg.signId == w.sent[i].msg.signId
    ensures SendsWell(w, Handled(w, i, s, out))
  {
    var m, w' := w.sent[i], Handled(w, i, s, out);
    var answer := Envelope(m.to, out[0].to, out[0].msg);
    assert w'.sent == w.sent + [answer];
    RequestAnswered(w, w', i, answer);
  }

  lemma {:induction false} RequestNode(w: World, min: nat, i: nat, s: SigningState, out: seq<Outgoing>)
    requires Inv(w, min) && i < |w.sent| && w.sent[i].to in w.nodes
    requires s.peers == w.nodes[w.sent[i].to].peers
    requires s == w.nodes[w.sent[i].to] || s.active.None? || !s.active.value.isCoordinator
    ensures NodeInv(Handled(w, i, s, out), min, w.sent[i].to)
  {
    QuietNode(w, Handled(w, i, s, out), min, w.sent[i].to);
  }

  lemma {:induction false} RequestPreserves(w: World, min: nat, i: nat)
    requires Inv(w, min) && Enabled(w, min, Arrive(i)) && w.sent[i].msg.SignRequest?
    ensures Inv(AfterArrive(w, min, i), min)
  {
    var m := w.sent[i];
    var e := OnSignRequest(ConfigOf(m.to, min), w.nodes[m.to], m.from, m.msg.signId, m.msg.message);
    RequestEffect(ConfigOf(m.to, min), w.nodes[m.to], m.from, m.msg.signId, m.msg.message);
    assert AfterArrive(w, min, i) == Handled(w, i, e.s, e.out);
    RequestSends(w, i, e.s, e.out);
    RequestNode(w, min, i, e.s, e.out);
    HandledPreserves(w, min, i, e.s, e.out);
  }

  lemma {:induction false} CommitmentHonest(w: World, w': World, i: nat, answer: Envelope)
    requires i < |w.sent| && i < |w'.sent| && w'.sent[i] == w.sent[i] && i in w'.delivered
    requires Honest(w, w.sent[i]) && w.sent[i].msg.SignRequest? && w'.sessions == w.sessions
    requires answer.from == w.sent[i].to && answer.msg.Commitments? && answer.msg.signId == w.sent[i].msg.signId
    ensures Honest(w', answer)
  {
    assert IsRequest(w'.sent[i], answer.msg.signId, answer.from);
  }

  lemma {:induction false} RequestAnswered(w: World, w': World, i: nat, answer: Envelope)
    requires Messages(w) && i < |w.sent| && i !in w.delivered && w.sent[i].msg.SignRequest?
    requires answer.from == w.sent[i].to && answer.msg.Commitments? && answer.msg.signId == w.sent[i].msg.signId
    requires w'.sent == w.sent + [answer] && i in w'.delivered && w'.sessions == w.sessions
    ensures SendsWell(w, w')
  {
    assert OneRequest(w') && OneCommitment(w') by {
      NotYetAnswered(w, i);
      AnswerKeepsOnce(w, w', answer);
    }
    assert Honest(w', answer) by {
      assert Honest(w, w.sent[i]);
      CommitmentHonest(w, w', i, answer);
    }
  }

  /** What is sent on a package: nothing, or a share on it. */
  lemma {:induction false} AnswerOut(cfg: Config, s: SigningState, from: PeerId, id: SignId, package: SigningPackage)
    ensures var out := OnSignPackage(cfg, s, from, id, Some(package)).out;
            || out == []
            || (exists nonce :: && out == [Outgoing(from, SignatureShare(id, Some(Share(cfg.me, nonce, package))))]
                                && cfg.me in package.commitments && package.commitments[cfg.me] == Commitment(nonce))
  {
    if s.active.Some? && Sign(cfg, s.active.value.nonce, package).Some? {
      var nonce := s.active.value.nonce;
      assert Sign(cfg, nonce, package) == Some(Share(cfg.me, nonce, package));
    }
  }

  /** A share on the session's package, with the nonce committed in it. */
  lemma {:induction false} ShareHonest(w: World, w': World, id: SignId, from: PeerId, to: PeerId, nonce: Nonce)
    requires id in w.sessions && id in w.packages && from in w.packages[id].commitments
    requires w.packages[id].commitments[from] == Commitment(nonce)
    requires w'.sessions == w.sessions && w'.packages == w.packages
    ensures Honest(w', Envelope(from, to, SignatureShare(id, Some(Share(from, nonce, w.packages[id])))))
  {
  }

  lemma {:induction false} AnswerHonest(w: World, i: nat, s: SigningState, out: seq<Outgoing>, package: SigningPackage,
                                        nonce: Nonce)
    requires i < |w.sent| && w.sent[i].to in w.nodes && Honest(w, w.sent[i])
    requires w.sent[i].msg == SignPackage(w.sent[i].msg.signId, Some(package))
    requires var m := w.sent[i];
             && out == [Outgoing(m.from, SignatureShare(m.msg.signId, Some(Share(m.to, nonce, package))))]
             && m.to in package.commitments && package.commitments[m.to] == Commitment(nonce)
    ensures var w' := Handled(w, i, s, out);
            forall j :: |w.sent| <= j < |w'.sent| ==> Honest(w', w'.sent[j]) && w'.sent[j].msg.SignatureShare?
  {
    var m, w' := w.sent[i], Handled(w, i, s, out);
    assert forall j :: |w.sent| <= j < |w'.sent| ==> w'.sent[j] == Envelope(m.to, m.from, out[0].msg);
    ShareHonest(w, w', m.msg.signId, m.to, m.from, nonce);
  }

  lemma {:induction false} PackageAnswered(w: World, min: nat, i: nat)
    requires Inv(w, min) && i < |w.sent| && w.sent[i].to in w.nodes && w.sent[i].msg.SignPackage?
    ensures var m := w.sent[i];
            var e := OnSignPackage(ConfigOf(m.to, min), w.nodes[m.to], m.from, m.msg.signId, m.msg.package);
            var w' := Handled(w, i, e.s, e.out);
            forall j :: |w.sent| <= j < |w'.sent| ==> Honest(w', w'.sent[j]) && w'.sent[j].msg.SignatureShare?
  {
    var m := w.sent[i];
    assert Honest(w, m);
    var id, package := m.msg.signId, m.msg.package.value;
    var e := OnSignPackage(ConfigOf(m.to, min), w.nodes[m.to], m.from, id, Some(package));
    AnswerOut(ConfigOf(m.to, min), w.nodes[m.to], m.from, id, package);
    if e.out != [] {
      var nonce :| && e.out == [Outgoing(m.from, SignatureShare(id, Some(Share(m.to, nonce, package))))]
                   && m.to in package.commitments && package.commitments[m.to] == Commitment(nonce);
      AnswerHonest(w, i, e.s, e.out, package, nonce);
    }
  }

  lemma {:induction false} PackageHandled(w: World, min: nat, i: nat)
    requires i < |w.sent| && w.sent[i].to in w.nodes && w.sent[i].msg.SignPackage?
    ensures var m := w.sent[i];
            var e := OnSignPackage(ConfigOf(m.to, min), w.nodes[m.to], m.from, m.msg.signId, m.msg.package);
            && AfterArrive(w, min, i) == Handled(w, i, e.s, e.out)
            && (e.s == w.nodes[m.to] || e.s == w.nodes[m.to].(active := None))
  {
  }

  lemma {:induction false} PackagePreserves(w: World, min: nat, i: nat)
    requires Inv(w, min) && Enabled(w, min, Arrive(i)) && w.sent[i].msg.SignPackage?
    ensures Inv(AfterArrive(w, min, i), min)
  {
    var m := w.sent[i];
    var e := OnSignPackage(ConfigOf(m.to, min), w.nodes[m.to], m.from, m.msg.signId, m.msg.package);
    PackageHandled(w, min, i);
    PackageAnswered(w, min, i);
    AnsweredPreserves(w, min, i, e.s, e.out);
  }

  /** A delivery answered by a share, or not at all, by a node that has not
      changed or has dropped its session. */
  lemma {:induction false} AnsweredPreserves(w: World, min: nat, i: nat, s: SigningState, out: seq<Outgoing>)
    requires Inv(w, min) && i < |w.sent| && w.sent[i].to in w.nodes
    requires s == w.nodes[w.sent[i].to] || s == w.nodes[w.sent[i].to].(active := None)
    requires var w' := Handled(w, i, s, out);
             forall j :: |w.sent| <= j < |w'.sent| ==> Honest(w', w'.sent[j]) && w'.sent[j].msg.SignatureShare?
    ensures Inv(Handled(w, i, s, out), min)
  {
    var w' := Handled(w, i, s, out);
    OthersKeepOnce(w, w');
    QuietNode(w, w', min, w.sent[i].to);
    HandledPreserves(w, min, i, s, out);
  }

  // ---------- Collecting commitments ----------

  /** The commitment now arriving is a new one, and the package is not built. */
  lemma {:induction false} CommitmentIsNew(w: World, min: nat, i: nat, p: PeerId, a: Active)
    requires Inv(w, min) && i < |w.sent| && i !in w.delivered && w.sent[i].msg.Commitments?
    requires CoordinatorInv(w, min, p, a) && a.signId == w.sent[i].msg.signId
    ensures w.sent[i].from in w.sessions[a.signId].peers && w.sent[i].from != p
    ensures w.sent[i].from !in a.commitments && a.package.None?
  {
    var q, id := w.sent[i].from, a.signId;
    assert Honest(w, w.sent[i]);
    assert SessionInv(w.sessions[id], min);
    assert IsCommitment(w.sent[i], id, q);
    forall k | k in w.delivered && k < |w.sent|
      ensures !IsCommitment(w.sent[k], id, q)
    {
      assert k < i || i < k;
    }
    assert !Collected(w, id, q);
    assert q in Signers(w.sessions[id]);
  }

  /** The coordinator with one more commitment. */
  lemma {:induction false} OneMore(w: World, w': World, min: nat, i: nat, p: PeerId, a: Active, c: Commitment)
    requires Extends(w, w') && i < |w.sent| && i in w'.delivered && w.sent[i].msg.Commitments?
    requires CoordinatorInv(w, min, p, a) && a.signId == w.sent[i].msg.signId && a.package.None?
    requires w.sent[i].from in w.sessions[a.signId].peers && w.sent[i].from != p
    ensures var held := a.commitments[w.sent[i].from := c];
            && held.Keys <= Signers(w'.sessions[a.signId])
            && p in held && held[p] == Commitment(a.nonce)
            && forall q :: q in held && q != p ==> Collected(w', a.signId, q)
  {
    var q, held := w.sent[i].from, a.commitments[w.sent[i].from := c];
    assert q in Signers(w.sessions[a.signId]);
    assert held.Keys == a.commitments.Keys + {q};
    forall r | r in held && r != p
      ensures Collected(w', a.signId, r)
    {
      if r == q {
        assert IsCommitment(w'.sent[i], a.signId, q);
      } else {
        CollectedExtends(w, w', a.signId, r);
      }
    }
  }

  lemma {:induction false} IgnoredPreserves(w: World, min: nat, i: nat)
    requires Inv(w, min) && Enabled(w, min, Arrive(i))
    ensures Inv(Handled(w, i, w.nodes[w.sent[i].to], []), min)
  {
    var p, w' := w.sent[i].to, Handled(w, i, w.nodes[w.sent[i].to], []);
    assert w'.sent == w.sent;
    OthersKeepOnce(w, w');
    QuietNode(w, w', min, p);
    HandledPreserves(w, min, i, w.nodes[p], []);
  }

  lemma {:induction false} CoordinatorAt(w: World, min: nat, p: PeerId, id: SignId)
    requires Inv(w, min) && p in w.nodes && Coordinates(w.nodes[p], id)
    ensures w.nodes[p].hasKeys && p !in w.nodes[p].peers
    ensures CoordinatorInv(w, min, p, w.nodes[p].active.value) && SessionInv(w.sessions[id], min)
  {
    assert NodeInv(w, min, p);
  }

  /** One more commitment, and not yet all of them. */
  lemma {:induction false} CollectPreserves(w: World, min: nat, i: nat, c: Commitment)
    requires Inv(w, min) && Enabled(w, min, Arrive(i)) && w.sent[i].msg.Commitments?
    requires Coordinates(w.nodes[w.sent[i].to], w.sent[i].msg.signId)
    ensures var s := w.nodes[w.sent[i].to];
            var a := s.active.value.(commitments := s.active.value.commitments[w.sent[i].from := c]);
            Inv(Handled(w, i, s.(active := Some(a)), []), min)
  {
    var p, s := w.sent[i].to, w.nodes[w.sent[i].to];
    var a := s.active.value;
    var a' := a.(commitments := a.commitments[w.sent[i].from := c]);
    var w' := Handled(w, i, s.(active := Some(a')), []);
    assert w'.sent == w.sent;
    CoordinatorAt(w, min, p, a.signId);
    CommitmentIsNew(w, min, i, p, a);
    OneMore(w, w', min, i, p, a, c);
    OthersKeepOnce(w, w');
    HandledPreserves(w, min, i, s.(active := Some(a')), []);
  }

  /** The threshold is reached: every signer has committed, and the coordinator
      can sign the package it builds. */
  lemma {:induction false} PackageIsFull(w: World, w': World, min: nat, i: nat, p: PeerId, a: Active, c: Commitment)
    requires Extends(w, w') && i < |w.sent| && i in w'.delivered && w.sent[i].msg.Commitments?
    requires CoordinatorInv(w, min, p, a) && a.signId == w.sent[i].msg.signId && a.package.None?
    requires SessionInv(w.sessions[a.signId], min)
    requires w.sent[i].from in w.sessions[a.signId].peers && w.sent[i].from != p
    requires |a.commitments[w.sent[i].from := c].Keys| == min
    ensures var held := a.commitments[w.sent[i].from := c];
            && held.Keys == Signers(w.sessions[a.signId])
            && Sign(ConfigOf(p, min), a.nonce, SigningPackage(held, a.message)) ==
               Some(Share(p, a.nonce, SigningPackage(held, a.message)))
  {
    var held := a.commitments[w.sent[i].from := c];
    OneMore(w, w', min, i, p, a, c);
    SubsetSize({p}, held.Keys);
    SubsetSize(held.Keys, Signers(w.sessions[a.signId]));
  }

  /** The world after the package of a session is built and sent. */
  ghost function Packaged(w: World, i: nat, a: Active, package: SigningPackage, share: Share): World
    requires i < |w.sent| && w.sent[i].to in w.nodes
  {
    var p := w.sent[i].to;
    var done := a.(commitments := package.commitments, package := Some(package), shares := a.shares[p := share]);
    Handled(w, i, w.nodes[p].(active := Some(done)), ToAll(a.selectedPeers, SignPackage(a.signId, Some(package))))
      .(packages := w.packages[a.signId := package])
  }

  lemma {:induction false} PackagedSends(w: World, i: nat, a: Active, package: SigningPackage, share: Share)
    requires i < |w.sent| && w.sent[i].to in w.nodes && a.signId in w.sessions
    ensures var w' := Packaged(w, i, a, package, share);
            forall j :: |w.sent| <= j < |w'.sent| ==> w'.sent[j].msg.SignPackage? && Honest(w', w'.sent[j])
  {
    var w' := Packaged(w, i, a, package, share);
    forall j | |w.sent| <= j < |w'.sent|
      ensures w'.sent[j].msg.SignPackage? && Honest(w', w'.sent[j])
    {
      assert w'.sent[j].msg == SignPackage(a.signId, Some(package));
    }
  }

  lemma {:induction false} PackagedMessages(w: World, i: nat, a: Active, package: SigningPackage, share: Share)
    requires Messages(w) && i < |w.sent| && w.sent[i].to in w.nodes && a.signId in w.sessions
    requires Extends(w, Packaged(w, i, a, package, share))
    ensures Messages(Packaged(w, i, a, package, share))
  {
    var w' := Packaged(w, i, a, package, share);
    PackagedSends(w, i, a, package, share);
    OthersKeepOnce(w, w');
    MessagesKept(w, w');
  }

  /** The coordinator that has built its package, seen on its own. */
  lemma {:induction false} PackagedCoordinator(w: World, w': World, min: nat, p: PeerId, a: Active,
                                               package: SigningPackage)
    requires CoordinatorInv(w, min, p, a) && a.package.None? && Extends(w, w')
    requires package.commitments.Keys == Signers(w.sessions[a.signId]) && package.message == a.message
    requires p in package.commitments && package.commitments[p] == Commitment(a.nonce)
    requires forall q :: q in package.commitments && q != p ==> Collected(w', a.signId, q)
    requires a.signId in w'.packages && w'.packages[a.signId] == package
    ensures var share := Share(p, a.nonce, package);
            CoordinatorInv(w', min, p, a.(commitments := package.commitments, package := Some(package),
              shares := a.shares[p := share]))
  {
  }

  lemma {:induction false} PackagedNode(w: World, min: nat, i: nat, a: Active, c: Commitment)
    requires Inv(w, min) && Enabled(w, min, Arrive(i)) && w.sent[i].msg.Commitments?
    requires Coordinates(w.nodes[w.sent[i].to], w.sent[i].msg.signId) && a == w.nodes[w.sent[i].to].active.value
    requires |a.commitments[w.sent[i].from := c].Keys| == min
    ensures var package := SigningPackage(a.commitments[w.sent[i].from := c], a.message);
            var w' := Packaged(w, i, a, package, Share(w.sent[i].to, a.nonce, package));
            && Extends(w, w') && NodeInv(w', min, w.sent[i].to)
            && a.signId in w.sessions && w.sessions[a.signId].coordinator == w.sent[i].to
  {
    var p := w.sent[i].to;
    var package := SigningPackage(a.commitments[w.sent[i].from := c], a.message);
    CoordinatorAt(w, min, p, a.signId);
    CommitmentIsNew(w, min, i, p, a);
    PackagedByCoordinator(w, min, i, p, a, c);
  }

  lemma {:induction false} PackagedByCoordinator(w: World, min: nat, i: nat, p: PeerId, a: Active, c: Commitment)
    requires i < |w.sent| && p == w.sent[i].to && p in w.nodes && w.sent[i].msg.Commitments?
    requires w.nodes[p].active == Some(a) && a.isCoordinator && a.signId == w.sent[i].msg.signId
    requires w.nodes[p].hasKeys && p !in w.nodes[p].peers
    requires CoordinatorInv(w, min, p, a) && a.package.None? && SessionInv(w.sessions[a.signId], min)
    requires w.sent[i].from in w.sessions[a.signId].peers && w.sent[i].from != p
    requires |a.commitments[w.sent[i].from := c].Keys| == min
    ensures var package := SigningPackage(a.commitments[w.sent[i].from := c], a.message);
            var w' := Packaged(w, i, a, package, Share(p, a.nonce, package));
            && Extends(w, w') && NodeInv(w', min, p)
            && w.sessions[a.signId].coordinator == p
  {
    var package := SigningPackage(a.commitments[w.sent[i].from := c], a.message);
    var w' := Packaged(w, i, a, package, Share(p, a.nonce, package));
    assert Extends(w, w');
    OneMore(w, w', min, i, p, a, c);
    PackageIsFull(w, w', min, i, p, a, c);
    PackagedCoordinator(w, w', min, p, a, package);
  }

  lemma {:induction false} PackagedPreserves(w: World, min: nat, i: nat, a: Active, c: Commitment)
    requires Inv(w, min) && Enabled(w, min, Arrive(i)) && w.sent[i].msg.Commitments?
    requires Coordinates(w.nodes[w.sent[i].to], w.sent[i].msg.signId) && a == w.nodes[w.sent[i].to].active.value
    requires |a.commitments[w.sent[i].from := c].Keys| == min
    ensures var package := SigningPackage(a.commitments[w.sent[i].from := c], a.message);
            Inv(Packaged(w, i, a, package, Share(w.sent[i].to, a.nonce, package)), min)
  {
    var package := SigningPackage(a.commitments[w.sent[i].from := c], a.message);
    PackagedNode(w, min, i, a, c);
    PackagedKept(w, min, i, a, package, Share(w.sent[i].to, a.nonce, package));
  }

  lemma {:induction false} PackagedKept(w: World, min: nat, i: nat, a: Active, package: SigningPackage, share: Share)
    requires Inv(w, min) && i < |w.sent| && w.sent[i].to in w.nodes
    requires a.signId in w.sessions && w.sessions[a.signId].coordinator == w.sent[i].to
    requires Extends(w, Packaged(w, i, a, package, share))
    requires NodeInv(Packaged(w, i, a, package, share), min, w.sent[i].to)
    ensures Inv(Packaged(w, i, a, package, share), min)
  {
    var w' := Packaged(w, i, a, package, share);
    PackagedMessages(w, i, a, package, share);
    NodesKept(w, w', min, w.sent[i].to);
    RecordsKept(w, w', min);
  }

  lemma {:induction false} CommitmentsPreserves(w: World, min: nat, i: nat)
    requires Inv(w, min) && Enabled(w, min, Arrive(i)) && w.sent[i].msg.Commitments?
    ensures Inv(AfterArrive(w, min, i), min)
  {
    var m, p := w.sent[i], w.sent[i].to;
    var s, cfg := w.nodes[p], ConfigOf(p, min);
    var e := OnCommitments(cfg, s, m.from, m.msg.signId, m.msg.commitment);
    if !Coordinates(s, m.msg.signId) || m.msg.commitment.None? {
      assert AfterArrive(w, min, i) == Handled(w, i, s, []);
      IgnoredPreserves(w, min, i);
    } else {
      var a, c := s.active.value, m.msg.commitment.value;
      var held := a.commitments[m.from := c];
      if |held.Keys| != min {
        assert AfterArrive(w, min, i) == Handled(w, i, s.(active := Some(a.(commitments := held))), []);
        CollectPreserves(w, min, i, c);
      } else {
        PackagedIs(w, min, i, a, c);
        PackagedPreserves(w, min, i, a, c);
      }
    }
  }

  /** What the commitment that makes the package complete leads to. */
  lemma {:induction false} Builds(cfg: Config, s: SigningState, from: PeerId, a: Active, c: Commitment,
                                  package: SigningPackage, share: Share)
    requires s.hasKeys && Coordinates(s, a.signId) && a == s.active.value && cfg.minSigners.Some?
    requires package == SigningPackage(a.commitments[from := c], a.message)
    requires |package.commitments.Keys| == cfg.minSigners.value && Sign(cfg, a.nonce, package) == Some(share)
    ensures var done := a.(commitments := package.commitments, package := Some(package),
                           shares := a.shares[cfg.me := share]);
            OnCommitments(cfg, s, from, a.signId, Some(c)) ==
            Effect(s.(active := Some(done)), true, ToAll(a.selectedPeers, SignPackage(a.signId, Some(package))),
                   [share], Some(package), None)
  {
  }

  lemma {:induction false} BuiltSignable(w: World, min: nat, i: nat, a: Active, c: Commitment)
    requires Inv(w, min) && Enabled(w, min, Arrive(i)) && w.sent[i].msg == Commitments(a.signId, Some(c))
    requires Coordinates(w.nodes[w.sent[i].to], a.signId) && a == w.nodes[w.sent[i].to].active.value
    requires |a.commitments[w.sent[i].from := c].Keys| == min
    ensures var p, package := w.sent[i].to, SigningPackage(a.commitments[w.sent[i].from := c], a.message);
            w.nodes[p].hasKeys && Sign(ConfigOf(p, min), a.nonce, package) == Some(Share(p, a.nonce, package))
  {
    var p := w.sent[i].to;
    CoordinatorAt(w, min, p, a.signId);
    CommitmentIsNew(w, min, i, p, a);
    PackageIsFull(w, w.(delivered := w.delivered + {i}), min, i, p, a, c);
  }

  lemma {:induction false} PackagedIs(w: World, min: nat, i: nat, a: Active, c: Commitment)
    requires Inv(w, min) && Enabled(w, min, Arrive(i)) && w.sent[i].msg == Commitments(a.signId, Some(c))
    requires Coordinates(w.nodes[w.sent[i].to], a.signId) && a == w.nodes[w.sent[i].to].active.value
    requires |a.commitments[w.sent[i].from := c].Keys| == min
    ensures var package := SigningPackage(a.commitments[w.sent[i].from := c], a.message);
            AfterArrive(w, min, i) == Packaged(w, i, a, package, Share(w.sent[i].to, a.nonce, package))
  {
    var p, from := w.sent[i].to, w.sent[i].from;
    var package := SigningPackage(a.commitments[from := c], a.message);
    BuiltSignable(w, min, i, a, c);
    Builds(ConfigOf(p, min), w.nodes[p], from, a, c, package, Share(p, a.nonce, package));
  }

  // ---------- Collecting shares ----------

  /** The share now arriving fits the package the coordinator has built. */
  lemma {:induction false} ShareArrives(w: World, min: nat, m: Envelope, p: PeerId, a: Active)
    requires Honest(w, m) && m.msg.SignatureShare?
    requires CoordinatorInv(w, min, p, a) && a.signId == m.msg.signId
    ensures m.msg.share.Some? && a.package.Some?
    ensures ShareFits(a.package.value, m.from, m.msg.share.value)
    ensures var shares := a.shares[m.from := m.msg.share.value];
            && (forall q :: q in shares ==> ShareFits(a.package.value, q, shares[q]))
            && shares.Keys <= a.package.value.commitments.Keys
  {
  }

  lemma {:induction false} SharesFull(w: World, min: nat, p: PeerId, a: Active, shares: map<PeerId, Share>)
    requires CoordinatorInv(w, min, p, a) && SessionInv(w.sessions[a.signId], min) && a.package.Some?
    requires shares.Keys <= a.package.value.commitments.Keys && |shares.Keys| == min && shares != map[]
    ensures shares.Keys == a.package.value.commitments.Keys == Signers(w.sessions[a.signId])
  {
    assert shares.Keys != {};
    SubsetSize(shares.Keys, a.package.value.commitments.Keys);
  }

  lemma {:induction false} KeepSharePreserves(w: World, min: nat, i: nat, a: Active)
    requires Inv(w, min) && Enabled(w, min, Arrive(i)) && w.sent[i].msg.SignatureShare?
    requires Coordinates(w.nodes[w.sent[i].to], w.sent[i].msg.signId) && a == w.nodes[w.sent[i].to].active.value
    requires w.sent[i].msg.share.Some?
    ensures var a' := a.(shares := a.shares[w.sent[i].from := w.sent[i].msg.share.value]);
            Inv(Handled(w, i, w.nodes[w.sent[i].to].(active := Some(a')), []), min)
  {
    var p := w.sent[i].to;
    var a' := a.(shares := a.shares[w.sent[i].from := w.sent[i].msg.share.value]);
    var s := w.nodes[p].(active := Some(a'));
    var w' := Handled(w, i, s, []);
    assert w'.sent == w.sent;
    CoordinatorAt(w, min, p, a.signId);
    assert Honest(w, w.sent[i]);
    ShareArrives(w, min, w.sent[i], p, a);
    CoordinatorExtends(w, w', min, p, a);
    OthersKeepOnce(w, w');
    HandledPreserves(w, min, i, s, []);
  }

  lemma {:induction false} AggregateSound(w: World, min: nat, i: nat, a: Active)
    requires Inv(w, min) && Enabled(w, min, Arrive(i)) && w.sent[i].msg.SignatureShare?
    requires Coordinates(w.nodes[w.sent[i].to], w.sent[i].msg.signId) && a == w.nodes[w.sent[i].to].active.value
    requires w.sent[i].msg.share.Some? && a.package.Some?
    requires |a.shares[w.sent[i].from := w.sent[i].msg.share.value].Keys| == min
    ensures Sound(w, min, Aggregation(a.signId, a.package.value, a.shares[w.sent[i].from := w.sent[i].msg.share.value]))
  {
    var p := w.sent[i].to;
    var shares := a.shares[w.sent[i].from := w.sent[i].msg.share.value];
    CoordinatorAt(w, min, p, a.signId);
    assert Honest(w, w.sent[i]);
    ShareArrives(w, min, w.sent[i], p, a);
    assert w.sent[i].from in shares;
    SharesFull(w, min, p, a, shares);
  }

  /** Recording an aggregation touches nothing else. */
  lemma {:induction false} RecordKeepsNodes(w: World, w': World, min: nat)
    requires Nodes(w, min) && Extends(w, w') && w'.nodes == w.nodes && w'.packages == w.packages
    ensures Nodes(w', min)
  {
    forall p | p in w'.nodes
      ensures NodeInv(w', min, p)
    {
      assert NodeInv(w, min, p);
      if w.nodes[p].active.Some? && w.nodes[p].active.value.isCoordinator {
        CoordinatorExtends(w, w', min, p, w.nodes[p].active.value);
      }
    }
  }

  lemma {:induction false} RecordKept(w: World, min: nat, g: Aggregation)
    requires Inv(w, min) && Sound(w, min, g)
    ensures Inv(w.(aggregations := w.aggregations + [g]), min)
  {
    var w' := w.(aggregations := w.aggregations + [g]);
    assert Messages(w') by {
      MessagesKept(w, w');
    }
    RecordKeepsNodes(w, w', min);
    assert Records(w', min) by {
      assert Sound(w', min, g);
      RecordsKept(w, w', min);
    }
  }

  lemma {:induction false} DroppedPreserves(w: World, min: nat, i: nat)
    requires Inv(w, min) && Enabled(w, min, Arrive(i))
    ensures Inv(Handled(w, i, w.nodes[w.sent[i].to].(active := None), []), min)
  {
    var s := w.nodes[w.sent[i].to].(active := None);
    assert Handled(w, i, s, []).sent == w.sent;
    AnsweredPreserves(w, min, i, s, []);
  }

  lemma {:induction false} AggregatePreserves(w: World, min: nat, i: nat, a: Active)
    requires Inv(w, min) && Enabled(w, min, Arrive(i)) && w.sent[i].msg.SignatureShare?
    requires Coordinates(w.nodes[w.sent[i].to], w.sent[i].msg.signId) && a == w.nodes[w.sent[i].to].active.value
    requires w.sent[i].msg.share.Some? && a.package.Some?
    requires |a.shares[w.sent[i].from := w.sent[i].msg.share.value].Keys| == min
    ensures var g := Aggregation(a.signId, a.package.value, a.shares[w.sent[i].from := w.sent[i].msg.share.value]);
            Inv(Handled(w, i, w.nodes[w.sent[i].to].(active := None), []).(aggregations := w.aggregations + [g]), min)
  {
    var g := Aggregation(a.signId, a.package.value, a.shares[w.sent[i].from := w.sent[i].msg.share.value]);
    var w' := Handled(w, i, w.nodes[w.sent[i].to].(active := None), []);
    AggregateSound(w, min, i, a);
    DroppedPreserves(w, min, i);
    assert Sound(w', min, g);
    RecordKept(w', min, g);
  }

  lemma {:induction false} SharePreserves(w: World, min: nat, i: nat)
    requires Inv(w, min) && Enabled(w, min, Arrive(i)) && w.sent[i].msg.SignatureShare?
    ensures Inv(AfterArrive(w, min, i), min)
  {
    var m, p := w.sent[i], w.sent[i].to;
    var s := w.nodes[p];
    if !Coordinates(s, m.msg.signId) || m.msg.share.None? {
      assert AfterArrive(w, min, i) == Handled(w, i, s, []);
      IgnoredPreserves(w, min, i);
    } else {
      var a := s.active.value;
      var shares := a.shares[m.from := m.msg.share.value];
      CoordinatorAt(w, min, p, a.signId);
      if |shares.Keys| != min || a.package.None? {
        assert AfterArrive(w, min, i) == Handled(w, i, s.(active := Some(a.(shares := shares))), []);
        KeepSharePreserves(w, min, i, a);
      } else {
        AggregatePreserves(w, min, i, a);
      }
    }
  }

  // ---------- Every run ----------

  lemma {:induction false} EventPreserves(w: World, min: nat, ev: Event)
    requires Inv(w, min) && Enabled(w, min, ev)
    ensures Inv(Next(w, min, ev), min)
  {
    match ev
    case Begin(p, text, id, chosen) => BeginPreserves(w, min, p, text, id, chosen);
    case Arrive(i) =>
      match w.sent[i].msg
      case SignRequest(_, _) => RequestPreserves(w, min, i);
      case Commitments(_, _) => CommitmentsPreserves(w, min, i);
      case SignPackage(_, _) => PackagePreserves(w, min, i);
      case SignatureShare(_, _) => SharePreserves(w, min, i);
  }

  lemma {:induction false} ReachableInv(w0: World, min: nat, evs: seq<Event>, w: World)
    requires Initial(w0) && After(w0, min, evs) == Some(w)
    ensures Inv(w, min)
    decreases |evs|
  {
    if evs == [] {
      assert forall p :: p in w.nodes ==> NodeInv(w, min, p);
    } else {
      var init := evs[..|evs| - 1];
      var mid := After(w0, min, init).value;
      ReachableInv(w0, min, init, mid);
      EventPreserves(mid, min, evs[|evs| - 1]);
    }
  }

  /** In every run, whenever a coordinator aggregates, the identifiers of its
      shares are exactly those of the package's commitments, every share was
      made on that package with the nonce committed in it, and the package is
      for the message of the session. */
  lemma {:induction false} AggregationsSound(w0: World, min: nat, evs: seq<Event>, w: World)
    requires Initial(w0) && After(w0, min, evs) == Some(w)
    ensures forall g :: g in w.aggregations ==> Sound(w, min, g)
  {
    ReachableInv(w0, min, evs, w);
  }
}
