/** In honest runs every nonce goes into one share, the coordinator's too. */
module SigningNonces {
  import opened Prelude
  import opened Bytes
  import opened Chain
  import opened Signing
  import opened SigningNetwork

  /** The shares that an event makes. */
  ghost function MadeBy(w: World, min: nat, ev: Event): seq<Share>
    requires Enabled(w, min, ev)
  {
    match ev
    case Begin(_, _, _, _) => []
    case Arrive(i) =>
      var m := w.sent[i];
      OnMessage(ConfigOf(m.to, min), w.nodes[m.to], m.from, m.msg).made
  }

  /** The shares that a run makes, at whatever node. */
  ghost function AllMade(w0: World, min: nat, evs: seq<Event>): seq<Share> {
    if evs == [] then []
    else
      var init, ev := evs[..|evs| - 1], evs[|evs| - 1];
      AllMade(w0, min, init) +
      match After(w0, min, init)
      case None => []
      case Some(w) => if Enabled(w, min, ev) then MadeBy(w, min, ev) else []
  }

  // ---------- One node ----------

  /** A nonce drawn by the node, unused as long as no package is built. */
  ghost predicate NodeNonce(s: SigningState, p: PeerId, made: seq<Share>) {
    s.active.Some? ==>
      var a := s.active.value;
      && a.nonce.owner == p && a.nonce.serial < s.serial
      && (!a.isCoordinator ==> a.package.None?)
      && (a.package.None? ==> Unused(made, a.nonce))
  }

  ghost predicate Drawn(s: SigningState, p: PeerId, made: seq<Share>) {
    forall x :: x in made && x.nonce.owner == p ==> x.nonce.serial < s.serial
  }

  /** A share closes the session or goes with its package; a session that is
      new has neither. */
  ghost predicate Closes(cfg: Config, s: SigningState, e: Effect) {
    && (e.made != [] && e.s.active.Some? ==> e.s.active.value.package.Some?)
    && (e.s.active.Some? ==>
          var a := e.s.active.value;
          || (&& a.nonce == Nonce(cfg.me, s.serial) && a.package.None?
              && e.made == [] && e.s.serial == s.serial + 1)
          || (&& s.active.Some? && a.nonce == s.active.value.nonce
              && a.isCoordinator == s.active.value.isCoordinator
              && (a.package.None? ==> s.active.value.package.None?)
              && (!a.isCoordinator ==> a.package == s.active.value.package)))
  }

  lemma {:induction false} CommitmentsClose(cfg: Config, s: SigningState, from: PeerId, id: SignId,
                                            c: Option<Commitment>)
    ensures Closes(cfg, s, OnCommitments(cfg, s, from, id, c))
  {
  }

  lemma {:induction false} PackageCloses(cfg: Config, s: SigningState, from: PeerId, id: SignId,
                                         package: Option<SigningPackage>)
    ensures Closes(cfg, s, OnSignPackage(cfg, s, from, id, package))
  {
  }

  lemma {:induction false} SharesClose(cfg: Config, s: SigningState, from: PeerId, id: SignId, share: Option<Share>)
    ensures Closes(cfg, s, OnSignatureShare(cfg, s, from, id, share))
  {
  }

  lemma {:induction false} ShareCloses(cfg: Config, s: SigningState, i: Input)
    ensures Closes(cfg, s, Step(cfg, s, i))
  {
    match i
    case Request(_, _, _) =>
    case Incoming(from, msg) =>
      match msg
      case SignRequest(_, _) =>
      case Commitments(id, c) => CommitmentsClose(cfg, s, from, id, c);
      case SignPackage(id, package) => PackageCloses(cfg, s, from, id, package);
      case SignatureShare(id, share) => SharesClose(cfg, s, from, id, share);
  }

  lemma {:induction false} NodeStep(cfg: Config, s: SigningState, i: Input, made: seq<Share>)
    requires NodeNonce(s, cfg.me, made) && Drawn(s, cfg.me, made) && AllOnce(made)
    requires Step(cfg, s, i).made != [] && s.active.Some? ==> s.active.value.package.None?
    ensures var e := Step(cfg, s, i);
            && NodeNonce(e.s, cfg.me, made + e.made) && Drawn(e.s, cfg.me, made + e.made) && AllOnce(made + e.made)
            && forall x :: x in e.made ==> x.nonce.owner == cfg.me
  {
    StepShares(cfg, s, i);
    ShareCloses(cfg, s, i);
    var e := Step(cfg, s, i);
    if e.made == [] {
      assert made + e.made == made;
    } else {
      assert e.made == [e.made[0]];
      OnceSnoc(made, e.made[0]);
    }
  }

  lemma {:induction false} OthersKeep(s: SigningState, p: PeerId, made: seq<Share>, more: seq<Share>)
    requires NodeNonce(s, p, made) && Drawn(s, p, made)
    requires forall x :: x in more ==> x.nonce.owner != p
    ensures NodeNonce(s, p, made + more) && Drawn(s, p, made + more)
  {
  }

  // ---------- The network ----------

  /** Packages go to the peers of their session only. */
  ghost predicate Addressed(w: World) {
    forall i :: 0 <= i < |w.sent| && w.sent[i].msg.SignPackage? ==>
      w.sent[i].msg.signId in w.sessions && w.sent[i].to in w.sessions[w.sent[i].msg.signId].peers
  }

  ghost predicate NodesInv(nodes: map<PeerId, SigningState>, made: seq<Share>) {
    && AllOnce(made) && (forall x :: x in made ==> x.nonce.owner in nodes)
    && forall p :: p in nodes ==> NodeNonce(nodes[p], p, made) && Drawn(nodes[p], p, made)
  }

  /** What makes a node sign, and whom it sends packages to. */
  lemma {:induction false} Cause(cfg: Config, s: SigningState, from: PeerId, msg: Message)
    ensures var e := OnMessage(cfg, s, from, msg);
            && (e.made != [] ==>
                  && s.active.Some? && s.active.value.signId == msg.signId
                  && ((msg.Commitments? && s.active.value.isCoordinator) || msg.SignPackage?))
            && forall k :: 0 <= k < |e.out| && e.out[k].msg.SignPackage? ==>
                 && Coordinates(s, msg.signId) && e.out[k].msg.signId == msg.signId
                 && e.out[k].to in s.active.value.selectedPeers
  {
  }

  /** No coordinator is sent the package of its own session. */
  lemma {:induction false} NotItsOwn(w: World, min: nat, i: nat)
    requires Inv(w, min) && Addressed(w) && i < |w.sent| && w.sent[i].to in w.nodes && w.sent[i].msg.SignPackage?
    ensures !Coordinates(w.nodes[w.sent[i].to], w.sent[i].msg.signId)
  {
    if Coordinates(w.nodes[w.sent[i].to], w.sent[i].msg.signId) {
      CoordinatorAt(w, min, w.sent[i].to, w.sent[i].msg.signId);
      assert false;
    }
  }

  /** A message that makes a node sign finds its package not yet built. */
  lemma {:induction false} SharesWhileOpen(w: World, min: nat, i: nat, made: seq<Share>)
    requires Inv(w, min) && Addressed(w) && NodesInv(w.nodes, made) && Enabled(w, min, Arrive(i))
    requires MadeBy(w, min, Arrive(i)) != []
    ensures var s := w.nodes[w.sent[i].to];
            s.active.Some? && s.active.value.package.None?
  {
    var m := w.sent[i];
    var s := w.nodes[m.to];
    Cause(ConfigOf(m.to, min), s, m.from, m.msg);
    if m.msg.SignPackage? {
      NotItsOwn(w, min, i);
      assert NodeNonce(s, m.to, made);
    } else {
      CoordinatorAt(w, min, m.to, m.msg.signId);
      CommitmentIsNew(w, min, i, m.to, s.active.value);
    }
  }

  lemma {:induction false} ArriveNodes(w: World, min: nat, i: nat, made: seq<Share>)
    requires Inv(w, min) && Addressed(w) && NodesInv(w.nodes, made) && Enabled(w, min, Arrive(i))
    ensures NodesInv(AfterArrive(w, min, i).nodes, made + MadeBy(w, min, Arrive(i)))
  {
    var m, more := w.sent[i], MadeBy(w, min, Arrive(i));
    if more != [] {
      SharesWhileOpen(w, min, i, made);
    }
    OneNode(w.nodes, min, m.to, Incoming(m.from, m.msg), made);
  }

  lemma {:induction false} OneNode(nodes: map<PeerId, SigningState>, min: nat, p: PeerId, i: Input, made: seq<Share>)
    requires NodesInv(nodes, made) && p in nodes
    requires Step(ConfigOf(p, min), nodes[p], i).made != [] && nodes[p].active.Some? ==>
               nodes[p].active.value.package.None?
    ensures var e := Step(ConfigOf(p, min), nodes[p], i);
            NodesInv(nodes[p := e.s], made + e.made)
  {
    var e := Step(ConfigOf(p, min), nodes[p], i);
    NodeStep(ConfigOf(p, min), nodes[p], i, made);
    forall q | q in nodes && q != p
      ensures NodeNonce(nodes[q], q, made + e.made) && Drawn(nodes[q], q, made + e.made)
    {
      OthersKeep(nodes[q], q, made, e.made);
    }
  }

  lemma {:induction false} PackagesAddressed(w: World, min: nat, i: nat, out: seq<Outgoing>)
    requires Inv(w, min) && Enabled(w, min, Arrive(i))
    requires var m := w.sent[i];
             out == OnMessage(ConfigOf(m.to, min), w.nodes[m.to], m.from, m.msg).out
    ensures forall k :: 0 <= k < |out| && out[k].msg.SignPackage? ==>
              out[k].msg.signId in w.sessions && out[k].to in w.sessions[out[k].msg.signId].peers
  {
    var m := w.sent[i];
    var s := w.nodes[m.to];
    Cause(ConfigOf(m.to, min), s, m.from, m.msg);
    if Coordinates(s, m.msg.signId) {
      CoordinatorAt(w, min, m.to, m.msg.signId);
      assert w.sessions[m.msg.signId].peers == s.active.value.selectedPeers;
    }
  }

  lemma {:induction false} ArriveAddressed(w: World, min: nat, i: nat)
    requires Inv(w, min) && Addressed(w) && Enabled(w, min, Arrive(i))
    ensures Addressed(AfterArrive(w, min, i))
  {
    var m := w.sent[i];
    var out := OnMessage(ConfigOf(m.to, min), w.nodes[m.to], m.from, m.msg).out;
    PackagesAddressed(w, min, i, out);
    SentGrows(w, AfterArrive(w, min, i), m.to, out);
  }

  lemma {:induction false} SentGrows(w: World, w': World, p: PeerId, out: seq<Outgoing>)
    requires Addressed(w) && w'.sent == w.sent + Wrap(p, out)
    requires forall id :: id in w.sessions ==> id in w'.sessions && w'.sessions[id] == w.sessions[id]
    requires forall k :: 0 <= k < |out| && out[k].msg.SignPackage? ==>
               out[k].msg.signId in w'.sessions && out[k].to in w'.sessions[out[k].msg.signId].peers
    ensures Addressed(w')
  {
    forall i | 0 <= i < |w'.sent| && w'.sent[i].msg.SignPackage?
      ensures w'.sent[i].msg.signId in w'.sessions && w'.sent[i].to in w'.sessions[w'.sent[i].msg.signId].peers
    {
      if i < |w.sent| {
        assert w'.sent[i] == w.sent[i];
      } else {
        var k := i - |w.sent|;
        assert w'.sent[i] == Envelope(p, out[k].to, out[k].msg);
      }
    }
  }

  lemma {:induction false} BeginKeeps(w: World, min: nat, p: PeerId, text: Option<Bytes>, id: SignId,
                                      chosen: seq<PeerId>,
                                      made: seq<Share>)
    requires Addressed(w) && NodesInv(w.nodes, made) && Enabled(w, min, Begin(p, text, id, chosen))
    ensures var w' := AfterBegin(w, min, p, text, id, chosen);
            Addressed(w') && NodesInv(w'.nodes, made)
  {
    var e := OnStart(ConfigOf(p, min), w.nodes[p], text, id, chosen);
    if e.ok {
      OneNode(w.nodes, min, p, Request(text, id, chosen), made);
      assert made + [] == made;
      SentGrows(w, AfterBegin(w, min, p, text, id, chosen), p, e.out);
    }
  }

  lemma {:induction false} RunOnce(w0: World, min: nat, evs: seq<Event>, w: World)
    requires Initial(w0) && After(w0, min, evs) == Some(w)
    ensures Addressed(w) && NodesInv(w.nodes, AllMade(w0, min, evs))
  {
    if evs != [] {
      var init, ev := evs[..|evs| - 1], evs[|evs| - 1];
      var mid := After(w0, min, init).value;
      var made := AllMade(w0, min, init);
      RunOnce(w0, min, init, mid);
      ReachableInv(w0, min, init, mid);
      match ev
      case Begin(p, text, id, chosen) =>
        BeginKeeps(mid, min, p, text, id, chosen, made);
        assert made + [] == made;
      case Arrive(i) =>
        ArriveNodes(mid, min, i, made);
        ArriveAddressed(mid, min, i);
    }
  }

  /** In every honest run no two shares, of one node or of several, of one
      session or of several, are made with the same nonce. */
  lemma {:induction false} HonestNoncesUsedOnce(w0: World, min: nat, evs: seq<Event>, w: World)
    requires Initial(w0) && After(w0, min, evs) == Some(w)
    ensures AllOnce(AllMade(w0, min, evs))
  {
    RunOnce(w0, min, evs, w);
  }
}
