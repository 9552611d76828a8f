/** When a signing session that nothing disturbs ends in a signature. */
module SigningCompletes {
  import opened Prelude
  import opened Bytes
  import opened Chain
  import opened Signing
  import opened SigningNetwork

  ghost predicate HasKeys(w: World, q: PeerId) {
    q in w.nodes && w.nodes[q].hasKeys
  }

  // ---------- Only nodes with keys sign ----------

  ghost predicate AllKeyed(w: World, shares: map<PeerId, Share>) {
    forall q :: q in shares ==> HasKeys(w, q)
  }

  ghost predicate Keyed(w: World) {
    && (forall i :: 0 <= i < |w.sent| && w.sent[i].msg.SignatureShare? ==> HasKeys(w, w.sent[i].from))
    && (forall p :: p in w.nodes && w.nodes[p].active.Some? ==> AllKeyed(w, w.nodes[p].active.value.shares))
    && (forall g :: g in w.aggregations ==> AllKeyed(w, g.shares))
  }

  /** Where the shares that a node holds, sends and aggregates come from. */
  ghost predicate Sourced(cfg: Config, s: SigningState, from: PeerId, msg: Message, e: Effect) {
    && e.s.hasKeys == s.hasKeys && e.s.peers == s.peers
    && (forall k :: 0 <= k < |e.out| && e.out[k].msg.SignatureShare? ==> s.hasKeys)
    && (e.s.active.Some? ==> forall q :: q in e.s.active.value.shares ==> ShareSource(cfg, s, from, msg, q))
    && (e.aggregated.Some? ==> forall q :: q in e.aggregated.value.shares ==> ShareSource(cfg, s, from, msg, q))
  }

  lemma {:induction false} SharesFrom(cfg: Config, s: SigningState, from: PeerId, msg: Message)
    ensures Sourced(cfg, s, from, msg, OnMessage(cfg, s, from, msg))
  {
    match msg
    case SignRequest(_, _) =>
    case Commitments(id, c) => CommitmentSourced(cfg, s, from, id, c);
    case SignPackage(_, _) =>
    case SignatureShare(id, share) => ShareSourced(cfg, s, from, id, share);
  }

  lemma {:induction false} CommitmentSourced(cfg: Config, s: SigningState, from: PeerId, id: SignId,
                                             c: Option<Commitment>)
    ensures Sourced(cfg, s, from, Commitments(id, c), OnCommitments(cfg, s, from, id, c))
  {
  }

  lemma {:induction false} ShareSourced(cfg: Config, s: SigningState, from: PeerId, id: SignId, share: Option<Share>)
    ensures Sourced(cfg, s, from, SignatureShare(id, share), OnSignatureShare(cfg, s, from, id, share))
  {
  }

  ghost predicate ShareSource(cfg: Config, s: SigningState, from: PeerId, msg: Message, q: PeerId) {
    || (s.active.Some? && q in s.active.value.shares) || (q == cfg.me && s.hasKeys)
    || (q == from && msg.SignatureShare?)
  }

  lemma {:induction false} ArriveKeyed(w: World, min: nat, i: nat)
    requires Keyed(w) && Enabled(w, min, Arrive(i))
    ensures Keyed(AfterArrive(w, min, i))
  {
    var m, w' := w.sent[i], AfterArrive(w, min, i);
    var cfg, s := ConfigOf(m.to, min), w.nodes[m.to];
    var e := OnMessage(cfg, s, m.from, m.msg);
    SharesFrom(cfg, s, m.from, m.msg);
    assert forall q :: HasKeys(w', q) <==> HasKeys(w, q);
    forall q | ShareSource(cfg, s, m.from, m.msg, q)
      ensures HasKeys(w', q)
    {
    }
    KeyedGrows(w, w', m.to, e);
  }

  lemma {:induction false} KeyedGrows(w: World, w': World, p: PeerId, e: Effect)
    requires Keyed(w) && p in w.nodes && w'.nodes == w.nodes[p := e.s] && e.s.hasKeys == w.nodes[p].hasKeys
    requires w'.sent == w.sent + Wrap(p, e.out)
    requires forall k :: 0 <= k < |e.out| && e.out[k].msg.SignatureShare? ==> e.s.hasKeys
    requires w'.aggregations == if e.aggregated.None? then w.aggregations else w.aggregations + [e.aggregated.value]
    requires e.s.active.Some? ==> AllKeyed(w', e.s.active.value.shares)
    requires e.aggregated.Some? ==> AllKeyed(w', e.aggregated.value.shares)
    ensures Keyed(w')
  {
    assert forall q :: HasKeys(w', q) <==> HasKeys(w, q);
    forall q | q in w'.nodes && w'.nodes[q].active.Some?
      ensures AllKeyed(w', w'.nodes[q].active.value.shares)
    {
      if q != p {
        assert AllKeyed(w, w.nodes[q].active.value.shares);
      }
    }
    forall g | g in w'.aggregations
      ensures AllKeyed(w', g.shares)
    {
      if g in w.aggregations {
        assert AllKeyed(w, g.shares);
      }
    }
  }

  lemma {:induction false} BeginKeyed(w: World, min: nat, p: PeerId, text: Option<Bytes>, id: SignId,
                                      chosen: seq<PeerId>)
    requires Keyed(w) && Enabled(w, min, Begin(p, text, id, chosen))
    ensures Keyed(AfterBegin(w, min, p, text, id, chosen))
  {
    var e := OnStart(ConfigOf(p, min), w.nodes[p], text, id, chosen);
    if e.ok {
      KeyedGrows(w, AfterBegin(w, min, p, text, id, chosen), p, e);
    }
  }

  /** In every run: who is in an aggregation has keys. */
  lemma {:induction false} SignersHaveKeys(w0: World, min: nat, evs: seq<Event>, w: World)
    requires Initial(w0) && After(w0, min, evs) == Some(w)
    ensures Keyed(w)
  {
    if evs != [] {
      var init, ev := evs[..|evs| - 1], evs[|evs| - 1];
      var mid := After(w0, min, init).value;
      SignersHaveKeys(w0, min, init, mid);
      match ev
      case Begin(p, text, id, chosen) => BeginKeyed(mid, min, p, text, id, chosen);
      case Arrive(i) => ArriveKeyed(mid, min, i);
    }
  }

  /** Nobody gains or loses keys by signing. */
  lemma {:induction false} KeysKept(w0: World, min: nat, evs: seq<Event>, w: World)
    requires After(w0, min, evs) == Some(w)
    ensures forall q :: HasKeys(w, q) <==> HasKeys(w0, q)
    ensures w.nodes.Keys == w0.nodes.Keys
  {
    if evs != [] {
      var init, ev := evs[..|evs| - 1], evs[|evs| - 1];
      var mid := After(w0, min, init).value;
      KeysKept(w0, min, init, mid);
      if ev.Arrive? {
        var m := mid.sent[ev.index];
        SharesFrom(ConfigOf(m.to, min), mid.nodes[m.to], m.from, m.msg);
      }
    }
  }

  // ---------- One session ----------

  /** The session: coordinator, id, message, peers and signers needed. */
  datatype Case = Case(p: PeerId, id: SignId, text: Bytes, chosen: seq<PeerId>, min: nat)

  function RequestTo(c: Case, q: PeerId): Envelope { Envelope(c.p, q, SignRequest(c.id, c.text)) }

  function CommitFrom(c: Case, q: PeerId, cm: Commitment): Envelope { Envelope(q, c.p, Commitments(c.id, Some(cm))) }

  function PackageTo(c: Case, q: PeerId, package: SigningPackage): Envelope {
    Envelope(c.p, q, SignPackage(c.id, Some(package)))
  }

  function ShareFrom(c: Case, q: PeerId, sh: Share): Envelope { Envelope(q, c.p, SignatureShare(c.id, Some(sh))) }

  ghost predicate ShareSent(w: World, c: Case, q: PeerId) {
    exists sh :: ShareFrom(c, q, sh) in w.sent
  }

  /** A copy of the message has been delivered. */
  ghost predicate Got(w: World, m: Envelope) {
    exists i :: i in w.delivered && i < |w.sent| && w.sent[i] == m
  }

  /** Everything that can be delivered has been. */
  ghost predicate Quiescent(w: World) {
    forall i :: 0 <= i < |w.sent| && w.sent[i].to in w.nodes ==> i in w.delivered
  }

  lemma {:induction false} QuiescentGot(w: World, m: Envelope)
    requires Quiescent(w) && m in w.sent && m.to in w.nodes
    ensures Got(w, m)
  {
    var i :| 0 <= i < |w.sent| && w.sent[i] == m;
    assert i in w.delivered;
  }

  // ---------- What holds of the session ----------

  ghost predicate Directed(c: Case, m: Envelope) {
    match m.msg
    case SignRequest(_, _) => m.to in c.chosen
    case Commitments(_, _) => m.to == c.p
    case SignPackage(_, _) => m.from == c.p && m.to in c.chosen
    case SignatureShare(_, _) => m.to == c.p
  }

  ghost predicate Base(w: World, c: Case) {
    && (forall i :: i in w.delivered ==> i < |w.sent|)
    && (forall i :: 0 <= i < |w.sent| ==> Directed(c, w.sent[i]))
    && w.sessions == map[c.id := Session(c.p, c.text, c.chosen)]
    && HasKeys(w, c.p) && c.min >= 2
    && forall q :: q in c.chosen ==> HasKeys(w, q) && RequestTo(c, q) in w.sent
  }

  /** The peer waits for the package of the session with this nonce. */
  ghost predicate Ready(s: SigningState, c: Case, nonce: Nonce) {
    s.active.Some? && s.active.value.signId == c.id && s.active.value.nonce == nonce
  }

  /** A peer that was asked has committed, and waits or has sent its share. */
  ghost predicate Replied(w: World, c: Case, q: PeerId, nonce: Nonce)
    requires q in w.nodes
  {
    CommitFrom(c, q, Commitment(nonce)) in w.sent && (Ready(w.nodes[q], c, nonce) || ShareSent(w, c, q))
  }

  ghost predicate PeerInv(w: World, c: Case, q: PeerId)
    requires q in w.nodes
  {
    && (Got(w, RequestTo(c, q)) ==> exists nonce :: Replied(w, c, q, nonce))
    && (forall package :: Got(w, PackageTo(c, q, package)) ==> ShareSent(w, c, q))
  }

  ghost predicate Peers(w: World, c: Case) {
    forall q :: q in c.chosen ==> q in w.nodes && PeerInv(w, c, q)
  }

  /** The commitments are those that the peers sent. */
  ghost predicate Genuine(w: World, c: Case, cms: map<PeerId, Commitment>) {
    forall q :: q in cms && q != c.p ==> CommitFrom(c, q, cms[q]) in w.sent
  }

  ghost predicate PackageInv(w: World, c: Case) {
    c.id in w.packages ==>
      var package := w.packages[c.id];
      && Genuine(w, c, package.commitments) && package.commitments.Keys == Signers(Session(c.p, c.text, c.chosen))
      && |package.commitments.Keys| == c.min
      && forall q :: q in c.chosen ==> PackageTo(c, q, package) in w.sent
  }

  /** The coordinator collects, and has not all it waits for. */
  ghost predicate Collecting(w: World, c: Case, a: Active) {
    && a.isCoordinator && a.signId == c.id && Genuine(w, c, a.commitments)
    && (forall q, cm :: Got(w, CommitFrom(c, q, cm)) ==> q in a.commitments)
    && (forall q, sh :: Got(w, ShareFrom(c, q, sh)) ==> q in a.shares)
    && match a.package
       case None => |a.commitments.Keys| != c.min
       case Some(package) =>
         c.p in a.shares && |a.shares.Keys| != c.min && c.id in w.packages && w.packages[c.id] == package
  }

  ghost predicate Status(w: World, c: Case)
    requires c.p in w.nodes
  {
    var s := w.nodes[c.p];
    if w.aggregations == [] then s.active.Some? && Collecting(w, c, s.active.value)
    else |w.aggregations| == 1 && s.active.None?
  }

  ghost predicate SessionState(w: World, c: Case) {
    Base(w, c) && Peers(w, c) && PackageInv(w, c) && c.p in w.nodes && Status(w, c)
  }

  // ---------- Quiescence ----------

  lemma {:induction false} AllCommitted(w: World, c: Case, q: PeerId) returns (cm: Commitment)
    requires Base(w, c) && Peers(w, c) && Quiescent(w) && q in c.chosen
    ensures Got(w, CommitFrom(c, q, cm))
  {
    QuiescentGot(w, RequestTo(c, q));
    assert PeerInv(w, c, q);
    var nonce :| Replied(w, c, q, nonce);
    cm := Commitment(nonce);
    QuiescentGot(w, CommitFrom(c, q, cm));
  }

  lemma {:induction false} AllShared(w: World, c: Case, q: PeerId) returns (sh: Share)
    requires Base(w, c) && Peers(w, c) && PackageInv(w, c) && c.id in w.packages && Quiescent(w) && q in c.chosen
    ensures Got(w, ShareFrom(c, q, sh))
  {
    QuiescentGot(w, PackageTo(c, q, w.packages[c.id]));
    assert PeerInv(w, c, q);
    sh :| ShareFrom(c, q, sh) in w.sent;
    QuiescentGot(w, ShareFrom(c, q, sh));
  }

  lemma {:induction false} SignersMembers(c: Case, q: PeerId)
    ensures q in Signers(Session(c.p, c.text, c.chosen)) <==> q == c.p || q in c.chosen
  {
  }

  lemma {:induction false} CollectsAll(w: World, c: Case, a: Active)
    requires Base(w, c) && Peers(w, c) && Quiescent(w) && Collecting(w, c, a)
    requires CoordinatorInv(w, c.min, c.p, a)
    ensures a.commitments.Keys == Signers(Session(c.p, c.text, c.chosen))
  {
    forall q | q in Signers(Session(c.p, c.text, c.chosen))
      ensures q in a.commitments
    {
      SignersMembers(c, q);
      if q != c.p {
        var cm := AllCommitted(w, c, q);
      }
    }
  }

  lemma {:induction false} SharesAll(w: World, c: Case, a: Active)
    requires Base(w, c) && Peers(w, c) && PackageInv(w, c) && Quiescent(w) && Collecting(w, c, a)
    requires CoordinatorInv(w, c.min, c.p, a) && a.package.Some?
    ensures a.shares.Keys == a.commitments.Keys
  {
    forall q | q in a.commitments
      ensures q in a.shares
    {
      SignersMembers(c, q);
      if q != c.p {
        var sh := AllShared(w, c, q);
      }
    }
  }

  /** When nothing is left to deliver, the session has been aggregated. */
  lemma {:induction false} QuiescentAggregated(w: World, c: Case)
    requires SessionState(w, c) && Inv(w, c.min) && Quiescent(w)
    ensures |w.aggregations| == 1
  {
    if w.aggregations == [] {
      var a := w.nodes[c.p].active.value;
      assert NodeInv(w, c.min, c.p);
      assert SessionInv(w.sessions[c.id], c.min);
      CollectsAll(w, c, a);
      if a.package.Some? {
        SharesAll(w, c, a);
      }
      assert false;
    }
  }

  // ---------- One delivery ----------

  /** `w'` is `w` after message `i` is delivered and `more` is sent. */
  ghost predicate Delivered(w: World, w': World, i: nat, more: seq<Envelope>) {
    && i < |w.sent| && w'.sent == w.sent + more && w'.delivered == w.delivered + {i} && w'.sessions == w.sessions
    && (forall q :: HasKeys(w, q) ==> HasKeys(w', q))
    && forall q :: q in w.nodes && q != w.sent[i].to ==> q in w'.nodes && w'.nodes[q] == w.nodes[q]
  }

  lemma {:induction false} GotAfter(w: World, w': World, i: nat, more: seq<Envelope>, m: Envelope)
    requires Delivered(w, w', i, more) && forall k :: k in w.delivered ==> k < |w.sent|
    ensures Got(w', m) <==> Got(w, m) || m == w.sent[i]
  {
    if Got(w, m) {
      var k :| k in w.delivered && k < |w.sent| && w.sent[k] == m;
      assert k in w'.delivered && w'.sent[k] == m;
    }
    if m == w.sent[i] {
      assert i in w'.delivered && w'.sent[i] == m;
    }
    if Got(w', m) {
      var k :| k in w'.delivered && k < |w'.sent| && w'.sent[k] == m;
      assert k == i || k in w.delivered;
      assert w.sent[k] == m;
    }
  }

  lemma {:induction false} BaseAfter(w: World, w': World, c: Case, i: nat, more: seq<Envelope>)
    requires Base(w, c) && Delivered(w, w', i, more) && forall k :: 0 <= k < |more| ==> Directed(c, more[k])
    ensures Base(w', c)
  {
    forall k | 0 <= k < |w'.sent|
      ensures Directed(c, w'.sent[k])
    {
      assert w'.sent[k] == if k < |w.sent| then w.sent[k] else more[k - |w.sent|];
    }
  }

  lemma {:induction false} PeerAfter(w: World, w': World, c: Case, i: nat, more: seq<Envelope>, q: PeerId)
    requires Base(w, c) && Delivered(w, w', i, more) && q in w.nodes && PeerInv(w, c, q) && w.sent[i].to != q
    ensures PeerInv(w', c, q)
  {
    GotAfter(w, w', i, more, RequestTo(c, q));
    forall package | Got(w', PackageTo(c, q, package))
      ensures ShareSent(w', c, q)
    {
      GotAfter(w, w', i, more, PackageTo(c, q, package));
      ShareStays(w, w', c, q);
    }
    if Got(w, RequestTo(c, q)) {
      var nonce :| Replied(w, c, q, nonce);
      RepliedStays(w, w', c, q, nonce);
    }
  }

  lemma {:induction false} ShareStays(w: World, w': World, c: Case, q: PeerId)
    requires ShareSent(w, c, q) && w.sent <= w'.sent
    ensures ShareSent(w', c, q)
  {
    var sh :| ShareFrom(c, q, sh) in w.sent;
    assert ShareFrom(c, q, sh) in w'.sent;
  }

  lemma {:induction false} RepliedStays(w: World, w': World, c: Case, q: PeerId, nonce: Nonce)
    requires q in w.nodes && q in w'.nodes && Replied(w, c, q, nonce) && w.sent <= w'.sent
    requires w'.nodes[q] == w.nodes[q] || ShareSent(w', c, q)
    ensures Replied(w', c, q, nonce)
  {
    if ShareSent(w, c, q) {
      ShareStays(w, w', c, q);
    }
  }

  lemma {:induction false} PeersAfter(w: World, w': World, c: Case, i: nat, more: seq<Envelope>)
    requires Base(w, c) && Peers(w, c) && Delivered(w, w', i, more)
    requires w.sent[i].to in c.chosen ==> w.sent[i].to in w'.nodes && PeerInv(w', c, w.sent[i].to)
    ensures Peers(w', c)
  {
    forall q | q in c.chosen
      ensures q in w'.nodes && PeerInv(w', c, q)
    {
      if q != w.sent[i].to {
        PeerAfter(w, w', c, i, more, q);
      }
    }
  }

  lemma {:induction false} GenuineStays(w: World, w': World, c: Case, cms: map<PeerId, Commitment>)
    requires Genuine(w, c, cms) && w.sent <= w'.sent
    ensures Genuine(w', c, cms)
  {
  }

  lemma {:induction false} PackageStays(w: World, w': World, c: Case)
    requires PackageInv(w, c) && w.sent <= w'.sent && w'.packages == w.packages
    ensures PackageInv(w', c)
  {
    if c.id in w.packages {
      GenuineStays(w, w', c, w.packages[c.id].commitments);
    }
  }

  /** The coordinator does not notice what is delivered to others. */
  lemma {:induction false} StatusAfter(w: World, w': World, c: Case, i: nat, more: seq<Envelope>)
    requires Base(w, c) && Status(w, c) && Delivered(w, w', i, more) && w.sent[i].to != c.p
    requires w'.packages == w.packages && w'.aggregations == w.aggregations
    ensures Status(w', c)
  {
    if w.aggregations == [] {
      CollectingAfter(w, w', c, i, more, w.nodes[c.p].active.value);
    }
  }

  /** Nor a message of another kind, or one that does not decode. */
  lemma {:induction false} CollectingAfter(w: World, w': World, c: Case, i: nat, more: seq<Envelope>, a: Active)
    requires Base(w, c) && Collecting(w, c, a) && Delivered(w, w', i, more) && w'.packages == w.packages
    requires forall q, cm :: w.sent[i] == CommitFrom(c, q, cm) ==> q in a.commitments
    requires forall q, sh :: w.sent[i] == ShareFrom(c, q, sh) ==> q in a.shares
    ensures Collecting(w', c, a)
  {
    GenuineStays(w, w', c, a.commitments);
    forall q, cm | Got(w', CommitFrom(c, q, cm))
      ensures q in a.commitments
    {
      GotAfter(w, w', i, more, CommitFrom(c, q, cm));
    }
    forall q, sh | Got(w', ShareFrom(c, q, sh))
      ensures q in a.shares
    {
      GotAfter(w, w', i, more, ShareFrom(c, q, sh));
    }
  }

  // ---------- A request arrives ----------

  lemma {:induction false} AskedGot(w: World, c: Case, q: PeerId)
    requires Base(w, c) && Messages(w) && Asked(w, c.id, q)
    ensures Got(w, RequestTo(c, q))
  {
    var i :| i in w.delivered && i < |w.sent| && IsRequest(w.sent[i], c.id, q);
    assert Honest(w, w.sent[i]);
    assert w.sent[i] == RequestTo(c, q);
  }

  lemma {:induction false} RequestReplied(w: World, w': World, c: Case, i: nat, q: PeerId, nonce: Nonce)
    requires Base(w, c) && i < |w.sent| && w.sent[i] == RequestTo(c, q)
    requires q in w.nodes && PeerInv(w, c, q)
    requires Delivered(w, w', i, [CommitFrom(c, q, Commitment(nonce))]) && q in w'.nodes && Ready(w'.nodes[q], c, nonce)
    ensures PeerInv(w', c, q)
  {
    var more := [CommitFrom(c, q, Commitment(nonce))];
    assert w'.sent[|w.sent|] == more[0];
    assert Replied(w', c, q, nonce);
    forall package | Got(w', PackageTo(c, q, package))
      ensures ShareSent(w', c, q)
    {
      GotAfter(w, w', i, more, PackageTo(c, q, package));
      ShareStays(w, w', c, q);
    }
  }

  lemma {:induction false} RequestKeeps(w: World, c: Case, i: nat)
    requires SessionState(w, c) && Messages(w) && c.p !in c.chosen
    requires Enabled(w, c.min, Arrive(i)) && w.sent[i].msg.SignRequest?
    ensures SessionState(AfterArrive(w, c.min, i), c)
  {
    var q, w' := w.sent[i].to, AfterArrive(w, c.min, i);
    assert Directed(c, w.sent[i]) && Honest(w, w.sent[i]);
    assert w.sent[i] == RequestTo(c, q) && HasKeys(w, q) && PeerInv(w, c, q);
    var nonce := Nonce(q, w.nodes[q].serial);
    var more := [CommitFrom(c, q, Commitment(nonce))];
    assert Wrap(q, [Outgoing(c.p, Commitments(c.id, Some(Commitment(nonce))))]) == more;
    assert Delivered(w, w', i, more);
    RequestReplied(w, w', c, i, q, nonce);
    AwayKeeps(w, w', c, i, more);
  }

  /** What a delivery to a peer leaves to show: that peer, and what it sends. */
  lemma {:induction false} AwayKeeps(w: World, w': World, c: Case, i: nat, more: seq<Envelope>)
    requires SessionState(w, c) && Delivered(w, w', i, more) && w.sent[i].to != c.p
    requires w.sent[i].to in w'.nodes && PeerInv(w', c, w.sent[i].to)
    requires forall k :: 0 <= k < |more| ==> Directed(c, more[k])
    requires w'.packages == w.packages && w'.aggregations == w.aggregations
    ensures SessionState(w', c)
  {
    BaseAfter(w, w', c, i, more);
    PeersAfter(w, w', c, i, more);
    PackageStays(w, w', c);
    StatusAfter(w, w', c, i, more);
  }

  // ---------- The package arrives ----------

  lemma {:induction false} OneCommitmentOf(w: World, c: Case, q: PeerId, x: Commitment, y: Commitment)
    requires OneCommitment(w) && CommitFrom(c, q, x) in w.sent && CommitFrom(c, q, y) in w.sent
    ensures x == y
  {
    var i :| 0 <= i < |w.sent| && w.sent[i] == CommitFrom(c, q, x);
    var j :| 0 <= j < |w.sent| && w.sent[j] == CommitFrom(c, q, y);
    assert IsCommitment(w.sent[i], c.id, q) && IsCommitment(w.sent[j], c.id, q);
    assert i == j;
  }

  /** A peer of the session whose package is built waits with the nonce in it,
      or has sent its share. */
  lemma {:induction false} PeerWaits(w: World, c: Case, q: PeerId) returns (nonce: Nonce)
    requires Base(w, c) && Messages(w) && PackageInv(w, c) && c.id in w.packages
    requires q in c.chosen && q != c.p && PeerInv(w, c, q)
    ensures q in w.packages[c.id].commitments && w.packages[c.id].commitments[q] == Commitment(nonce)
    ensures Replied(w, c, q, nonce)
  {
    var cms := w.packages[c.id].commitments;
    SignersMembers(c, q);
    var i :| 0 <= i < |w.sent| && w.sent[i] == CommitFrom(c, q, cms[q]);
    assert Honest(w, w.sent[i]);
    AskedGot(w, c, q);
    nonce :| Replied(w, c, q, nonce);
    OneCommitmentOf(w, c, q, cms[q], Commitment(nonce));
  }

  /** The answer of such a peer to the package. */
  lemma {:induction false} PeerSigns(cfg: Config, s: SigningState, from: PeerId, id: SignId, package: SigningPackage,
                                     nonce: Nonce)
    requires s.hasKeys && s.active.Some? && s.active.value.signId == id && s.active.value.nonce == nonce
    requires |package.commitments.Keys| >= cfg.threshold
    requires cfg.me in package.commitments && package.commitments[cfg.me] == Commitment(nonce)
    ensures OnSignPackage(cfg, s, from, id, Some(package)).out ==
            [Outgoing(from, SignatureShare(id, Some(Share(cfg.me, nonce, package))))]
  {
  }

  lemma {:induction false} PackageAnswers(w: World, c: Case, i: nat)
    requires SessionState(w, c) && Messages(w) && c.p !in c.chosen && i < |w.sent| && w.sent[i].msg.SignPackage?
    requires w.sent[i].to in w.nodes
    ensures ShareSent(AfterArrive(w, c.min, i), c, w.sent[i].to)
  {
    var q, w' := w.sent[i].to, AfterArrive(w, c.min, i);
    assert Directed(c, w.sent[i]) && Honest(w, w.sent[i]);
    assert PeerInv(w, c, q) && HasKeys(w, q);
    var package := w.packages[c.id];
    assert w.sent[i] == PackageTo(c, q, package);
    var nonce := PeerWaits(w, c, q);
    if ShareSent(w, c, q) {
      ShareStays(w, w', c, q);
    } else {
      PeerSigns(ConfigOf(q, c.min), w.nodes[q], c.p, c.id, package, nonce);
      var sh := Share(q, nonce, package);
      assert w'.sent[|w.sent|] == ShareFrom(c, q, sh);
      assert ShareFrom(c, q, sh) in w'.sent;
    }
  }

  lemma {:induction false} SharePeer(w: World, w': World, c: Case, i: nat, more: seq<Envelope>, q: PeerId)
    requires Base(w, c) && Delivered(w, w', i, more) && w.sent[i] != RequestTo(c, q)
    requires q in w.nodes && q in w'.nodes && PeerInv(w, c, q) && ShareSent(w', c, q)
    ensures PeerInv(w', c, q)
  {
    GotAfter(w, w', i, more, RequestTo(c, q));
    if Got(w, RequestTo(c, q)) {
      var nonce :| Replied(w, c, q, nonce);
      RepliedStays(w, w', c, q, nonce);
    }
  }

  /** What the answer to the package is, at most. */
  lemma {:induction false} PackageReply(w: World, c: Case, i: nat) returns (more: seq<Envelope>)
    requires Base(w, c) && Enabled(w, c.min, Arrive(i)) && w.sent[i].msg.SignPackage? && Honest(w, w.sent[i])
    ensures Delivered(w, AfterArrive(w, c.min, i), i, more)
    ensures forall k :: 0 <= k < |more| ==> Directed(c, more[k])
    ensures var w' := AfterArrive(w, c.min, i);
            w'.packages == w.packages && w'.aggregations == w.aggregations && w.sent[i].to in w'.nodes
  {
    var m := w.sent[i];
    var e := OnSignPackage(ConfigOf(m.to, c.min), w.nodes[m.to], m.from, m.msg.signId, m.msg.package);
    more := Wrap(m.to, e.out);
    assert Directed(c, m);
    PackageHandled(w, c.min, i);
    AnswerOut(ConfigOf(m.to, c.min), w.nodes[m.to], m.from, m.msg.signId, m.msg.package.value);
    assert forall k :: 0 <= k < |more| ==> more[k].to == c.p && more[k].msg.SignatureShare?;
  }

  lemma {:induction false} PackageKeeps(w: World, c: Case, i: nat)
    requires SessionState(w, c) && Messages(w) && c.p !in c.chosen
    requires Enabled(w, c.min, Arrive(i)) && w.sent[i].msg.SignPackage?
    ensures SessionState(AfterArrive(w, c.min, i), c)
  {
    var q, w' := w.sent[i].to, AfterArrive(w, c.min, i);
    assert Honest(w, w.sent[i]) && Directed(c, w.sent[i]);
    var more := PackageReply(w, c, i);
    assert PeerInv(w', c, q) by {
      assert PeerInv(w, c, q);
      PackageAnswers(w, c, i);
      SharePeer(w, w', c, i, more, q);
    }
    AwayKeeps(w, w', c, i, more);
  }

  // ---------- A commitment arrives ----------

  /** What a delivery to the coordinator leaves to show. */
  lemma {:induction false} HomeKeeps(w: World, w': World, c: Case, i: nat, more: seq<Envelope>)
    requires SessionState(w, c) && Delivered(w, w', i, more) && w.sent[i].to == c.p && c.p !in c.chosen
    requires forall k :: 0 <= k < |more| ==> Directed(c, more[k])
    requires PackageInv(w', c) && c.p in w'.nodes && Status(w', c)
    ensures SessionState(w', c)
  {
    BaseAfter(w, w', c, i, more);
    PeersAfter(w, w', c, i, more);
  }

  /** A delivery to the coordinator that changes nothing but the record. */
  lemma {:induction false} IgnoredKeeps(w: World, w': World, c: Case, i: nat)
    requires SessionState(w, c) && i < |w.sent| && w.sent[i].to == c.p && c.p !in c.chosen
    requires w' == Handled(w, i, w.nodes[c.p], [])
    requires w.aggregations != [] || (forall q, cm :: w.sent[i] != CommitFrom(c, q, cm))
    requires w.aggregations != [] || (forall q, sh :: w.sent[i] != ShareFrom(c, q, sh))
    ensures SessionState(w', c)
  {
    assert w'.sent == w.sent + [] && Delivered(w, w', i, []);
    PackageStays(w, w', c);
    if w.aggregations == [] {
      CollectingAfter(w, w', c, i, [], w.nodes[c.p].active.value);
    }
    HomeKeeps(w, w', c, i, []);
  }

  /** The coordinator with one more commitment. */
  lemma {:induction false} CommitCollects(w: World, w': World, c: Case, i: nat, more: seq<Envelope>, a: Active,
                                          q: PeerId, cm: Commitment)
    requires Base(w, c) && Collecting(w, c, a) && Delivered(w, w', i, more) && w.sent[i] == CommitFrom(c, q, cm)
    ensures Genuine(w', c, a.commitments[q := cm])
    ensures forall r, x :: Got(w', CommitFrom(c, r, x)) ==> r in a.commitments[q := cm]
    ensures forall r, x :: Got(w', ShareFrom(c, r, x)) ==> r in a.shares
  {
    assert w'.sent[i] == CommitFrom(c, q, cm);
    forall r, x | Got(w', CommitFrom(c, r, x))
      ensures r in a.commitments[q := cm]
    {
      GotAfter(w, w', i, more, CommitFrom(c, r, x));
    }
    forall r, x | Got(w', ShareFrom(c, r, x))
      ensures r in a.shares
    {
      GotAfter(w, w', i, more, ShareFrom(c, r, x));
    }
  }

  lemma {:induction false} CommitMore(w: World, w': World, c: Case, i: nat, a: Active, q: PeerId, cm: Commitment)
    requires SessionState(w, c) && w.aggregations == [] && w.nodes[c.p].active == Some(a) && c.p !in c.chosen
    requires i < |w.sent| && w.sent[i] == CommitFrom(c, q, cm) && a.package.None?
    requires var held := a.commitments[q := cm];
             && |held.Keys| != c.min
             && w' == Handled(w, i, w.nodes[c.p].(active := Some(a.(commitments := held))), [])
    ensures SessionState(w', c)
  {
    assert w'.sent == w.sent + [] && Delivered(w, w', i, []);
    CommitCollects(w, w', c, i, [], a, q, cm);
    PackageStays(w, w', c);
    HomeKeeps(w, w', c, i, []);
  }

  /** The package reaches the network. */
  lemma {:induction false} PackageSent(w: World, w': World, c: Case, package: SigningPackage)
    requires w'.sent == w.sent + Wrap(c.p, ToAll(c.chosen, SignPackage(c.id, Some(package))))
    ensures forall q :: q in c.chosen ==> PackageTo(c, q, package) in w'.sent
    ensures forall k :: 0 <= k < |c.chosen| ==>
              Directed(c, Wrap(c.p, ToAll(c.chosen, SignPackage(c.id, Some(package))))[k])
  {
    forall q | q in c.chosen
      ensures PackageTo(c, q, package) in w'.sent
    {
      var k :| 0 <= k < |c.chosen| && c.chosen[k] == q;
      assert w'.sent[|w.sent| + k] == PackageTo(c, q, package);
    }
  }

  lemma {:induction false} CommitBuilds(w: World, w': World, c: Case, i: nat, a: Active, q: PeerId, cm: Commitment)
    requires SessionState(w, c) && w.aggregations == [] && w.nodes[c.p].active == Some(a) && c.p !in c.chosen
    requires i < |w.sent| && w.sent[i] == CommitFrom(c, q, cm) && a.shares == map[] && a.selectedPeers == c.chosen
    requires w.nodes[c.p].hasKeys && a.signId == c.id
    requires var held := a.commitments[q := cm];
             && |held.Keys| == c.min && held.Keys == Signers(Session(c.p, c.text, c.chosen))
             && var package := SigningPackage(held, a.message);
                w' == Packaged(w, i, a, package, Share(c.p, a.nonce, package))
    ensures SessionState(w', c)
  {
    var package := SigningPackage(a.commitments[q := cm], a.message);
    var more := Wrap(c.p, ToAll(c.chosen, SignPackage(c.id, Some(package))));
    var share := Share(c.p, a.nonce, package);
    var done := a.(commitments := package.commitments, package := Some(package), shares := map[c.p := share]);
    PackagedDelivers(w, w', c, i, a, package, share, done);
    PackageSent(w, w', c, package);
    CommitCollects(w, w', c, i, more, a, q, cm);
    BuiltCollects(w', c, done, package, share);
    HomeKeeps(w, w', c, i, more);
  }

  lemma {:induction false} PackagedDelivers(w: World, w': World, c: Case, i: nat, a: Active, package: SigningPackage,
                                            share: Share, done: Active)
    requires i < |w.sent| && w.sent[i].to == c.p && c.p in w.nodes && w' == Packaged(w, i, a, package, share)
    requires a.shares == map[] && a.selectedPeers == c.chosen && a.signId == c.id
    requires done == a.(commitments := package.commitments, package := Some(package), shares := map[c.p := share])
    ensures Delivered(w, w', i, Wrap(c.p, ToAll(c.chosen, SignPackage(c.id, Some(package)))))
    ensures c.p in w'.nodes && w'.nodes[c.p].active == Some(done) && w'.aggregations == w.aggregations
    ensures c.id in w'.packages && w'.packages[c.id] == package
  {
  }

  lemma {:induction false} BuiltCollects(w': World, c: Case, done: Active, package: SigningPackage, share: Share)
    requires done.isCoordinator && done.signId == c.id && done.package == Some(package) && c.min >= 2
    requires done.commitments == package.commitments && done.shares == map[c.p := share]
    requires Genuine(w', c, package.commitments) && c.id in w'.packages && w'.packages[c.id] == package
    requires package.commitments.Keys == Signers(Session(c.p, c.text, c.chosen)) && |package.commitments.Keys| == c.min
    requires forall q :: q in c.chosen ==> PackageTo(c, q, package) in w'.sent
    requires forall r, x :: Got(w', CommitFrom(c, r, x)) ==> r in package.commitments
    requires forall r, x :: !Got(w', ShareFrom(c, r, x))
    ensures Collecting(w', c, done) && PackageInv(w', c)
  {
    assert done.shares.Keys == {c.p};
  }

  lemma {:induction false} CommitArrives(w: World, c: Case, i: nat, a: Active, q: PeerId, cm: Commitment)
    requires SessionState(w, c) && Inv(w, c.min) && w.aggregations == [] && w.nodes[c.p].active == Some(a)
    requires Enabled(w, c.min, Arrive(i)) && w.sent[i] == CommitFrom(c, q, cm)
    ensures q != c.p && a.package.None? && a.shares == map[] && a.selectedPeers == c.chosen && w.nodes[c.p].hasKeys
    ensures |a.commitments[q := cm].Keys| == c.min ==>
              a.commitments[q := cm].Keys == Signers(Session(c.p, c.text, c.chosen))
  {
    CoordinatorAt(w, c.min, c.p, c.id);
    CommitmentIsNew(w, c.min, i, c.p, a);
    if |a.commitments[q := cm].Keys| == c.min {
      PackageIsFull(w, w.(delivered := w.delivered + {i}), c.min, i, c.p, a, cm);
    }
  }

  lemma {:induction false} CommitKeeps(w: World, c: Case, i: nat)
    requires SessionState(w, c) && Inv(w, c.min) && c.p !in c.chosen
    requires Enabled(w, c.min, Arrive(i)) && w.sent[i].msg.Commitments?
    ensures SessionState(AfterArrive(w, c.min, i), c)
  {
    var m, w' := w.sent[i], AfterArrive(w, c.min, i);
    assert Directed(c, m) && Honest(w, m);
    var s := w.nodes[c.p];
    if w.aggregations != [] || m.msg.commitment.None? {
      assert w' == Handled(w, i, s, []);
      IgnoredKeeps(w, w', c, i);
    } else {
      var a, q, cm := s.active.value, m.from, m.msg.commitment.value;
      assert m == CommitFrom(c, q, cm);
      CommitArrives(w, c, i, a, q, cm);
      if |a.commitments[q := cm].Keys| != c.min {
        assert w' == Handled(w, i, s.(active := Some(a.(commitments := a.commitments[q := cm]))), []);
        CommitMore(w, w', c, i, a, q, cm);
      } else {
        PackagedIs(w, c.min, i, a, cm);
        CommitBuilds(w, w', c, i, a, q, cm);
      }
    }
  }

  // ---------- A share arrives ----------

  lemma {:induction false} ShareMore(w: World, w': World, c: Case, i: nat, a: Active, q: PeerId, sh: Share)
    requires SessionState(w, c) && w.aggregations == [] && w.nodes[c.p].active == Some(a) && c.p !in c.chosen
    requires i < |w.sent| && w.sent[i] == ShareFrom(c, q, sh) && a.package.Some?
    requires var shares := a.shares[q := sh];
             && |shares.Keys| != c.min
             && w' == Handled(w, i, w.nodes[c.p].(active := Some(a.(shares := shares))), [])
    ensures SessionState(w', c)
  {
    assert w'.sent == w.sent + [] && Delivered(w, w', i, []);
    var a' := a.(shares := a.shares[q := sh]);
    forall r, x | Got(w', ShareFrom(c, r, x))
      ensures r in a'.shares
    {
      GotAfter(w, w', i, [], ShareFrom(c, r, x));
    }
    forall r, x | Got(w', CommitFrom(c, r, x))
      ensures r in a'.commitments
    {
      GotAfter(w, w', i, [], CommitFrom(c, r, x));
    }
    PackageStays(w, w', c);
    GenuineStays(w, w', c, a.commitments);
    HomeKeeps(w, w', c, i, []);
  }

  lemma {:induction false} ShareCompletes(w: World, w': World, c: Case, i: nat, g: Aggregation)
    requires SessionState(w, c) && w.aggregations == [] && c.p !in c.chosen
    requires i < |w.sent| && w.sent[i].to == c.p
    requires w' == Handled(w, i, w.nodes[c.p].(active := None), []).(aggregations := w.aggregations + [g])
    ensures SessionState(w', c)
  {
    assert w'.sent == w.sent + [] && Delivered(w, w', i, []);
    PackageStays(w, w', c);
    HomeKeeps(w, w', c, i, []);
  }

  lemma {:induction false} ShareKeeps(w: World, c: Case, i: nat)
    requires SessionState(w, c) && Inv(w, c.min) && c.p !in c.chosen
    requires Enabled(w, c.min, Arrive(i)) && w.sent[i].msg.SignatureShare?
    ensures SessionState(AfterArrive(w, c.min, i), c)
  {
    var m, w' := w.sent[i], AfterArrive(w, c.min, i);
    assert Directed(c, m) && Honest(w, m);
    var s := w.nodes[c.p];
    if w.aggregations != [] {
      IdleHandled(w, c.min, i);
      IgnoredKeeps(w, w', c, i);
    } else {
      ShareCounts(w, c, i, s.active.value);
    }
  }

  /** A node without a session changes nothing on a commitment or a share. */
  lemma {:induction false} IdleHandled(w: World, min: nat, i: nat)
    requires i < |w.sent| && w.sent[i].to in w.nodes && w.nodes[w.sent[i].to].active.None?
    requires w.sent[i].msg.Commitments? || w.sent[i].msg.SignatureShare?
    ensures AfterArrive(w, min, i) == Handled(w, i, w.nodes[w.sent[i].to], [])
  {
  }

  lemma {:induction false} ShareCounts(w: World, c: Case, i: nat, a: Active)
    requires SessionState(w, c) && Inv(w, c.min) && c.p !in c.chosen && w.aggregations == []
    requires w.nodes[c.p].active == Some(a)
    requires Enabled(w, c.min, Arrive(i)) && w.sent[i].msg.SignatureShare? && w.sent[i].to == c.p
    requires Honest(w, w.sent[i])
    ensures SessionState(AfterArrive(w, c.min, i), c)
  {
    var m, w' := w.sent[i], AfterArrive(w, c.min, i);
    CoordinatorAt(w, c.min, c.p, c.id);
    ShareArrives(w, c.min, m, c.p, a);
    var shares := a.shares[m.from := m.msg.share.value];
    ShareHandled(w, c.min, i, a, shares);
    if |shares.Keys| != c.min {
      ShareMore(w, w', c, i, a, m.from, m.msg.share.value);
    } else {
      ShareCompletes(w, w', c, i, Aggregation(c.id, a.package.value, shares));
    }
  }

  lemma {:induction false} ShareHandled(w: World, min: nat, i: nat, a: Active, shares: map<PeerId, Share>)
    requires i < |w.sent| && w.sent[i].to in w.nodes && w.sent[i].msg.SignatureShare? && w.sent[i].msg.share.Some?
    requires var s := w.nodes[w.sent[i].to];
             s.hasKeys && s.active == Some(a) && Coordinates(s, w.sent[i].msg.signId) && a.package.Some?
    requires shares == a.shares[w.sent[i].from := w.sent[i].msg.share.value]
    ensures var s := w.nodes[w.sent[i].to];
            AfterArrive(w, min, i) ==
            if |shares.Keys| != min then Handled(w, i, s.(active := Some(a.(shares := shares))), [])
            else Handled(w, i, s.(active := None), [])
                   .(aggregations := w.aggregations + [Aggregation(a.signId, a.package.value, shares)])
  {
  }

  lemma {:induction false} ArriveKeeps(w: World, c: Case, i: nat)
    requires SessionState(w, c) && Inv(w, c.min) && c.p !in c.chosen && Enabled(w, c.min, Arrive(i))
    ensures SessionState(AfterArrive(w, c.min, i), c)
  {
    match w.sent[i].msg
    case SignRequest(_, _) => RequestKeeps(w, c, i);
    case Commitments(_, _) => CommitKeeps(w, c, i);
    case SignPackage(_, _) => PackageKeeps(w, c, i);
    case SignatureShare(_, _) => ShareKeeps(w, c, i);
  }

  // ---------- The run ----------

  /** A session begins, and then messages arrive. */
  function SessionRun(p: PeerId, text: Option<Bytes>, id: SignId, chosen: seq<PeerId>, rest: seq<nat>): seq<Event> {
    [Begin(p, text, id, chosen)] + seq(|rest|, k requires 0 <= k < |rest| => Arrive(rest[k]))
  }

  lemma {:induction false} SessionRunSnoc(p: PeerId, text: Option<Bytes>, id: SignId, chosen: seq<PeerId>,
                                          rest: seq<nat>, i: nat)
    ensures SessionRun(p, text, id, chosen, rest + [i]) == SessionRun(p, text, id, chosen, rest) + [Arrive(i)]
    ensures SessionRun(p, text, id, chosen, []) == [Begin(p, text, id, chosen)]
  {
  }

  lemma {:induction false} AfterSnoc(w0: World, min: nat, evs: seq<Event>, ev: Event)
    ensures After(w0, min, evs + [ev]) ==
            match After(w0, min, evs)
            case None => None
            case Some(w) => if Enabled(w, min, ev) then Some(Next(w, min, ev)) else None
  {
    assert (evs + [ev])[..|evs|] == evs;
  }

  /** The world before the last message of the run arrives. */
  lemma {:induction false} BeforeLast(w0: World, min: nat, p: PeerId, text: Option<Bytes>, id: SignId,
                                      chosen: seq<PeerId>, rest: seq<nat>, w: World) returns (mid: World)
    requires rest != [] && After(w0, min, SessionRun(p, text, id, chosen, rest)) == Some(w)
    ensures After(w0, min, SessionRun(p, text, id, chosen, rest[..|rest| - 1])) == Some(mid)
    ensures Enabled(mid, min, Arrive(rest[|rest| - 1])) && w == AfterArrive(mid, min, rest[|rest| - 1])
  {
    var init, i := rest[..|rest| - 1], rest[|rest| - 1];
    assert rest == init + [i];
    SessionRunSnoc(p, text, id, chosen, init, i);
    AfterSnoc(w0, min, SessionRun(p, text, id, chosen, init), Arrive(i));
    mid := After(w0, min, SessionRun(p, text, id, chosen, init)).value;
  }

  /** The world in which the messages of the session start to arrive. */
  lemma {:induction false} RunBegins(w0: World, min: nat, p: PeerId, text: Option<Bytes>, id: SignId,
                                     chosen: seq<PeerId>, rest: seq<nat>, w: World)
    requires Initial(w0) && After(w0, min, SessionRun(p, text, id, chosen, rest)) == Some(w)
    ensures Enabled(w0, min, Begin(p, text, id, chosen)) && p !in chosen
    ensures var w1 := AfterBegin(w0, min, p, text, id, chosen);
            && w.sessions == w1.sessions && (rest == [] ==> w == w1) && (w1.sent == [] ==> rest == [])
  {
    if rest == [] {
      SessionRunSnoc(p, text, id, chosen, rest, 0);
      AfterSnoc(w0, min, [], Begin(p, text, id, chosen));
      assert [] + [Begin(p, text, id, chosen)] == [Begin(p, text, id, chosen)];
    } else {
      var mid := BeforeLast(w0, min, p, text, id, chosen, rest, w);
      RunBegins(w0, min, p, text, id, chosen, rest[..|rest| - 1], mid);
    }
  }

  /** Everybody who is to sign has keys. */
  ghost predicate AllHaveKeys(w: World, c: Case) {
    forall q :: q == c.p || q in c.chosen ==> HasKeys(w, q)
  }

  /** The requests are on their way. */
  lemma {:induction false} BegunBase(w: World, c: Case)
    requires w.sent == Wrap(c.p, ToAll(c.chosen, SignRequest(c.id, c.text))) && w.delivered == {}
    requires w.sessions == map[c.id := Session(c.p, c.text, c.chosen)]
    requires AllHaveKeys(w, c) && c.min >= 2
    ensures Base(w, c) && Peers(w, c)
  {
    forall q | q in c.chosen
      ensures HasKeys(w, q) && RequestTo(c, q) in w.sent
    {
      var k :| 0 <= k < |c.chosen| && c.chosen[k] == q;
      assert w.sent[k] == RequestTo(c, q);
    }
  }

  lemma {:induction false} BegunStatus(w: World, c: Case, a: Active)
    requires c.p in w.nodes && w.nodes[c.p].active == Some(a) && w.aggregations == [] && w.delivered == {} && c.min >= 2
    requires a.isCoordinator && a.signId == c.id && a.package.None? && a.commitments.Keys == {c.p}
    ensures Status(w, c)
  {
  }

  lemma {:induction false} BeginState(w0: World, c: Case)
    requires Initial(w0) && AllHaveKeys(w0, c) && c.min >= 2
    requires Enabled(w0, c.min, Begin(c.p, Some(c.text), c.id, c.chosen))
    requires CanStart(ConfigOf(c.p, c.min), w0.nodes[c.p], Some(c.text))
    ensures SessionState(AfterBegin(w0, c.min, c.p, Some(c.text), c.id, c.chosen), c)
  {
    var e := OnStart(ConfigOf(c.p, c.min), w0.nodes[c.p], Some(c.text), c.id, c.chosen);
    var w := AfterBegin(w0, c.min, c.p, Some(c.text), c.id, c.chosen);
    assert w.sent == [] + Wrap(c.p, e.out) && w.nodes == w0.nodes[c.p := e.s];
    assert forall q :: HasKeys(w, q) <==> HasKeys(w0, q);
    BegunBase(w, c);
    assert e.s.active.value.commitments.Keys == {c.p};
    BegunStatus(w, c, e.s.active.value);
  }

  lemma {:induction false} RunState(w0: World, c: Case, rest: seq<nat>, w: World)
    requires Initial(w0) && AllHaveKeys(w0, c) && c.min >= 2
    requires c.p in w0.nodes && CanStart(ConfigOf(c.p, c.min), w0.nodes[c.p], Some(c.text))
    requires After(w0, c.min, SessionRun(c.p, Some(c.text), c.id, c.chosen, rest)) == Some(w)
    ensures SessionState(w, c) && Inv(w, c.min) && c.p !in c.chosen
  {
    RunBegins(w0, c.min, c.p, Some(c.text), c.id, c.chosen, rest, w);
    ReachableInv(w0, c.min, SessionRun(c.p, Some(c.text), c.id, c.chosen, rest), w);
    if rest == [] {
      BeginState(w0, c);
    } else {
      var mid := BeforeLast(w0, c.min, c.p, Some(c.text), c.id, c.chosen, rest, w);
      RunState(w0, c, rest[..|rest| - 1], mid);
      ArriveKeeps(mid, c, rest[|rest| - 1]);
    }
  }

  // ---------- Results ----------

  /** The coordinator can start the session, needs more than itself, and every
      signer has keys. */
  ghost predicate Completable(w0: World, min: nat, p: PeerId, text: Option<Bytes>, chosen: seq<PeerId>) {
    && p in w0.nodes && CanStart(ConfigOf(p, min), w0.nodes[p], text) && min >= 2
    && forall q :: q in chosen ==> HasKeys(w0, q)
  }

  lemma {:induction false} AggregationComplete(w0: World, min: nat, p: PeerId, text: Option<Bytes>, id: SignId,
                                               chosen: seq<PeerId>, rest: seq<nat>, w: World, g: Aggregation)
    requires Initial(w0) && After(w0, min, SessionRun(p, text, id, chosen, rest)) == Some(w) && g in w.aggregations
    ensures Completable(w0, min, p, text, chosen) && g.signId == id
  {
    var evs := SessionRun(p, text, id, chosen, rest);
    RunBegins(w0, min, p, text, id, chosen, rest, w);
    ReachableInv(w0, min, evs, w);
    SignersHaveKeys(w0, min, evs, w);
    KeysKept(w0, min, evs, w);
    assert Sound(w, min, g) && SessionInv(w.sessions[g.signId], min);
    var w1 := AfterBegin(w0, min, p, text, id, chosen);
    assert CanStart(ConfigOf(p, min), w0.nodes[p], text);
    assert w1.sessions == map[id := Session(p, text.value, chosen)];
    forall q | q in chosen
      ensures HasKeys(w0, q)
    {
      SignersMembers(Case(p, id, text.value, chosen, min), q);
      assert q in g.shares;
    }
    assert chosen == [] ==> w1.sent == [];
  }

  /** A session that nothing disturbs, in whatever order its messages arrive,
      ends with exactly one aggregation if the coordinator could start it, more
      than one signer is needed and every chosen peer has keys; else with none. */
  lemma {:induction false} SessionCompletes(w0: World, min: nat, p: PeerId, text: Option<Bytes>, id: SignId,
                                            chosen: seq<PeerId>, rest: seq<nat>, w: World)
    requires Initial(w0) && After(w0, min, SessionRun(p, text, id, chosen, rest)) == Some(w) && Quiescent(w)
    ensures |w.aggregations| == if Completable(w0, min, p, text, chosen) then 1 else 0
    ensures forall g :: g in w.aggregations ==> g.signId == id && Sound(w, min, g)
  {
    AggregationsSound(w0, min, SessionRun(p, text, id, chosen, rest), w);
    assert |w.aggregations| > 0 ==> w.aggregations[0] in w.aggregations;
    forall g | g in w.aggregations
      ensures Completable(w0, min, p, text, chosen) && g.signId == id
    {
      AggregationComplete(w0, min, p, text, id, chosen, rest, w, g);
    }
    if Completable(w0, min, p, text, chosen) {
      var c := Case(p, id, text.value, chosen, min);
      RunState(w0, c, rest, w);
      QuiescentAggregated(w, c);
    }
  }

  // ---------- Sessions end ----------

  /** How many deliveries a message is good for, itself included; the building
      of the package is counted apart. */
  function Weight(m: Message): nat {
    if m.SignRequest? || m.SignPackage? then 2 else 1
  }

  function Total(sent: seq<Envelope>): nat {
    if sent == [] then 0 else Total(sent[..|sent| - 1]) + Weight(sent[|sent| - 1].msg)
  }

  /** The weight of what has not been delivered. */
  function Pending(sent: seq<Envelope>, delivered: set<nat>): nat {
    if sent == [] then 0
    else
      var n := |sent| - 1;
      Pending(sent[..n], delivered) + if n in delivered then 0 else Weight(sent[n].msg)
  }

  lemma {:induction false} PendingMore(sent: seq<Envelope>, delivered: set<nat>, more: seq<Envelope>)
    requires forall i :: i in delivered ==> i < |sent|
    ensures Pending(sent + more, delivered) == Pending(sent, delivered) + Total(more)
  {
    if more == [] {
      assert sent + more == sent;
    } else {
      var n := |more| - 1;
      PendingMore(sent, delivered, more[..n]);
      assert (sent + more)[..|sent| + n] == sent + more[..n];
    }
  }

  lemma {:induction false} PendingLess(sent: seq<Envelope>, delivered: set<nat>, i: nat)
    requires i !in delivered
    ensures Pending(sent, delivered) ==
            Pending(sent, delivered + {i}) + if i < |sent| then Weight(sent[i].msg) else 0
  {
    if sent != [] {
      PendingLess(sent[..|sent| - 1], delivered, i);
    }
  }

  lemma {:induction false} TotalOf(sent: seq<Envelope>, n: nat)
    requires forall i :: 0 <= i < |sent| ==> Weight(sent[i].msg) == n
    ensures Total(sent) == |sent| * n
  {
    if sent != [] {
      TotalOf(sent[..|sent| - 1], n);
    }
  }

  /** How many deliveries the session can still take. */
  ghost function Potential(w: World, id: SignId, peers: nat): nat {
    Pending(w.sent, w.delivered) + if id in w.packages then 0 else 2 * peers
  }

  ghost predicate Indexed(w: World) {
    forall i :: i in w.delivered ==> i < |w.sent|
  }

  /** What is sent when a message of the session arrives weighs less than the
      message, the package of the session aside. */
  lemma {:induction false} SentWeighs(w: World, min: nat, i: nat, id: SignId, peers: nat)
    requires Inv(w, min) && Enabled(w, min, Arrive(i))
    requires forall d :: d in w.sessions ==> d == id && |w.sessions[d].peers| == peers
    ensures var m, w' := w.sent[i], AfterArrive(w, min, i);
            var more := Wrap(m.to, OnMessage(ConfigOf(m.to, min), w.nodes[m.to], m.from, m.msg).out);
            && w'.sent == w.sent + more && w'.delivered == w.delivered + {i}
            && Total(more) + (if id in w'.packages then 0 else 2 * peers) + 1 <=
               Weight(m.msg) + (if id in w.packages then 0 else 2 * peers)
  {
    var m := w.sent[i];
    var cfg, s := ConfigOf(m.to, min), w.nodes[m.to];
    assert Honest(w, m);
    match m.msg
    case SignRequest(_, message) => RequestEffect(cfg, s, m.from, m.msg.signId, message);
      TotalOf(Wrap(m.to, OnMessage(cfg, s, m.from, m.msg).out), 1);
    case Commitments(_, c) => CommitmentWeighs(w, min, i, id, peers);
    case SignPackage(_, package) => AnswerOut(cfg, s, m.from, m.msg.signId, package.value);
      TotalOf(Wrap(m.to, OnMessage(cfg, s, m.from, m.msg).out), 1);
    case SignatureShare(_, _) =>
  }

  lemma {:induction false} CommitmentWeighs(w: World, min: nat, i: nat, id: SignId, peers: nat)
    requires Inv(w, min) && Enabled(w, min, Arrive(i)) && w.sent[i].msg.Commitments? && w.sent[i].msg.signId == id
    requires forall d :: d in w.sessions ==> d == id && |w.sessions[d].peers| == peers
    ensures var m, w' := w.sent[i], AfterArrive(w, min, i);
            var more := Wrap(m.to, OnMessage(ConfigOf(m.to, min), w.nodes[m.to], m.from, m.msg).out);
            Total(more) + (if id in w'.packages then 0 else 2 * peers) <= (if id in w.packages then 0 else 2 * peers)
  {
    var m := w.sent[i];
    var cfg, s := ConfigOf(m.to, min), w.nodes[m.to];
    var e := OnMessage(cfg, s, m.from, m.msg);
    BuiltSends(cfg, s, m.from, id, m.msg.commitment);
    if e.built.Some? {
      CoordinatorAt(w, min, m.to, id);
      CommitmentIsNew(w, min, i, m.to, s.active.value);
      TotalOf(Wrap(m.to, e.out), 2);
    }
  }

  /** What is sent on a commitment: the package that is built, or nothing. */
  lemma {:induction false} BuiltSends(cfg: Config, s: SigningState, from: PeerId, id: SignId, c: Option<Commitment>)
    ensures var e := OnCommitments(cfg, s, from, id, c);
            if e.built.Some?
            then Coordinates(s, id) && e.out == ToAll(s.active.value.selectedPeers, SignPackage(id, e.built))
            else e.out == []
  {
  }

  lemma {:induction false} DeliveryUses(w: World, min: nat, i: nat, id: SignId, peers: nat)
    requires Inv(w, min) && Enabled(w, min, Arrive(i)) && Indexed(w)
    requires forall d :: d in w.sessions ==> d == id && |w.sessions[d].peers| == peers
    ensures Potential(AfterArrive(w, min, i), id, peers) + 1 <= Potential(w, id, peers)
    ensures Indexed(AfterArrive(w, min, i))
  {
    var m, w' := w.sent[i], AfterArrive(w, min, i);
    var more := Wrap(m.to, OnMessage(ConfigOf(m.to, min), w.nodes[m.to], m.from, m.msg).out);
    SentWeighs(w, min, i, id, peers);
    PendingLess(w.sent, w.delivered, i);
    PendingMore(w.sent, w'.delivered, more);
  }

  lemma {:induction false} RunUses(w0: World, min: nat, p: PeerId, text: Option<Bytes>, id: SignId,
                                   chosen: seq<PeerId>, rest: seq<nat>, w: World)
    requires Initial(w0) && After(w0, min, SessionRun(p, text, id, chosen, rest)) == Some(w)
    ensures Indexed(w) && |rest| + Potential(w, id, |chosen|) <= 4 * |chosen|
  {
    RunBegins(w0, min, p, text, id, chosen, rest, w);
    if rest == [] {
      BeginUses(w0, min, p, text, id, chosen);
    } else {
      var n := |rest| - 1;
      var mid := BeforeLast(w0, min, p, text, id, chosen, rest, w);
      RunUses(w0, min, p, text, id, chosen, rest[..n], mid);
      RunBegins(w0, min, p, text, id, chosen, rest[..n], mid);
      assert Inv(mid, min) by {
        ReachableInv(w0, min, SessionRun(p, text, id, chosen, rest[..n]), mid);
      }
      DeliveryUses(mid, min, rest[n], id, |chosen|);
    }
  }

  lemma {:induction false} BeginUses(w0: World, min: nat, p: PeerId, text: Option<Bytes>, id: SignId,
                                     chosen: seq<PeerId>)
    requires Initial(w0) && Enabled(w0, min, Begin(p, text, id, chosen))
    ensures var w := AfterBegin(w0, min, p, text, id, chosen);
            Indexed(w) && Potential(w, id, |chosen|) <= 4 * |chosen|
  {
    var w := AfterBegin(w0, min, p, text, id, chosen);
    var e := OnStart(ConfigOf(p, min), w0.nodes[p], text, id, chosen);
    assert w.sent == Wrap(p, e.out) && |w.sent| <= |chosen|;
    TotalOf(w.sent, 2);
    PendingMore([], {}, w.sent);
    assert [] + w.sent == w.sent;
  }

  /** Every such run ends: at most four messages per peer are delivered, and
      while the world is not quiescent another one can be. */
  lemma {:induction false} SessionEnds(w0: World, min: nat, p: PeerId, text: Option<Bytes>, id: SignId,
                                       chosen: seq<PeerId>, rest: seq<nat>, w: World)
    requires Initial(w0) && After(w0, min, SessionRun(p, text, id, chosen, rest)) == Some(w)
    ensures |rest| <= 4 * |chosen|
    ensures !Quiescent(w) ==> exists i :: After(w0, min, SessionRun(p, text, id, chosen, rest + [i])).Some?
  {
    RunUses(w0, min, p, text, id, chosen, rest, w);
    if !Quiescent(w) {
      var i :| 0 <= i < |w.sent| && w.sent[i].to in w.nodes && i !in w.delivered;
      SessionRunSnoc(p, text, id, chosen, rest, i);
      AfterSnoc(w0, min, SessionRun(p, text, id, chosen, rest), Arrive(i));
    }
  }
}
