/** Two-round FROST signing as one node runs it (sections 5.1 to 5.3 of
    RFC 9591): a coordinator collects commitments, then signature shares. */
module Signing {
  import opened Prelude
  import opened Bytes
  import opened Chain

  type SignId = nat

  // The cryptography is ideal: a nonce is known by who drew it and when, a
  // commitment names its nonce, and a share records what it was made from.
  datatype Nonce = Nonce(owner: PeerId, serial: nat)

  datatype Commitment = Commitment(nonce: Nonce)

  datatype SigningPackage = SigningPackage(commitments: map<PeerId, Commitment>, message: Bytes)

  datatype Share = Share(signer: PeerId, nonce: Nonce, package: SigningPackage)

  datatype Active = Active(signId: SignId, message: Bytes, selectedPeers: seq<PeerId>, nonce: Nonce,
                           commitments: map<PeerId, Commitment>, shares: map<PeerId, Share>,
                           package: Option<SigningPackage>, isCoordinator: bool)

  /** `serial` counts the nonces drawn. */
  datatype SigningState = SigningState(active: Option<Active>, hasKeys: bool, peers: set<PeerId>, serial: nat)

  /** Payloads that do not decode are `None`. */
  datatype Message =
    | SignRequest(signId: SignId, message: Bytes)
    | Commitments(signId: SignId, commitment: Option<Commitment>)
    | SignPackage(signId: SignId, package: Option<SigningPackage>)
    | SignatureShare(signId: SignId, share: Option<Share>)

  /** `threshold` is the one in the key package. */
  datatype Config = Config(me: PeerId, minSigners: Option<nat>, threshold: nat)

  datatype Outgoing = Outgoing(to: PeerId, msg: Message)

  datatype Aggregation = Aggregation(signId: SignId, package: SigningPackage, shares: map<PeerId, Share>)

  /** The new state, success, the messages sent, the shares made, and the
      package built or the aggregation performed, if any. */
  datatype Effect = Effect(s: SigningState, ok: bool, out: seq<Outgoing>, made: seq<Share>,
                           built: Option<SigningPackage>, aggregated: Option<Aggregation>)

  const MESSAGE_BYTES: nat := 32

  function Plain(s: SigningState, ok: bool): Effect { Effect(s, ok, [], [], None, None) }

  /** Second-round signing refuses a package that is too small or does not
      carry the signer's own commitment. */
  function Sign(cfg: Config, nonce: Nonce, package: SigningPackage): Option<Share> {
    if |package.commitments.Keys| < cfg.threshold then None
    else if cfg.me !in package.commitments || package.commitments[cfg.me] != Commitment(nonce) then None
    else Some(Share(cfg.me, nonce, package))
  }

  function ToAll(peers: seq<PeerId>, msg: Message): (r: seq<Outgoing>)
    ensures |r| == |peers|
    ensures forall i :: 0 <= i < |peers| ==> r[i] == Outgoing(peers[i], msg)
  {
    seq(|peers|, i requires 0 <= i < |peers| => Outgoing(peers[i], msg))
  }

  /** How many others the coordinator needs; the subtraction is on 16 bits. */
  function Required(minSigners: nat): nat {
    if minSigners == 0 then 65535 else minSigners - 1
  }

  /** The outcome of shuffling the peers and taking the first few. */
  ghost predicate Draws(peers: set<PeerId>, n: nat, chosen: seq<PeerId>) {
    && |chosen| == n
    && (forall i :: 0 <= i < n ==> chosen[i] in peers)
    && (forall i, j :: 0 <= i < j < n ==> chosen[i] != chosen[j])
  }

  predicate CanStart(cfg: Config, s: SigningState, message: Option<Bytes>) {
    && s.hasKeys && message.Some? && |message.value| == MESSAGE_BYTES && s.active.None?
    && cfg.minSigners.Some? && |s.peers| >= Required(cfg.minSigners.value)
  }

  /** `start_signing_session`; `message` is `None` for bad hex. */
  function OnStart(cfg: Config, s: SigningState, message: Option<Bytes>, signId: SignId, chosen: seq<PeerId>): Effect {
    if !CanStart(cfg, s, message) then Plain(s, false)
    else
      var nonce := Nonce(cfg.me, s.serial);
      var active := Active(signId, message.value, chosen, nonce, map[cfg.me := Commitment(nonce)], map[], None, true);
      Effect(s.(active := Some(active), serial := s.serial + 1), true,
             ToAll(chosen, SignRequest(signId, message.value)), [], None, None)
  }

  function OnSignRequest(cfg: Config, s: SigningState, from: PeerId, signId: SignId, message: Bytes): Effect {
    if !s.hasKeys then Effect(s, true, [Outgoing(from, Commitments(signId, None))], [], None, None)
    else
      var nonce := Nonce(cfg.me, s.serial);
      Effect(s.(active := Some(Active(signId, message, [], nonce, map[], map[], None, false)), serial := s.serial + 1),
             true, [Outgoing(from, Commitments(signId, Some(Commitment(nonce))))], [], None, None)
  }

  predicate Coordinates(s: SigningState, signId: SignId) {
    s.active.Some? && s.active.value.isCoordinator && s.active.value.signId == signId
  }

  function OnCommitments(cfg: Config, s: SigningState, from: PeerId, signId: SignId, c: Option<Commitment>): Effect {
    if !Coordinates(s, signId) || c.None? then Plain(s, false)
    else
      var a := s.active.value.(commitments := s.active.value.commitments[from := c.value]);
      if cfg.minSigners.None? then Plain(s.(active := Some(a)), false)
      else if |a.commitments.Keys| != cfg.minSigners.value then Plain(s.(active := Some(a)), true)
      else BuildPackage(cfg, s, a)
  }

  function BuildPackage(cfg: Config, s: SigningState, a: Active): Effect {
    var package := SigningPackage(a.commitments, a.message);
    var a' := a.(package := Some(package));
    var out := ToAll(a.selectedPeers, SignPackage(a.signId, Some(package)));
    var share := if s.hasKeys then Sign(cfg, a.nonce, package) else None;
    match share
    case None => Effect(s.(active := Some(a')), false, out, [], Some(package), None)
    case Some(sh) =>
      Effect(s.(active := Some(a'.(shares := a'.shares[cfg.me := sh]))), true, out, [sh], Some(package), None)
  }

  function OnSignPackage(cfg: Config, s: SigningState, from: PeerId, signId: SignId,
                         package: Option<SigningPackage>): Effect {
    if s.active.None? || s.active.value.signId != signId || package.None? || !s.hasKeys then Plain(s, false)
    else
      match Sign(cfg, s.active.value.nonce, package.value)
      case None => Plain(s, false)
      case Some(sh) =>
        Effect(s.(active := None), true, [Outgoing(from, SignatureShare(signId, Some(sh)))], [sh], None, None)
  }

  function OnSignatureShare(cfg: Config, s: SigningState, from: PeerId, signId: SignId, share: Option<Share>): Effect {
    if !Coordinates(s, signId) || share.None? then Plain(s, false)
    else
      var a := s.active.value.(shares := s.active.value.shares[from := share.value]);
      var s' := s.(active := Some(a));
      if cfg.minSigners.None? then Plain(s', false)
      else if |a.shares.Keys| != cfg.minSigners.value then Plain(s', true)
      else if a.package.None? || !s.hasKeys then Plain(s', false)
      else Effect(s.(active := None), true, [], [], None, Some(Aggregation(signId, a.package.value, a.shares)))
  }

  function OnMessage(cfg: Config, s: SigningState, from: PeerId, msg: Message): Effect {
    match msg
    case SignRequest(id, message) => OnSignRequest(cfg, s, from, id, message)
    case Commitments(id, c) => OnCommitments(cfg, s, from, id, c)
    case SignPackage(id, package) => OnSignPackage(cfg, s, from, id, package)
    case SignatureShare(id, share) => OnSignatureShare(cfg, s, from, id, share)
  }

  // ---------- Nonces ----------

  datatype Input =
    | Request(text: Option<Bytes>, signId: SignId, chosen: seq<PeerId>)
    | Incoming(from: PeerId, msg: Message)

  function Step(cfg: Config, s: SigningState, i: Input): Effect {
    match i
    case Request(text, id, chosen) => OnStart(cfg, s, text, id, chosen)
    case Incoming(from, msg) => OnMessage(cfg, s, from, msg)
  }

  /** The node after a run, the shares it made, and the nonces it committed to
      as a participant. */
  datatype History = History(s: SigningState, made: seq<Share>, participated: set<Nonce>)

  function Committed(s: SigningState, i: Input, cfg: Config): set<Nonce> {
    if i.Incoming? && i.msg.SignRequest? && s.hasKeys then {Nonce(cfg.me, s.serial)} else {}
  }

  function Run(cfg: Config, s: SigningState, inputs: seq<Input>): History {
    if inputs == [] then History(s, [], {})
    else
      var h := Run(cfg, s, inputs[..|inputs| - 1]);
      var i := inputs[|inputs| - 1];
      var e := Step(cfg, h.s, i);
      History(e.s, h.made + e.made, h.participated + Committed(h.s, i, cfg))
  }

  ghost predicate UsedOnce(h: History) {
    forall i, j :: 0 <= i < j < |h.made| && h.made[i].nonce == h.made[j].nonce ==> h.made[i].nonce !in h.participated
  }

  ghost predicate NonceInv(cfg: Config, h: History) {
    && UsedOnce(h)
    && (forall n :: n in h.participated ==> n.owner == cfg.me && n.serial < h.s.serial)
    && (forall i :: 0 <= i < |h.made| ==> h.made[i].nonce.owner == cfg.me && h.made[i].nonce.serial < h.s.serial)
    && (h.s.active.Some? ==>
          var a := h.s.active.value;
          && a.nonce.owner == cfg.me && a.nonce.serial < h.s.serial
          && (a.isCoordinator ==> a.nonce !in h.participated)
          && (!a.isCoordinator ==> forall i :: 0 <= i < |h.made| ==> h.made[i].nonce != a.nonce))
  }

  /** A step makes at most one share, with the nonce of its session, which is
      then over unless the node coordinates it. */
  lemma {:induction false} StepShares(cfg: Config, s: SigningState, i: Input)
    ensures var e := Step(cfg, s, i);
            && |e.made| <= 1
            && (e.made != [] ==>
                  && s.active.Some? && e.made[0].nonce == s.active.value.nonce
                  && (s.active.value.isCoordinator || e.s.active.None?) && Committed(s, i, cfg) == {})
            && s.serial <= e.s.serial <= s.serial + 1
            && (e.s.active.Some? ==>
                  var a := e.s.active.value;
                  || (s.active.Some? && a.nonce == s.active.value.nonce
                      && a.isCoordinator == s.active.value.isCoordinator && Committed(s, i, cfg) == {})
                  || (a.nonce == Nonce(cfg.me, s.serial) && e.s.serial == s.serial + 1
                      && Committed(s, i, cfg) == if a.isCoordinator then {} else {a.nonce}))
            && (Committed(s, i, cfg) != {} ==> e.s.serial == s.serial + 1)
  {
  }

  lemma {:induction false} StepUsedOnce(cfg: Config, h: History, i: Input)
    requires NonceInv(cfg, h)
    ensures var e := Step(cfg, h.s, i);
            UsedOnce(History(e.s, h.made + e.made, h.participated + Committed(h.s, i, cfg)))
  {
    StepShares(cfg, h.s, i);
    var e := Step(cfg, h.s, i);
    var made := h.made + e.made;
    forall x, y | 0 <= x < y < |made| && made[x].nonce == made[y].nonce
      ensures made[x].nonce !in h.participated + Committed(h.s, i, cfg)
    {
      assert made[x] == h.made[x];
    }
  }

  lemma {:induction false} StepNonces(cfg: Config, h: History, i: Input)
    requires NonceInv(cfg, h)
    ensures var e := Step(cfg, h.s, i);
            NonceInv(cfg, History(e.s, h.made + e.made, h.participated + Committed(h.s, i, cfg)))
  {
    StepUsedOnce(cfg, h, i);
    StepShares(cfg, h.s, i);
  }

  lemma {:induction false} RunNonces(cfg: Config, s: SigningState, inputs: seq<Input>)
    requires s.active.None?
    ensures NonceInv(cfg, Run(cfg, s, inputs))
  {
    if inputs != [] {
      RunNonces(cfg, s, inputs[..|inputs| - 1]);
      StepNonces(cfg, Run(cfg, s, inputs[..|inputs| - 1]), inputs[|inputs| - 1]);
    }
  }

  /** Whatever a node is sent, a nonce it committed to as a participant goes
      into at most one signature share, as section 5.1 of RFC 9591 demands. */
  lemma {:induction false} ParticipantNonceUsedOnce(cfg: Config, s: SigningState, inputs: seq<Input>)
    requires s.active.None?
    ensures UsedOnce(Run(cfg, s, inputs))
  {
    RunNonces(cfg, s, inputs);
  }

  // ---------- Every nonce ----------

  ghost predicate AllOnce(made: seq<Share>) {
    forall i, j :: 0 <= i < j < |made| ==> made[i].nonce != made[j].nonce
  }

  ghost predicate Unused(made: seq<Share>, n: Nonce) {
    forall x :: x in made ==> x.nonce != n
  }

  /** The input completes the commitments of the node's own session with a
      package it can sign. */
  predicate Completes(cfg: Config, s: SigningState, i: Input) {
    && i.Incoming? && i.msg.Commitments? && i.msg.commitment.Some? && Coordinates(s, i.msg.signId)
    && cfg.minSigners.Some? && s.hasKeys
    && var held := s.active.value.commitments[i.from := i.msg.commitment.value];
       && |held.Keys| == cfg.minSigners.value
       && Sign(cfg, s.active.value.nonce, SigningPackage(held, s.active.value.message)).Some?
  }

  /** The input hands the node a package for its session that it can sign,
      whether or not it coordinates. */
  predicate Answers(cfg: Config, s: SigningState, i: Input) {
    && i.Incoming? && i.msg.SignPackage? && i.msg.package.Some? && s.hasKeys
    && s.active.Some? && s.active.value.signId == i.msg.signId
    && Sign(cfg, s.active.value.nonce, i.msg.package.value).Some?
  }

  predicate Signs(cfg: Config, s: SigningState, i: Input) {
    Completes(cfg, s, i) || Answers(cfg, s, i)
  }

  predicate Begins(cfg: Config, s: SigningState, i: Input) {
    match i
    case Request(text, _, _) => CanStart(cfg, s, text)
    case Incoming(_, msg) => msg.SignRequest? && s.hasKeys
  }

  /** The session now open, or last open, has signed. */
  predicate HasSigned(cfg: Config, s: SigningState, inputs: seq<Input>) {
    inputs != [] &&
    var init, i := inputs[..|inputs| - 1], inputs[|inputs| - 1];
    var now := Run(cfg, s, init).s;
    !Begins(cfg, now, i) && (HasSigned(cfg, s, init) || Signs(cfg, now, i))
  }

  /** No session signs when it has signed before. */
  predicate SignsOnce(cfg: Config, s: SigningState, inputs: seq<Input>) {
    inputs == [] ||
    (var init, i := inputs[..|inputs| - 1], inputs[|inputs| - 1];
     SignsOnce(cfg, s, init) && !(HasSigned(cfg, s, init) && Signs(cfg, Run(cfg, s, init).s, i)))
  }

  /** A share is made exactly on those inputs, and a nonce is drawn exactly
      when a session begins. */
  lemma {:induction false} SignsIsMade(cfg: Config, s: SigningState, i: Input)
    ensures var e := Step(cfg, s, i);
            && (Signs(cfg, s, i) <==> e.made != [])
            && (Begins(cfg, s, i) ==> e.s.active.Some? && e.s.active.value.nonce == Nonce(cfg.me, s.serial))
            && (!Begins(cfg, s, i) && e.s.active.Some? ==>
                  s.active.Some? && e.s.active.value.nonce == s.active.value.nonce)
  {
  }

  ghost predicate SignedIff(h: History, signed: bool) {
    h.s.active.Some? ==> (Unused(h.made, h.s.active.value.nonce) <==> !signed)
  }

  lemma {:induction false} StepSigned(cfg: Config, h: History, signed: bool, i: Input)
    requires NonceInv(cfg, h) && SignedIff(h, signed)
    ensures var e := Step(cfg, h.s, i);
            && SignedIff(History(e.s, h.made + e.made, {}), !Begins(cfg, h.s, i) && (signed || Signs(cfg, h.s, i)))
            && (AllOnce(h.made + e.made) <==> AllOnce(h.made) && !(signed && Signs(cfg, h.s, i)))
  {
    StepShares(cfg, h.s, i);
    SignsIsMade(cfg, h.s, i);
    var e := Step(cfg, h.s, i);
    if e.made == [] {
      assert h.made + e.made == h.made;
    } else {
      assert e.made == [e.made[0]];
      OnceSnoc(h.made, e.made[0]);
    }
  }

  lemma {:induction false} OnceSnoc(made: seq<Share>, x: Share)
    ensures AllOnce(made + [x]) <==> AllOnce(made) && Unused(made, x.nonce)
    ensures forall n :: Unused(made + [x], n) <==> Unused(made, n) && x.nonce != n
  {
    var all := made + [x];
    if AllOnce(all) {
      forall i, j | 0 <= i < j < |made|
        ensures made[i].nonce != made[j].nonce
      {
        assert all[i] == made[i] && all[j] == made[j];
      }
      forall i | 0 <= i < |made|
        ensures made[i].nonce != x.nonce
      {
        assert all[i] == made[i] && all[|made|] == x;
      }
    }
    forall n
      ensures Unused(all, n) <==> Unused(made, n) && x.nonce != n
    {
      assert forall y :: y in all <==> y in made || y == x;
      assert x in all;
    }
  }

  lemma {:induction false} RunSigned(cfg: Config, s: SigningState, inputs: seq<Input>)
    requires s.active.None?
    ensures SignedIff(Run(cfg, s, inputs), HasSigned(cfg, s, inputs))
    ensures AllOnce(Run(cfg, s, inputs).made) <==> SignsOnce(cfg, s, inputs)
  {
    if inputs != [] {
      var init := inputs[..|inputs| - 1];
      RunSigned(cfg, s, init);
      RunNonces(cfg, s, init);
      StepSigned(cfg, Run(cfg, s, init), HasSigned(cfg, s, init), inputs[|inputs| - 1]);
    }
  }

  /** Whatever a node is sent, every nonce of its shares is used once exactly if
      no session is made to sign again: by a commitment that completes a second
      package, or by a package sent to a session that built one. */
  lemma {:induction false} NoncesUsedOnceIff(cfg: Config, s: SigningState, inputs: seq<Input>)
    requires s.active.None?
    ensures AllOnce(Run(cfg, s, inputs).made) <==> SignsOnce(cfg, s, inputs)
  {
    RunSigned(cfg, s, inputs);
  }

  // ---------- What a caller can see of it ----------

  ghost predicate FromOthers(cfg: Config, inputs: seq<Input>) {
    forall k :: 0 <= k < |inputs| && inputs[k].Incoming? ==> inputs[k].from != cfg.me
  }

  /** The node's commitment stands, and its package is kept once it has signed. */
  ghost predicate OwnSession(cfg: Config, s: SigningState, signed: bool) {
    s.active.Some? ==>
      var a := s.active.value;
      && s.hasKeys && (a.package.Some? <==> signed)
      && (a.isCoordinator ==> cfg.me in a.commitments && a.commitments[cfg.me] == Commitment(a.nonce))
      && (!a.isCoordinator ==> a.package.None?)
  }

  lemma {:induction false} CommitmentsOwn(cfg: Config, s: SigningState, signed: bool, from: PeerId, id: SignId,
                                          c: Option<Commitment>)
    requires OwnSession(cfg, s, signed) && from != cfg.me
    requires cfg.minSigners.Some? ==> cfg.threshold <= cfg.minSigners.value
    ensures OwnSession(cfg, OnCommitments(cfg, s, from, id, c).s,
                       signed || Completes(cfg, s, Incoming(from, Commitments(id, c))))
  {
  }

  lemma {:induction false} StepOwnSession(cfg: Config, s: SigningState, signed: bool, i: Input)
    requires OwnSession(cfg, s, signed) && (i.Incoming? ==> i.from != cfg.me)
    requires cfg.minSigners.Some? ==> cfg.threshold <= cfg.minSigners.value
    ensures OwnSession(cfg, Step(cfg, s, i).s, !Begins(cfg, s, i) && (signed || Signs(cfg, s, i)))
  {
    match i
    case Request(_, _, _) =>
    case Incoming(from, msg) =>
      match msg
      case SignRequest(_, _) =>
      case Commitments(id, c) => CommitmentsOwn(cfg, s, signed, from, id, c);
      case SignPackage(_, _) =>
      case SignatureShare(_, _) =>
  }

  /** With a threshold of at most the minimum and no messages from itself, a
      session has signed exactly if it has built its package. */
  lemma {:induction false} SignedIsPackaged(cfg: Config, s: SigningState, inputs: seq<Input>)
    requires s.active.None? && FromOthers(cfg, inputs)
    requires cfg.minSigners.Some? ==> cfg.threshold <= cfg.minSigners.value
    ensures var now := Run(cfg, s, inputs).s;
            now.active.Some? ==> (HasSigned(cfg, s, inputs) <==> now.active.value.package.Some?)
  {
    RunOwnSession(cfg, s, inputs);
  }

  lemma {:induction false} RunOwnSession(cfg: Config, s: SigningState, inputs: seq<Input>)
    requires s.active.None? && FromOthers(cfg, inputs)
    requires cfg.minSigners.Some? ==> cfg.threshold <= cfg.minSigners.value
    ensures OwnSession(cfg, Run(cfg, s, inputs).s, HasSigned(cfg, s, inputs))
  {
    if inputs != [] {
      var n := |inputs| - 1;
      RunOwnSession(cfg, s, inputs[..n]);
      StepOwnSession(cfg, Run(cfg, s, inputs[..n]).s, HasSigned(cfg, s, inputs[..n]), inputs[n]);
    }
  }

  /** The input at `k` makes a session sign whose package is built. */
  ghost predicate SignsPackaged(cfg: Config, s: SigningState, inputs: seq<Input>, k: nat) {
    && k < |inputs|
    && var now := Run(cfg, s, inputs[..k]).s;
       now.active.Some? && now.active.value.package.Some? && Signs(cfg, now, inputs[k])
  }

  ghost predicate NonePackaged(cfg: Config, s: SigningState, inputs: seq<Input>) {
    forall k: nat :: !SignsPackaged(cfg, s, inputs, k)
  }

  lemma {:induction false} SignsPackagedPrefix(cfg: Config, s: SigningState, inputs: seq<Input>, n: nat, k: nat)
    requires k < n <= |inputs|
    ensures SignsPackaged(cfg, s, inputs[..n], k) <==> SignsPackaged(cfg, s, inputs, k)
  {
    assert inputs[..n][..k] == inputs[..k] && inputs[..n][k] == inputs[k];
  }

  lemma {:induction false} NonePackagedSnoc(cfg: Config, s: SigningState, inputs: seq<Input>, n: nat)
    requires |inputs| == n + 1
    ensures NonePackaged(cfg, s, inputs) <==> NonePackaged(cfg, s, inputs[..n]) && !SignsPackaged(cfg, s, inputs, n)
  {
    if k: nat :| SignsPackaged(cfg, s, inputs[..n], k) {
      SignsPackagedPrefix(cfg, s, inputs, n, k);
    }
    if k: nat :| SignsPackaged(cfg, s, inputs, k) {
      if k < n {
        SignsPackagedPrefix(cfg, s, inputs, n, k);
      } else {
        assert k == n;
      }
    }
  }

  lemma {:induction false} SignsOnceIsPackaged(cfg: Config, s: SigningState, inputs: seq<Input>)
    requires s.active.None? && FromOthers(cfg, inputs)
    requires cfg.minSigners.Some? ==> cfg.threshold <= cfg.minSigners.value
    ensures SignsOnce(cfg, s, inputs) <==> NonePackaged(cfg, s, inputs)
  {
    if inputs != [] {
      var n := |inputs| - 1;
      SignsOnceIsPackaged(cfg, s, inputs[..n]);
      SignedIsPackaged(cfg, s, inputs[..n]);
      NonePackagedSnoc(cfg, s, inputs, n);
    }
  }

  /** So a nonce is used twice exactly if a session is made to sign while its
      package is there. */
  lemma {:induction false} NonceReusedIffPackaged(cfg: Config, s: SigningState, inputs: seq<Input>)
    requires s.active.None? && FromOthers(cfg, inputs)
    requires cfg.minSigners.Some? ==> cfg.threshold <= cfg.minSigners.value
    ensures AllOnce(Run(cfg, s, inputs).made) <==> NonePackaged(cfg, s, inputs)
  {
    NoncesUsedOnceIff(cfg, s, inputs);
    SignsOnceIsPackaged(cfg, s, inputs);
  }

  /** The run that fails: a peer that commits twice gets two shares with the
      coordinator's one nonce, on different packages. */
  lemma {:induction false} CommittedTwice(me: PeerId, q: PeerId, s: SigningState, text: Bytes, id: SignId,
                                          c: Commitment, d: Commitment)
    requires q != me && c != d && |text| == MESSAGE_BYTES
    requires s.active.None? && s.hasKeys && s.peers == {q}
    ensures var cfg := Config(me, Some(2), 2);
            var run := [Request(Some(text), id, [q]), Incoming(q, Commitments(id, Some(c))),
                        Incoming(q, Commitments(id, Some(d)))];
            var made := Run(cfg, s, run).made;
            |made| == 2 && made[0].nonce == made[1].nonce && made[0].package != made[1].package
  {
    var cfg := Config(me, Some(2), 2);
    var i, j := Request(Some(text), id, [q]), Incoming(q, Commitments(id, Some(c)));
    var k := Incoming(q, Commitments(id, Some(d)));
    var s1 := Step(cfg, s, i).s;
    assert Step(cfg, s, i).made == [] && s1.hasKeys && Coordinates(s1, id);
    assert s1.active.value.commitments == map[me := Commitment(s1.active.value.nonce)];
    TwoBuilds(cfg, s1, q, id, c, d);
    RunThree(cfg, s, i, j, k);
  }

  lemma {:induction false} TwoBuilds(cfg: Config, s: SigningState, q: PeerId, id: SignId, c: Commitment, d: Commitment)
    requires cfg.minSigners == Some(2) && cfg.threshold == 2 && q != cfg.me && c != d
    requires s.hasKeys && Coordinates(s, id)
    requires s.active.value.commitments == map[cfg.me := Commitment(s.active.value.nonce)]
    ensures var e := Step(cfg, s, Incoming(q, Commitments(id, Some(c))));
            var f := Step(cfg, e.s, Incoming(q, Commitments(id, Some(d))));
            && |e.made| == 1 && |f.made| == 1
            && e.made[0].nonce == f.made[0].nonce && e.made[0].package != f.made[0].package
  {
    var own := Commitment(s.active.value.nonce);
    var one, two := map[cfg.me := own, q := c], map[cfg.me := own, q := d];
    BuildsWith(cfg, s, q, id, c, one);
    BuildsWith(cfg, Step(cfg, s, Incoming(q, Commitments(id, Some(c)))).s, q, id, d, two);
    assert one[q] != two[q];
  }

  lemma {:induction false} RunThree(cfg: Config, s: SigningState, i: Input, j: Input, k: Input)
    ensures var e := Step(cfg, s, i);
            var f := Step(cfg, e.s, j);
            Run(cfg, s, [i, j, k]).made == e.made + f.made + Step(cfg, f.s, k).made
  {
    assert [i, j, k][..2] == [i, j] && [i, j][..1] == [i] && [i][..0] == [];
    var e := Step(cfg, s, i);
    assert Run(cfg, s, [i]).s == e.s && Run(cfg, s, [i]).made == e.made;
    var f := Step(cfg, e.s, j);
    assert Run(cfg, s, [i, j]).s == f.s && Run(cfg, s, [i, j]).made == e.made + f.made;
  }

  lemma {:induction false} BuildsWith(cfg: Config, s: SigningState, q: PeerId, id: SignId, c: Commitment,
                                      held: map<PeerId, Commitment>)
    requires cfg.minSigners == Some(2) && cfg.threshold == 2 && q != cfg.me
    requires s.hasKeys && Coordinates(s, id)
    requires held == s.active.value.commitments[q := c] && held.Keys == {cfg.me, q}
    requires held[cfg.me] == Commitment(s.active.value.nonce)
    ensures var e := Step(cfg, s, Incoming(q, Commitments(id, Some(c))));
            && e.made == [Share(cfg.me, s.active.value.nonce, SigningPackage(held, s.active.value.message))]
            && Coordinates(e.s, id) && e.s.hasKeys && e.s.active.value.nonce == s.active.value.nonce
            && e.s.active.value.commitments == held && e.s.active.value.message == s.active.value.message
  {
  }

  // ---------- Aggregation ----------

  /** The share that arrives is for the node's own session, whose package is
      built, and with it there are as many shares as signers are needed. */
  predicate Aggregates(cfg: Config, s: SigningState, from: PeerId, msg: Message) {
    && msg.SignatureShare? && msg.share.Some? && s.hasKeys && cfg.minSigners.Some?
    && s.active.Some? && s.active.value.isCoordinator && s.active.value.signId == msg.signId
    && s.active.value.package.Some? && |s.active.value.shares.Keys + {from}| == cfg.minSigners.value
  }

  /** A node aggregates exactly then: the shares it has and the new one, on the
      package it built; and the session is over. A share that does not complete
      the session is kept. */
  lemma {:induction false} AggregatesIff(cfg: Config, s: SigningState, from: PeerId, msg: Message)
    ensures var e := OnMessage(cfg, s, from, msg);
            && (e.aggregated.Some? <==> Aggregates(cfg, s, from, msg))
            && (Aggregates(cfg, s, from, msg) ==>
                  && e.s == s.(active := None) && e.ok
                  && e.aggregated == Some(Aggregation(msg.signId, s.active.value.package.value,
                                                      s.active.value.shares[from := msg.share.value])))
            && (msg.SignatureShare? && msg.share.Some? && Coordinates(s, msg.signId) &&
                !Aggregates(cfg, s, from, msg) ==>
                  && e.s.active.Some? && e.s.active.value.shares == s.active.value.shares[from := msg.share.value]
                  && e.s.active.value == s.active.value.(shares := e.s.active.value.shares))
  {
    if msg.SignatureShare? && msg.share.Some? && Coordinates(s, msg.signId) {
      assert s.active.value.shares[from := msg.share.value].Keys == s.active.value.shares.Keys + {from};
    }
  }

  class SigningNode {
    const cfg: Config
    const hasKeys: bool
    var peers: set<PeerId>
    var activeSigning: Option<Active>
    var serial: nat
    var outbox: seq<Outgoing>
    // What the library calls produced.
    var made: seq<Share>
    var built: seq<SigningPackage>
    var aggregations: seq<Aggregation>

    ghost function View(): SigningState
      reads this
    {
      SigningState(activeSigning, hasKeys, peers, serial)
    }

    function Listed<T>(o: Option<T>): seq<T> {
      if o.None? then [] else [o.value]
    }

    twostate predicate Performed(e: Effect, ok: bool)
      reads this
    {
      && View() == e.s && ok == e.ok && outbox == old(outbox) + e.out && made == old(made) + e.made
      && built == old(built) + Listed(e.built) && aggregations == old(aggregations) + Listed(e.aggregated)
    }

    constructor (cfg: Config, hasKeys: bool)
      ensures this.cfg == cfg && View() == SigningState(None, hasKeys, {}, 0)
      ensures outbox == [] && made == [] && built == [] && aggregations == []
    {
      this.cfg, this.hasKeys := cfg, hasKeys;
      peers, activeSigning, serial := {}, None, 0;
      outbox, made, built, aggregations := [], [], [], [];
    }

    /** First-round commitment: a fresh nonce. */
    method Commit() returns (nonce: Nonce)
      modifies this`serial
      ensures nonce == Nonce(cfg.me, old(serial)) && serial == old(serial) + 1
    {
      nonce := Nonce(cfg.me, serial);
      serial := serial + 1;
    }

    method SendToAll(to: seq<PeerId>, msg: Message)
      modifies this`outbox
      ensures outbox == old(outbox) + ToAll(to, msg)
    {
      var i := 0;
      while i < |to|
        invariant 0 <= i <= |to|
        invariant outbox == old(outbox) + ToAll(to, msg)[..i]
      {
        outbox := outbox + [Outgoing(to[i], msg)];
        i := i + 1;
      }
      assert ToAll(to, msg)[..i] == ToAll(to, msg);
    }

    /** `signId` and `chosen` stand for the draws of the random generator. */
    method StartSigningSession(message: Option<Bytes>, signId: SignId, chosen: seq<PeerId>) returns (ok: bool)
      modifies this
      ensures Performed(OnStart(cfg, old(View()), message, signId, chosen), ok)
    {
      if !hasKeys { return false; }
      if message.None? { return false; }
      if |message.value| != MESSAGE_BYTES { return false; }
      if activeSigning.Some? { return false; }
      if cfg.minSigners.None? { return false; }
      if |peers| < Required(cfg.minSigners.value) { return false; }
      var nonce := Commit();
      activeSigning := Some(Active(signId, message.value, chosen, nonce, map[cfg.me := Commitment(nonce)], map[],
        None, true));
      SendToAll(chosen, SignRequest(signId, message.value));
      return true;
    }

    method HandleSignRequest(from: PeerId, signId: SignId, message: Bytes) returns (ok: bool)
      modifies this
      ensures Performed(OnSignRequest(cfg, old(View()), from, signId, message), ok)
    {
      if !hasKeys {
        outbox := outbox + [Outgoing(from, Commitments(signId, None))];
        return true;
      }
      var nonce := Commit();
      activeSigning := Some(Active(signId, message, [], nonce, map[], map[], None, false));
      outbox := outbox + [Outgoing(from, Commitments(signId, Some(Commitment(nonce))))];
      return true;
    }

    method HandleCommitmentsResponse(from: PeerId, signId: SignId, c: Option<Commitment>) returns (ok: bool)
      modifies this
      ensures Performed(OnCommitments(cfg, old(View()), from, signId, c), ok)
    {
      if activeSigning.None? { return false; }
      var active := activeSigning.value;
      if !active.isCoordinator || active.signId != signId { return false; }
      if c.None? { return false; }
      active := active.(commitments := active.commitments[from := c.value]);
      activeSigning := Some(active);
      if cfg.minSigners.None? { return false; }
      if |active.commitments.Keys| == cfg.minSigners.value {
        ok := DistributePackage(active);
        return;
      }
      return true;
    }

    method DistributePackage(active: Active) returns (ok: bool)
      modifies this
      ensures Performed(BuildPackage(cfg, old(View()), active), ok)
    {
      var package := SigningPackage(active.commitments, active.message);
      activeSigning := Some(active.(package := Some(package)));
      built := built + [package];
      SendToAll(active.selectedPeers, SignPackage(active.signId, Some(package)));
      if !hasKeys { return false; }
      var share := Sign(cfg, active.nonce, package);
      if share.None? { return false; }
      made := made + [share.value];
      activeSigning := Some(activeSigning.value.(shares := active.shares[cfg.me := share.value]));
      return true;
    }

    method HandleSignPackage(from: PeerId, signId: SignId, package: Option<SigningPackage>) returns (ok: bool)
      modifies this
      ensures Performed(OnSignPackage(cfg, old(View()), from, signId, package), ok)
    {
      if activeSigning.None? { return false; }
      if activeSigning.value.signId != signId { return false; }
      if package.None? { return false; }
      if !hasKeys { return false; }
      var share := Sign(cfg, activeSigning.value.nonce, package.value);
      if share.None? { return false; }
      made := made + [share.value];
      outbox := outbox + [Outgoing(from, SignatureShare(signId, share))];
      activeSigning := None;
      return true;
    }

    method HandleSignatureShare(from: PeerId, signId: SignId, share: Option<Share>) returns (ok: bool)
      modifies this
      ensures Performed(OnSignatureShare(cfg, old(View()), from, signId, share), ok)
    {
      if activeSigning.None? { return false; }
      var active := activeSigning.value;
      if !active.isCoordinator || active.signId != signId { return false; }
      if share.None? { return false; }
      active := active.(shares := active.shares[from := share.value]);
      activeSigning := Some(active);
      if cfg.minSigners.None? { return false; }
      if |active.shares.Keys| == cfg.minSigners.value {
        if active.package.None? { return false; }
        if !hasKeys { return false; }
        aggregations := aggregations + [Aggregation(signId, active.package.value, active.shares)];
        activeSigning := None;
      }
      return true;
    }
  }
}
