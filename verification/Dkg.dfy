/** Distributed key generation as one node runs it: three parts of the FROST
    key generation, driven by what arrives from the peers. */
module Dkg {
  import opened Prelude
  import opened Sets
  import opened Chain

  /** Packages and secrets are opaque; only who sent them and when they are
      held matters. Identifiers derived from peer ids are the peer ids. */
  type Package = nat

  datatype Secret = Round1Secret | Round2Secret

  datatype Config = Config(maxSigners: Option<nat>, minSigners: Option<nat>)

  datatype DkgState = DkgState(started: bool, listeners: set<PeerId>, round1: map<PeerId, Package>,
                               round2: map<PeerId, Package>, r1Secret: Option<Secret>, r2Secret: Option<Secret>,
                               hasKeys: bool)

  /** How the calls that can fail turn out while an event is handled. */
  datatype Luck = Luck(broadcastOk: bool, part2Ok: bool, sendsOk: bool, pongOk: bool, part3Ok: bool, genesisOk: bool)

  datatype Event =
    | Subscribed(peer: PeerId)
    | StartSignal
    | Round1(sender: PeerId, package1: Option<Package>)
    | Round2(sender: PeerId, package2: Package)

  /** The package maps that the last part is run on. */
  datatype Part3 = Part3(round1: map<PeerId, Package>, round2: map<PeerId, Package>)

  datatype Effect = Effect(s: DkgState, ok: bool, part3: seq<Part3>)

  /** The second part runs once all first-round packages are in. */
  function TryEnterRound2(cfg: Config, s: DkgState, luck: Luck): Effect {
    if s.r1Secret.None? then Effect(s, true, [])
    else if cfg.maxSigners.None? then Effect(s, false, [])
    else if |s.round1.Keys| + 1 != cfg.maxSigners.value then Effect(s, true, [])
    else if !luck.part2Ok then Effect(s, false, [])
    else Effect(s.(r1Secret := None, r2Secret := Some(Round2Secret)), luck.sendsOk && s.listeners <= s.round1.Keys, [])
  }

  function StartDkg(cfg: Config, s: DkgState, luck: Luck): Effect {
    if s.started then Effect(s, false, [])
    else
      var s1 := s.(started := true);
      if cfg.maxSigners.None? || cfg.minSigners.None? then Effect(s1, false, [])
      else
        var s2 := s1.(r1Secret := Some(Round1Secret));
        if !luck.broadcastOk then Effect(s2, false, []) else TryEnterRound2(cfg, s2, luck)
  }

  function OnStart(cfg: Config, s: DkgState, luck: Luck): Effect {
    if s.started || s.hasKeys then Effect(s, true, [])
    else if cfg.maxSigners.None? then Effect(s, false, [])
    else if |s.listeners| + 1 < cfg.maxSigners.value then Effect(s, true, [])
    else StartDkg(cfg, s, luck)
  }

  function OnRound1(cfg: Config, s: DkgState, sender: PeerId, package: Option<Package>, luck: Luck): Effect {
    if package.None? then Effect(s, false, [])
    else
      var s1 := s.(round1 := s.round1[sender := package.value]);
      if cfg.maxSigners.None? then Effect(s1, false, [])
      else
        var e := if !s1.started && !s1.hasKeys then StartDkg(cfg, s1, luck) else Effect(s1, true, []);
        if !e.ok then e else TryEnterRound2(cfg, e.s, luck)
  }

  function Reset(s: DkgState): DkgState {
    s.(started := false, r1Secret := None, r2Secret := None, round1 := map[], round2 := map[])
  }

  function OnRound2(cfg: Config, s: DkgState, sender: PeerId, package: Package, luck: Luck): Effect {
    if !luck.pongOk then Effect(s, false, [])
    else
      var s1 := s.(round2 := s.round2[sender := package]);
      if cfg.maxSigners.None? then Effect(s1, false, [])
      else if s1.r2Secret.None? || |s1.round2.Keys| + 1 != cfg.maxSigners.value then Effect(s1, true, [])
      else
        var run := [Part3(s1.round1, s1.round2)];
        if !luck.part3Ok then Effect(Reset(s1), true, run)
        else if !luck.genesisOk then Effect(s1.(hasKeys := true), false, run)
        else Effect(s1.(hasKeys := true, started := false), true, run)
  }

  function Step(cfg: Config, s: DkgState, ev: Event, luck: Luck): Effect {
    match ev
    case Subscribed(p) => OnStart(cfg, s.(listeners := s.listeners + {p}), luck)
    case StartSignal => OnStart(cfg, s, luck)
    case Round1(p, package) => OnRound1(cfg, s, p, package, luck)
    case Round2(p, package) => OnRound2(cfg, s, p, package, luck)
  }

  function Run(cfg: Config, s: DkgState, evs: seq<Event>, lucks: seq<Luck>): Effect
    requires |evs| == |lucks|
  {
    if evs == [] then Effect(s, true, [])
    else
      var k := |evs| - 1;
      var e := Run(cfg, s, evs[..k], lucks[..k]);
      var f := Step(cfg, e.s, evs[k], lucks[k]);
      Effect(f.s, f.ok, e.part3 + f.part3)
  }

  const INITIAL := DkgState(false, {}, map[], map[], None, None, false)

  // ---------- Secrets ----------

  ghost predicate SecretsApart(s: DkgState) {
    && !(s.r1Secret.Some? && s.r2Secret.Some?)
    && (!s.started && !s.hasKeys ==> s.r1Secret.None? && s.r2Secret.None?)
    && (s.hasKeys ==> s.r1Secret.None?)
  }

  lemma {:induction false} StartSecrets(cfg: Config, s: DkgState, luck: Luck)
    requires SecretsApart(s) && (s.started || !s.hasKeys)
    ensures SecretsApart(StartDkg(cfg, s, luck).s)
  {
  }

  lemma {:induction false} EnterSecrets(cfg: Config, s: DkgState, luck: Luck)
    requires SecretsApart(s)
    ensures SecretsApart(TryEnterRound2(cfg, s, luck).s)
  {
  }

  lemma {:induction false} Round1Secrets(cfg: Config, s: DkgState, sender: PeerId, package: Option<Package>, luck: Luck)
    requires SecretsApart(s)
    ensures SecretsApart(OnRound1(cfg, s, sender, package, luck).s)
  {
    if package.Some? {
      var s1 := s.(round1 := s.round1[sender := package.value]);
      if !s1.started && !s1.hasKeys {
        StartSecrets(cfg, s1, luck);
        EnterSecrets(cfg, StartDkg(cfg, s1, luck).s, luck);
      } else {
        EnterSecrets(cfg, s1, luck);
      }
    }
  }

  lemma {:induction false} Round2Secrets(cfg: Config, s: DkgState, sender: PeerId, package: Package, luck: Luck)
    requires SecretsApart(s)
    ensures SecretsApart(OnRound2(cfg, s, sender, package, luck).s)
  {
  }

  lemma {:induction false} StepSecrets(cfg: Config, s: DkgState, ev: Event, luck: Luck)
    requires SecretsApart(s)
    ensures SecretsApart(Step(cfg, s, ev, luck).s)
  {
    match ev
    case Subscribed(p) =>
      var s1 := s.(listeners := s.listeners + {p});
      if !s1.started && !s1.hasKeys { StartSecrets(cfg, s1, luck); }
    case StartSignal => if !s.started && !s.hasKeys { StartSecrets(cfg, s, luck); }
    case Round1(p, package) => Round1Secrets(cfg, s, p, package, luck);
    case Round2(p, package) => Round2Secrets(cfg, s, p, package, luck);
  }

  /** Whatever arrives and whatever fails, the secrets of the two rounds are
      never held together, none is held before key generation starts, and that
      of the first round is not held once there are keys. */
  lemma {:induction false} NeverBothSecrets(cfg: Config, evs: seq<Event>, lucks: seq<Luck>)
    requires |evs| == |lucks|
    ensures SecretsApart(Run(cfg, INITIAL, evs, lucks).s)
  {
    if evs != [] {
      var k := |evs| - 1;
      NeverBothSecrets(cfg, evs[..k], lucks[..k]);
      StepSecrets(cfg, Run(cfg, INITIAL, evs[..k], lucks[..k]).s, evs[k], lucks[k]);
    }
  }

  // ---------- Completion ----------

  /** Who is among the senders of the first `k` events, round by round. */
  ghost function Senders1(evs: seq<Event>, k: nat): set<PeerId>
    requires k <= |evs|
  {
    set i | 0 <= i < k && evs[i].Round1? :: evs[i].sender
  }

  ghost function Senders2(evs: seq<Event>, k: nat): set<PeerId>
    requires k <= |evs|
  {
    set i | 0 <= i < k && evs[i].Round2? :: evs[i].sender
  }

  /** Every peer delivers each of its two packages exactly once, in any order. */
  ghost predicate OnceEach(evs: seq<Event>, peers: set<PeerId>) {
    && (forall i :: 0 <= i < |evs| && evs[i].Round1? ==> evs[i].package1.Some?)
    && (forall i, j :: 0 <= i < j < |evs| && evs[i].Round1? && evs[j].Round1? ==> evs[i].sender != evs[j].sender)
    && (forall i, j :: 0 <= i < j < |evs| && evs[i].Round2? && evs[j].Round2? ==> evs[i].sender != evs[j].sender)
    && Senders1(evs, |evs|) == peers && Senders2(evs, |evs|) == peers
  }

  ghost predicate LastRound1(evs: seq<Event>, j: nat) {
    j < |evs| && evs[j].Round1? && forall i :: j < i < |evs| ==> !evs[i].Round1?
  }

  ghost predicate LastRound2(evs: seq<Event>, j: nat) {
    j < |evs| && evs[j].Round2? && forall i :: j < i < |evs| ==> !evs[i].Round2?
  }

  const LUCKY := Luck(true, true, true, true, true, true)

  /** Everything succeeds. */
  ghost predicate Lucky(lucks: seq<Luck>) {
    forall i :: 0 <= i < |lucks| ==> lucks[i] == LUCKY
  }

  lemma {:induction false} SendersSnoc(evs: seq<Event>, k: nat)
    requires k < |evs|
    ensures Senders1(evs, k + 1) == Senders1(evs, k) + (if evs[k].Round1? then {evs[k].sender} else {})
    ensures Senders2(evs, k + 1) == Senders2(evs, k) + (if evs[k].Round2? then {evs[k].sender} else {})
  {
  }

  lemma {:induction false} AllSent1(evs: seq<Event>, peers: set<PeerId>, j: nat, k: nat)
    requires OnceEach(evs, peers) && LastRound1(evs, j) && k <= |evs|
    ensures Senders1(evs, k) <= peers
    ensures Senders1(evs, k) == peers <==> j < k
  {
    assert evs[j].sender in Senders1(evs, |evs|);
    if j < k {
      forall p | p in peers
        ensures p in Senders1(evs, k)
      {
        var i :| 0 <= i < |evs| && evs[i].Round1? && evs[i].sender == p;
      }
    } else {
      assert evs[j].sender !in Senders1(evs, k);
    }
  }

  lemma {:induction false} AllSent2(evs: seq<Event>, peers: set<PeerId>, j: nat, k: nat)
    requires OnceEach(evs, peers) && LastRound2(evs, j) && k <= |evs|
    ensures Senders2(evs, k) <= peers
    ensures Senders2(evs, k) == peers <==> j < k
  {
    assert evs[j].sender in Senders2(evs, |evs|);
    if j < k {
      forall p | p in peers
        ensures p in Senders2(evs, k)
      {
        var i :| 0 <= i < |evs| && evs[i].Round2? && evs[i].sender == p;
      }
    } else {
      assert evs[j].sender !in Senders2(evs, k);
    }
  }

  /** How far a node has come: the second part has run exactly if all
      first-round packages are in, the last part exactly if `done`. */
  ghost predicate Stage(s: DkgState, peers: set<PeerId>, done: bool) {
    && s.round1.Keys <= peers && s.round2.Keys <= peers
    && (s.round1.Keys != {} ==> s.started || s.hasKeys)
    && (s.r2Secret.Some? <==> s.round1.Keys == peers)
    && (s.r1Secret.Some? <==> s.started && s.round1.Keys != peers)
    && (s.hasKeys <==> done) && (done ==> s.round1.Keys == peers && s.round2.Keys == peers)
  }

  ghost predicate Sized(cfg: Config, peers: set<PeerId>) {
    peers != {} && cfg.minSigners.Some? && cfg.maxSigners == Some(|peers| + 1)
  }

  lemma {:induction false} StartStage(cfg: Config, s: DkgState, peers: set<PeerId>, done: bool)
    requires Sized(cfg, peers) && Stage(s, peers, done)
    ensures var e := OnStart(cfg, s, LUCKY);
            && Stage(e.s, peers, done) && e.part3 == []
            && e.s.round1 == s.round1 && e.s.round2 == s.round2
  {
    SubsetSize(s.round1.Keys, peers);
  }

  /** Starting, with first-round packages already in, keeps the stage but for
      the secret, which the next part needs. */
  lemma {:induction false} StartedState(cfg: Config, s: DkgState, peers: set<PeerId>)
    requires Sized(cfg, peers) && s.round1.Keys <= peers && !s.started
    ensures var e := StartDkg(cfg, s, LUCKY);
            && e.part3 == []
            && (e.ok || s.round1.Keys == peers)
            && e.s == if s.round1.Keys == peers
                      then s.(started := true, r1Secret := None, r2Secret := Some(Round2Secret))
                      else s.(started := true, r1Secret := Some(Round1Secret))
  {
    SubsetSize(s.round1.Keys, peers);
  }

  lemma {:induction false} EnteredState(cfg: Config, s: DkgState, peers: set<PeerId>)
    requires Sized(cfg, peers) && s.round1.Keys <= peers
    ensures var e := TryEnterRound2(cfg, s, LUCKY);
            && e.part3 == []
            && e.s == if s.r1Secret.Some? && s.round1.Keys == peers
                      then s.(r1Secret := None, r2Secret := Some(Round2Secret)) else s
  {
    SubsetSize(s.round1.Keys, peers);
  }

  /** A first-round package for a node that has started, or not yet. */
  lemma {:induction false} Round1Started(cfg: Config, s: DkgState, peers: set<PeerId>, sender: PeerId, package: Package)
    requires Sized(cfg, peers) && s.round1.Keys <= peers && sender in peers && (s.started || s.hasKeys)
    ensures var s1 := s.(round1 := s.round1[sender := package]);
            var e := OnRound1(cfg, s, sender, Some(package), LUCKY);
            && e.part3 == []
            && e.s == if s.r1Secret.Some? && s1.round1.Keys == peers
                      then s1.(r1Secret := None, r2Secret := Some(Round2Secret)) else s1
  {
    EnteredState(cfg, s.(round1 := s.round1[sender := package]), peers);
  }

  lemma {:induction false} Round1First(cfg: Config, s: DkgState, peers: set<PeerId>, sender: PeerId, package: Package)
    requires Sized(cfg, peers) && s.round1.Keys <= peers && sender in peers && !s.started && !s.hasKeys
    ensures var s1 := s.(round1 := s.round1[sender := package]);
            var e := OnRound1(cfg, s, sender, Some(package), LUCKY);
            && e.part3 == []
            && e.s == if s1.round1.Keys == peers
                      then s1.(started := true, r1Secret := None, r2Secret := Some(Round2Secret))
                      else s1.(started := true, r1Secret := Some(Round1Secret))
  {
    var s1 := s.(round1 := s.round1[sender := package]);
    StartedState(cfg, s1, peers);
    EnteredState(cfg, StartDkg(cfg, s1, LUCKY).s, peers);
  }

  lemma {:induction false} Round1Stage(cfg: Config, s: DkgState, peers: set<PeerId>, done: bool, sender: PeerId,
                                       package: Package)
    requires Sized(cfg, peers) && Stage(s, peers, done) && sender in peers
    ensures var e := OnRound1(cfg, s, sender, Some(package), LUCKY);
            && Stage(e.s, peers, done) && e.part3 == []
            && e.s.round1.Keys == s.round1.Keys + {sender} && e.s.round2 == s.round2
  {
    assert s.round1[sender := package].Keys == s.round1.Keys + {sender};
    if s.started || s.hasKeys {
      Round1Started(cfg, s, peers, sender, package);
    } else {
      Round1First(cfg, s, peers, sender, package);
    }
  }

  lemma {:induction false} Round2Stage(cfg: Config, s: DkgState, peers: set<PeerId>, done: bool, sender: PeerId,
                                       package: Package)
    requires Sized(cfg, peers) && Stage(s, peers, done) && sender in peers
    ensures var e := OnRound2(cfg, s, sender, package, LUCKY);
            var now := s.round1.Keys == peers && e.s.round2.Keys == peers;
            && Stage(e.s, peers, done || now) && RunsCount(e.part3, peers, if now then 1 else 0)
            && e.s.round2.Keys == s.round2.Keys + {sender} && e.s.round1 == s.round1
  {
    var s1 := s.(round2 := s.round2[sender := package]);
    assert s1.round2.Keys == s.round2.Keys + {sender};
    SubsetSize(s1.round2.Keys, peers);
  }

  /** So many runs, each on the packages of all peers. */
  ghost predicate RunsCount(runs: seq<Part3>, peers: set<PeerId>, n: nat) {
    |runs| == n && forall r :: r in runs ==> r.round1.Keys == peers && r.round2.Keys == peers
  }

  /** One more event: the senders grow by its sender, and the last part runs
      now exactly if it is of the second round and both rounds are then full. */
  ghost predicate Advanced(s: DkgState, peers: set<PeerId>, done: bool, ev: Event, f: Effect) {
    var now := ev.Round2? && s.round1.Keys == peers && f.s.round2.Keys == peers;
    && Stage(f.s, peers, done || now) && RunsCount(f.part3, peers, if now then 1 else 0)
    && f.s.round1.Keys == s.round1.Keys + (if ev.Round1? then {ev.sender} else {})
    && f.s.round2.Keys == s.round2.Keys + (if ev.Round2? then {ev.sender} else {})
  }

  lemma {:induction false} StartAdvances(cfg: Config, s: DkgState, peers: set<PeerId>, done: bool, ev: Event)
    requires Sized(cfg, peers) && Stage(s, peers, done) && (ev.Subscribed? || ev.StartSignal?)
    ensures Advanced(s, peers, done, ev, Step(cfg, s, ev, LUCKY))
  {
    var s1 := if ev.Subscribed? then s.(listeners := s.listeners + {ev.peer}) else s;
    StartStage(cfg, s1, peers, done);
  }

  /** A decodable package of a peer, or no package. */
  predicate FromPeer(ev: Event, peers: set<PeerId>) {
    && (ev.Round1? ==> ev.sender in peers && ev.package1.Some?)
    && (ev.Round2? ==> ev.sender in peers)
  }

  ghost predicate FromPeers(evs: seq<Event>, peers: set<PeerId>) {
    forall i :: 0 <= i < |evs| ==> FromPeer(evs[i], peers)
  }

  lemma {:induction false} StageStep(cfg: Config, s: DkgState, peers: set<PeerId>, done: bool, ev: Event)
    requires Sized(cfg, peers) && Stage(s, peers, done) && FromPeer(ev, peers)
    ensures Advanced(s, peers, done, ev, Step(cfg, s, ev, LUCKY))
  {
    match ev
    case Round1(p, package) => Round1Advances(cfg, s, peers, done, p, package.value);
    case Round2(p, package) => Round2Advances(cfg, s, peers, done, p, package);
    case _ => StartAdvances(cfg, s, peers, done, ev);
  }

  lemma {:induction false} Round1Advances(cfg: Config, s: DkgState, peers: set<PeerId>, done: bool, p: PeerId,
                                          package: Package)
    requires Sized(cfg, peers) && Stage(s, peers, done) && p in peers
    ensures Advanced(s, peers, done, Round1(p, Some(package)), OnRound1(cfg, s, p, Some(package), LUCKY))
  {
    Round1Stage(cfg, s, peers, done, p, package);
  }

  lemma {:induction false} Round2Advances(cfg: Config, s: DkgState, peers: set<PeerId>, done: bool, p: PeerId,
                                          package: Package)
    requires Sized(cfg, peers) && Stage(s, peers, done) && p in peers
    ensures Advanced(s, peers, done, Round2(p, package), OnRound2(cfg, s, p, package, LUCKY))
  {
    Round2Stage(cfg, s, peers, done, p, package);
  }

  /** The event at `k` is a second-round package that finds the first round
      full and leaves the second full. */
  ghost predicate Completing(evs: seq<Event>, peers: set<PeerId>, k: nat) {
    k < |evs| && evs[k].Round2? && Senders1(evs, k) == peers && Senders2(evs, k + 1) == peers
  }

  ghost function Completions(evs: seq<Event>, peers: set<PeerId>, n: nat): set<nat> {
    set k: nat | k < n && Completing(evs, peers, k)
  }

  /** After the first `k` events. */
  ghost predicate Progress(evs: seq<Event>, peers: set<PeerId>, k: nat, e: Effect)
    requires k <= |evs|
  {
    var runs := Completions(evs, peers, k);
    && e.s.round1.Keys == Senders1(evs, k) && e.s.round2.Keys == Senders2(evs, k)
    && Stage(e.s, peers, runs != {}) && RunsCount(e.part3, peers, |runs|)
  }

  lemma {:induction false} RunsConcat(a: seq<Part3>, b: seq<Part3>, peers: set<PeerId>, m: nat, n: nat)
    requires RunsCount(a, peers, m) && RunsCount(b, peers, n)
    ensures RunsCount(a + b, peers, m + n)
  {
  }

  lemma {:induction false} CompletionsSnoc(evs: seq<Event>, peers: set<PeerId>, k: nat)
    ensures var before, after := Completions(evs, peers, k), Completions(evs, peers, k + 1);
            && after == before + (if Completing(evs, peers, k) then {k} else {})
            && |after| == |before| + (if Completing(evs, peers, k) then 1 else 0)
  {
    assert k !in Completions(evs, peers, k);
    assert Completions(evs, peers, k + 1) ==
           Completions(evs, peers, k) + (if Completing(evs, peers, k) then {k} else {});
  }

  lemma {:induction false} StepProgress(cfg: Config, evs: seq<Event>, peers: set<PeerId>, k: nat, e: Effect)
    requires Sized(cfg, peers) && k < |evs| && FromPeer(evs[k], peers) && Progress(evs, peers, k, e)
    ensures var f := Step(cfg, e.s, evs[k], LUCKY);
            Progress(evs, peers, k + 1, Effect(f.s, f.ok, e.part3 + f.part3))
  {
    var f, runs := Step(cfg, e.s, evs[k], LUCKY), Completions(evs, peers, k);
    SendersSnoc(evs, k);
    StageStep(cfg, e.s, peers, runs != {}, evs[k]);
    CompletionsSnoc(evs, peers, k);
    RunsConcat(e.part3, f.part3, peers, |runs|, if Completing(evs, peers, k) then 1 else 0);
  }

  lemma {:induction false} RunSnoc(cfg: Config, evs: seq<Event>, lucks: seq<Luck>, k: nat)
    requires |lucks| == |evs| && Lucky(lucks) && k < |evs|
    ensures var e := Run(cfg, INITIAL, evs[..k], lucks[..k]);
            var f := Step(cfg, e.s, evs[k], LUCKY);
            Run(cfg, INITIAL, evs[..k + 1], lucks[..k + 1]) == Effect(f.s, f.ok, e.part3 + f.part3)
  {
    assert evs[..k + 1][..k] == evs[..k] && lucks[..k + 1][..k] == lucks[..k];
    assert evs[..k + 1][k] == evs[k] && lucks[..k + 1][k] == LUCKY;
  }

  lemma {:induction false} RunProgress(cfg: Config, evs: seq<Event>, lucks: seq<Luck>, peers: set<PeerId>, k: nat)
    requires Sized(cfg, peers) && FromPeers(evs, peers) && |lucks| == |evs| && Lucky(lucks) && k <= |evs|
    ensures Progress(evs, peers, k, Run(cfg, INITIAL, evs[..k], lucks[..k]))
    decreases k
  {
    if k > 0 {
      var i := k - 1;
      var e := Run(cfg, INITIAL, evs[..i], lucks[..i]);
      var f := Step(cfg, e.s, evs[i], LUCKY);
      RunProgress(cfg, evs, lucks, peers, i);
      assert Run(cfg, INITIAL, evs[..k], lucks[..k]) == Effect(f.s, f.ok, e.part3 + f.part3) by {
        RunSnoc(cfg, evs, lucks, i);
      }
      StepProgress(cfg, evs, peers, i, e);
    } else {
      assert Senders1(evs, 0) == {} && Senders2(evs, 0) == {} && Completions(evs, peers, 0) == {};
    }
  }

  lemma {:induction false} StartRunsNothing(cfg: Config, s: DkgState, luck: Luck)
    ensures var e := OnStart(cfg, s, luck);
            e.part3 == [] && e.s.hasKeys == s.hasKeys
  {
  }

  /** A node that no package reaches has no keys and never runs the last part. */
  lemma {:induction false} NoPackages(cfg: Config, evs: seq<Event>, lucks: seq<Luck>)
    requires |lucks| == |evs| && FromPeers(evs, {})
    ensures var e := Run(cfg, INITIAL, evs, lucks);
            e.part3 == [] && !e.s.hasKeys
  {
    if evs != [] {
      var k := |evs| - 1;
      NoPackages(cfg, evs[..k], lucks[..k]);
      assert FromPeer(evs[k], {});
      var s := Run(cfg, INITIAL, evs[..k], lucks[..k]).s;
      StartRunsNothing(cfg, if evs[k].Subscribed? then s.(listeners := s.listeners + {evs[k].peer}) else s, lucks[k]);
    }
  }

  /** However often and in whatever order the peers' packages come, if nothing
      fails: the last part runs once for every second-round package that finds
      the first round full and leaves the second full, each time on the
      packages of exactly the peers; there are keys exactly if it ran. */
  lemma {:induction false} RunsOfLastPart(cfg: Config, evs: seq<Event>, lucks: seq<Luck>, peers: set<PeerId>)
    requires FromPeers(evs, peers) && |lucks| == |evs| && Lucky(lucks)
    requires cfg.minSigners.Some? && cfg.maxSigners == Some(|peers| + 1)
    ensures var e, runs := Run(cfg, INITIAL, evs, lucks), Completions(evs, peers, |evs|);
            && RunsCount(e.part3, peers, |runs|) && (e.s.hasKeys <==> runs != {})
            && (peers != {} ==> Stage(e.s, peers, runs != {}))
            && (peers != {} ==> e.s.round1.Keys == Senders1(evs, |evs|))
  {
    if peers == {} {
      NoPackages(cfg, evs, lucks);
      forall k: nat | k < |evs|
        ensures !Completing(evs, peers, k)
      {
        assert FromPeer(evs[k], peers);
      }
      assert Completions(evs, peers, |evs|) == {};
    } else {
      RunProgress(cfg, evs, lucks, peers, |evs|);
      assert evs[..|evs|] == evs && lucks[..|lucks|] == lucks;
    }
  }

  /** The event at `k` completes, and no other does. */
  ghost predicate CompletesAlone(evs: seq<Event>, peers: set<PeerId>, k: nat) {
    Completing(evs, peers, k) && forall j: nat :: Completing(evs, peers, j) ==> j == k
  }

  lemma {:induction false} OneCompletion(evs: seq<Event>, peers: set<PeerId>)
    ensures |Completions(evs, peers, |evs|)| == 1 <==> exists k: nat :: CompletesAlone(evs, peers, k)
  {
    var runs := Completions(evs, peers, |evs|);
    assert forall j: nat :: j in runs <==> Completing(evs, peers, j);
    if k: nat :| CompletesAlone(evs, peers, k) {
      OneElement(runs, k);
    } else if |runs| == 1 {
      var k :| k in runs;
      OneElement(runs, k);
      assert CompletesAlone(evs, peers, k);
    }
  }

  /** So it runs exactly once exactly if there is exactly one such package. */
  lemma {:induction false} RunsOnceIff(cfg: Config, evs: seq<Event>, lucks: seq<Luck>, peers: set<PeerId>)
    requires FromPeers(evs, peers) && |lucks| == |evs| && Lucky(lucks)
    requires cfg.minSigners.Some? && cfg.maxSigners == Some(|peers| + 1)
    ensures |Run(cfg, INITIAL, evs, lucks).part3| == 1 <==> exists k: nat :: CompletesAlone(evs, peers, k)
  {
    RunsOfLastPart(cfg, evs, lucks, peers);
    OneCompletion(evs, peers);
  }

  /** What exactly-once delivery says about the event at `k`. */
  lemma {:induction false} EventAt(evs: seq<Event>, peers: set<PeerId>, j1: nat, j2: nat, k: nat)
    requires OnceEach(evs, peers) && LastRound1(evs, j1) && LastRound2(evs, j2) && k < |evs|
    ensures FromPeer(evs[k], peers)
    ensures Completing(evs, peers, k) <==> k == j2 && j1 < j2
  {
    AllSent1(evs, peers, j1, k);
    AllSent2(evs, peers, j2, k + 1);
    assert evs[k].Round1? ==> evs[k].sender in Senders1(evs, |evs|);
    assert evs[k].Round2? ==> evs[k].sender in Senders2(evs, |evs|);
  }

  lemma {:induction false} OnlyLast(evs: seq<Event>, peers: set<PeerId>, j1: nat, j2: nat)
    requires OnceEach(evs, peers) && LastRound1(evs, j1) && LastRound2(evs, j2)
    ensures FromPeers(evs, peers)
    ensures Completions(evs, peers, |evs|) == if j1 < j2 then {j2} else {}
  {
    forall k: nat | k < |evs|
      ensures FromPeer(evs[k], peers)
      ensures Completing(evs, peers, k) <==> k == j2 && j1 < j2
    {
      EventAt(evs, peers, j1, j2, k);
    }
  }

  /** When every peer delivers both packages exactly once and nothing fails, the
      last part runs exactly once if the last second-round package is handled
      after the last first-round one, and never otherwise; it then sees the
      packages of exactly the peers. */
  lemma {:induction false} CompletesIffInOrder(cfg: Config, evs: seq<Event>, lucks: seq<Luck>, peers: set<PeerId>,
                                               j1: nat, j2: nat)
    requires OnceEach(evs, peers) && LastRound1(evs, j1) && LastRound2(evs, j2)
    requires |lucks| == |evs| && Lucky(lucks)
    requires cfg.minSigners.Some? && cfg.maxSigners == Some(|peers| + 1)
    ensures var e := Run(cfg, INITIAL, evs, lucks);
            && |e.part3| == (if j1 < j2 then 1 else 0)
            && (forall r :: r in e.part3 ==> r.round1.Keys == peers && r.round2.Keys == peers)
            && (e.s.hasKeys <==> j1 < j2)
            && e.s.r2Secret.Some? && Stage(e.s, peers, j1 < j2)
  {
    OnlyLast(evs, peers, j1, j2);
    assert evs[j1].sender in peers;
    RunsOfLastPart(cfg, evs, lucks, peers);
  }

  /** A node that has completed keeps its second-round secret and all packages,
      so another second-round package from a peer runs the last part again, on
      that package in place of the first; should it fail now, secrets and
      packages are dropped and the keys stay. */
  lemma {:induction false} RunsAgain(cfg: Config, s: DkgState, peers: set<PeerId>, p: PeerId, package: Package,
                                     luck: Luck)
    requires Sized(cfg, peers) && Stage(s, peers, true) && p in peers
    ensures var e := Step(cfg, s, Round2(p, package), luck);
            if !luck.pongOk then e.part3 == [] && e.s == s
            else
              && e.part3 == [Part3(s.round1, s.round2[p := package])] && e.s.hasKeys
              && (luck.part3Ok ==> Stage(e.s, peers, true) && e.s.r2Secret.Some?)
              && (!luck.part3Ok ==> e.s.r2Secret.None? && e.s.round1 == map[] && e.s.round2 == map[])
  {
    assert s.round2[p := package].Keys == s.round2.Keys + {p} == peers;
  }

  /** So after an exactly-once delivery in order, each repeat of a second-round
      package adds a run of the last part. */
  lemma {:induction false} RepeatRunsAgain(cfg: Config, evs: seq<Event>, lucks: seq<Luck>, peers: set<PeerId>,
                                           j1: nat, j2: nat, p: PeerId, package: Package, luck: Luck)
    requires OnceEach(evs, peers) && LastRound1(evs, j1) && LastRound2(evs, j2) && j1 < j2
    requires |lucks| == |evs| && Lucky(lucks) && p in peers && luck.pongOk
    requires cfg.minSigners.Some? && cfg.maxSigners == Some(|peers| + 1)
    ensures |Run(cfg, INITIAL, evs + [Round2(p, package)], lucks + [luck]).part3| == 2
  {
    var evs', lucks' := evs + [Round2(p, package)], lucks + [luck];
    assert evs'[..|evs|] == evs && lucks'[..|evs|] == lucks;
    CompletesIffInOrder(cfg, evs, lucks, peers, j1, j2);
    RunsAgain(cfg, Run(cfg, INITIAL, evs, lucks).s, peers, p, package, luck);
  }

  // ---------- Starting ----------

  /** The distinct peers that subscribed in the first `k` events. */
  ghost function Subscribers(evs: seq<Event>, k: nat): set<PeerId>
    requires k <= |evs|
  {
    set i | 0 <= i < k && evs[i].Subscribed? :: evs[i].peer
  }

  /** The event at `k` finds enough subscribers, itself included, or is a
      first-round package that decodes. */
  ghost predicate Starting(evs: seq<Event>, max: nat, k: nat) {
    && k < |evs|
    && match evs[k]
       case Subscribed(_) => |Subscribers(evs, k + 1)| + 1 >= max
       case StartSignal => |Subscribers(evs, k + 1)| + 1 >= max
       case Round1(_, package) => package.Some?
       case Round2(_, _) => false
  }

  ghost predicate StartedBy(evs: seq<Event>, max: nat, n: nat) {
    exists k: nat :: k < n && Starting(evs, max, k)
  }

  /** Only a failure of the last part takes key generation back. */
  ghost predicate NoRelapse(lucks: seq<Luck>) {
    forall i :: 0 <= i < |lucks| ==> lucks[i].part3Ok
  }

  lemma {:induction false} EnterKeeps(cfg: Config, s: DkgState, luck: Luck)
    ensures var s' := TryEnterRound2(cfg, s, luck).s;
            s'.started == s.started && s'.hasKeys == s.hasKeys && s'.listeners == s.listeners && s'.round1 == s.round1
  {
  }

  lemma {:induction false} StartSets(cfg: Config, s: DkgState, luck: Luck)
    ensures var s' := StartDkg(cfg, s, luck).s;
            s'.started && s'.hasKeys == s.hasKeys && s'.listeners == s.listeners && s'.round1 == s.round1
  {
    EnterKeeps(cfg, s.(started := true, r1Secret := Some(Round1Secret)), luck);
  }

  /** Whether `ev` starts a node with these listeners. */
  predicate Starts(cfg: Config, listeners: set<PeerId>, ev: Event) {
    && cfg.maxSigners.Some?
    && match ev
       case Subscribed(_) => |listeners| + 1 >= cfg.maxSigners.value
       case StartSignal => |listeners| + 1 >= cfg.maxSigners.value
       case Round1(_, package) => package.Some?
       case Round2(_, _) => false
  }

  predicate Underway(s: DkgState) { s.started || s.hasKeys }

  lemma {:induction false} OnStartStarts(cfg: Config, s: DkgState, luck: Luck)
    ensures var s' := OnStart(cfg, s, luck).s;
            && s'.listeners == s.listeners
            && (Underway(s') <==>
                Underway(s) || (cfg.maxSigners.Some? && |s.listeners| + 1 >= cfg.maxSigners.value))
  {
    StartSets(cfg, s, luck);
  }

  lemma {:induction false} Round2Underway(cfg: Config, s: DkgState, p: PeerId, package: Package, luck: Luck)
    requires luck.part3Ok && (s.r2Secret.Some? ==> Underway(s))
    ensures var s' := OnRound2(cfg, s, p, package, luck).s;
            s'.listeners == s.listeners && (Underway(s') <==> Underway(s))
  {
  }

  lemma {:induction false} StepStarts(cfg: Config, s: DkgState, ev: Event, luck: Luck)
    requires luck.part3Ok && (s.r2Secret.Some? ==> Underway(s))
    ensures var s' := Step(cfg, s, ev, luck).s;
            && s'.listeners == s.listeners + (if ev.Subscribed? then {ev.peer} else {})
            && (Underway(s') <==> Underway(s) || Starts(cfg, s'.listeners, ev))
  {
    match ev
    case Subscribed(p) => OnStartStarts(cfg, s.(listeners := s.listeners + {p}), luck);
    case StartSignal => OnStartStarts(cfg, s, luck);
    case Round1(p, package) => Round1Starts(cfg, s, p, package, luck);
    case Round2(p, package) => Round2Underway(cfg, s, p, package, luck);
  }

  lemma {:induction false} Round1Starts(cfg: Config, s: DkgState, p: PeerId, package: Option<Package>, luck: Luck)
    ensures var s' := OnRound1(cfg, s, p, package, luck).s;
            && s'.listeners == s.listeners
            && (s'.started || s'.hasKeys <==> s.started || s.hasKeys || (cfg.maxSigners.Some? && package.Some?))
  {
    if package.Some? {
      var s1 := s.(round1 := s.round1[p := package.value]);
      StartSets(cfg, s1, luck);
      EnterKeeps(cfg, s1, luck);
      EnterKeeps(cfg, StartDkg(cfg, s1, luck).s, luck);
    }
  }

  lemma {:induction false} StartedBySnoc(evs: seq<Event>, max: nat, k: nat)
    requires k < |evs|
    ensures StartedBy(evs, max, k + 1) <==> StartedBy(evs, max, k) || Starting(evs, max, k)
  {
    if StartedBy(evs, max, k) {
      var i: nat :| i < k && Starting(evs, max, i);
      assert i < k + 1;
    }
  }

  lemma {:induction false} RunStep(cfg: Config, evs: seq<Event>, lucks: seq<Luck>, k: nat)
    requires |lucks| == |evs| && k < |evs|
    ensures Run(cfg, INITIAL, evs[..k + 1], lucks[..k + 1]).s ==
            Step(cfg, Run(cfg, INITIAL, evs[..k], lucks[..k]).s, evs[k], lucks[k]).s
  {
    assert evs[..k + 1][..k] == evs[..k] && lucks[..k + 1][..k] == lucks[..k];
  }

  /** The state after the first `k` events, as far as starting goes. */
  ghost predicate StartInv(cfg: Config, evs: seq<Event>, k: nat, s: DkgState)
    requires k <= |evs|
  {
    && s.listeners == Subscribers(evs, k)
    && (Underway(s) <==> cfg.maxSigners.Some? && StartedBy(evs, cfg.maxSigners.value, k))
  }

  lemma {:induction false} StartInvStep(cfg: Config, evs: seq<Event>, k: nat, s: DkgState, s': DkgState)
    requires k < |evs| && StartInv(cfg, evs, k, s)
    requires s'.listeners == s.listeners + (if evs[k].Subscribed? then {evs[k].peer} else {})
    requires Underway(s') <==> Underway(s) || Starts(cfg, s'.listeners, evs[k])
    ensures StartInv(cfg, evs, k + 1, s')
  {
    assert Subscribers(evs, k + 1) == Subscribers(evs, k) + (if evs[k].Subscribed? then {evs[k].peer} else {});
    if cfg.maxSigners.Some? {
      StartedBySnoc(evs, cfg.maxSigners.value, k);
      assert Starts(cfg, s'.listeners, evs[k]) <==> Starting(evs, cfg.maxSigners.value, k);
    }
  }

  lemma {:induction false} RunStarts(cfg: Config, evs: seq<Event>, lucks: seq<Luck>, k: nat)
    requires |lucks| == |evs| && k <= |evs| && NoRelapse(lucks)
    ensures StartInv(cfg, evs, k, Run(cfg, INITIAL, evs[..k], lucks[..k]).s)
  {
    if k > 0 {
      var i := k - 1;
      var s := Run(cfg, INITIAL, evs[..i], lucks[..i]).s;
      RunStarts(cfg, evs, lucks, i);
      assert s.r2Secret.Some? ==> Underway(s) by {
        NeverBothSecrets(cfg, evs[..i], lucks[..i]);
      }
      StepStarts(cfg, s, evs[i], lucks[i]);
      StartInvStep(cfg, evs, i, s, Step(cfg, s, evs[i], lucks[i]).s);
      RunStep(cfg, evs, lucks, i);
    }
  }

  /** Over every run in which the last part does not fail: key generation has
      started, or finished, exactly if some subscription or start signal found
      as many distinct subscribers as there are other signers, or some
      first-round package decoded. */
  lemma {:induction false} StartsIff(cfg: Config, evs: seq<Event>, lucks: seq<Luck>)
    requires |lucks| == |evs| && NoRelapse(lucks)
    ensures var s := Run(cfg, INITIAL, evs, lucks).s;
            s.started || s.hasKeys <==> cfg.maxSigners.Some? && StartedBy(evs, cfg.maxSigners.value, |evs|)
  {
    RunStarts(cfg, evs, lucks, |evs|);
    assert evs[..|evs|] == evs && lucks[..|evs|] == lucks;
  }

  /** Before any package arrives a node that has started holds its first-round
      secret, if it expects others to take part. */
  lemma {:induction false} StartedHoldsSecret(cfg: Config, evs: seq<Event>, lucks: seq<Luck>)
    requires |lucks| == |evs| && FromPeers(evs, {}) && cfg.minSigners.Some? && cfg.maxSigners != Some(1)
    ensures var s := Run(cfg, INITIAL, evs, lucks).s;
            s.round1 == map[] && !s.hasKeys && s.r2Secret.None? && (s.r1Secret == Some(Round1Secret) <==> s.started)
  {
    if evs != [] {
      var k := |evs| - 1;
      var s := Run(cfg, INITIAL, evs[..k], lucks[..k]).s;
      StartedHoldsSecret(cfg, evs[..k], lucks[..k]);
      assert FromPeer(evs[k], {});
      StartHolds(cfg, if evs[k].Subscribed? then s.(listeners := s.listeners + {evs[k].peer}) else s, lucks[k]);
    }
  }

  lemma {:induction false} StartHolds(cfg: Config, s: DkgState, luck: Luck)
    requires cfg.minSigners.Some? && cfg.maxSigners != Some(1)
    requires s.round1 == map[] && !s.hasKeys && s.r2Secret.None? && (s.r1Secret == Some(Round1Secret) <==> s.started)
    ensures var s' := OnStart(cfg, s, luck).s;
            && s'.round1 == map[] && !s'.hasKeys && s'.r2Secret.None?
            && (s'.r1Secret == Some(Round1Secret) <==> s'.started)
  {
    assert |s.round1.Keys| == 0;
  }

  // ---------- A second part that fails ----------

  /** When the package that completes the first round comes and the second part
      fails, nothing is lost: the next such package has it run again. It goes
      well if every message can be sent and every subscriber's package is in. */
  lemma {:induction false} SecondPartRetried(cfg: Config, s: DkgState, sender: PeerId, package: Package, fails: Luck,
                                             works: Luck)
    requires s.started && s.r1Secret.Some? && s.r2Secret.None? && !fails.part2Ok && works.part2Ok
    requires cfg.maxSigners == Some(|s.round1.Keys + {sender}| + 1)
    ensures var ev := Round1(sender, Some(package));
            var e := Step(cfg, s, ev, fails);
            var f := Step(cfg, e.s, ev, works);
            && !e.ok && e.s == s.(round1 := s.round1[sender := package])
            && f.s.r1Secret.None? && f.s.r2Secret == Some(Round2Secret) && f.s.round1 == e.s.round1
            && (f.ok <==> works.sendsOk && forall p :: p in s.listeners ==> p in f.s.round1)
  {
    var held := s.round1[sender := package];
    assert held.Keys == s.round1.Keys + {sender};
    assert held[sender := package] == held;
  }

  class DkgHandler {
    const cfg: Config
    var dkgStarted: bool
    var dkgListeners: set<PeerId>
    var round1PeerPackages: map<PeerId, Package>
    var round2PeerPackages: map<PeerId, Package>
    var r1SecretPackage: Option<Secret>
    var r2SecretPackage: Option<Secret>
    // Whether the node holds its key packages.
    var hasKeys: bool
    var part3Runs: seq<Part3>

    ghost function View(): DkgState
      reads this
    {
      DkgState(dkgStarted, dkgListeners, round1PeerPackages, round2PeerPackages, r1SecretPackage, r2SecretPackage,
        hasKeys)
    }

    twostate predicate Performed(e: Effect, ok: bool)
      reads this
    {
      View() == e.s && ok == e.ok && part3Runs == old(part3Runs) + e.part3
    }

    constructor (cfg: Config)
      ensures this.cfg == cfg && View() == INITIAL && part3Runs == []
    {
      this.cfg := cfg;
      dkgStarted, dkgListeners, hasKeys := false, {}, false;
      round1PeerPackages, round2PeerPackages := map[], map[];
      r1SecretPackage, r2SecretPackage := None, None;
      part3Runs := [];
    }

    method EnterRound2(luck: Luck) returns (ok: bool)
      modifies this
      ensures Performed(TryEnterRound2(cfg, old(View()), luck), ok)
    {
      if r1SecretPackage.Some? {
        if cfg.maxSigners.None? { return false; }
        if |round1PeerPackages.Keys| + 1 == cfg.maxSigners.value {
          if !luck.part2Ok { return false; }
          r1SecretPackage := None;
          r2SecretPackage := Some(Round2Secret);
          return luck.sendsOk && dkgListeners <= round1PeerPackages.Keys;
        }
      }
      return true;
    }

    method Start(luck: Luck) returns (ok: bool)
      modifies this
      ensures Performed(StartDkg(cfg, old(View()), luck), ok)
    {
      if dkgStarted { return false; }
      dkgStarted := true;
      if cfg.maxSigners.None? || cfg.minSigners.None? { return false; }
      r1SecretPackage := Some(Round1Secret);
      if !luck.broadcastOk { return false; }
      ok := EnterRound2(luck);
    }

    method HandleDkgStart(luck: Luck) returns (ok: bool)
      modifies this
      ensures Performed(OnStart(cfg, old(View()), luck), ok)
    {
      if dkgStarted { return true; }
      if hasKeys { return true; }
      if cfg.maxSigners.None? { return false; }
      if |dkgListeners| + 1 < cfg.maxSigners.value { return true; }
      ok := Start(luck);
    }

    method HandleRound1Payload(sender: PeerId, package: Option<Package>, luck: Luck) returns (ok: bool)
      modifies this
      ensures Performed(OnRound1(cfg, old(View()), sender, package, luck), ok)
    {
      if package.None? { return false; }
      round1PeerPackages := round1PeerPackages[sender := package.value];
      if cfg.maxSigners.None? { return false; }
      if !dkgStarted && round1PeerPackages != map[] && !hasKeys {
        ok := Start(luck);
        if !ok { return; }
      }
      ok := EnterRound2(luck);
    }

    method ResetDkgState()
      modifies this
      ensures View() == Reset(old(View())) && part3Runs == old(part3Runs)
    {
      dkgStarted := false;
      r1SecretPackage := None;
      r2SecretPackage := None;
      round1PeerPackages := map[];
      round2PeerPackages := map[];
    }

    method HandleRound2Payload(sender: PeerId, package: Package, luck: Luck) returns (ok: bool)
      modifies this
      ensures Performed(OnRound2(cfg, old(View()), sender, package, luck), ok)
    {
      if !luck.pongOk { return false; }
      round2PeerPackages := round2PeerPackages[sender := package];
      if cfg.maxSigners.None? { return false; }
      if r2SecretPackage.Some? && |round2PeerPackages.Keys| + 1 == cfg.maxSigners.value {
        part3Runs := part3Runs + [Part3(round1PeerPackages, round2PeerPackages)];
        if luck.part3Ok {
          hasKeys := true;
          if !luck.genesisOk { return false; }
          dkgStarted := false;
        } else {
          ResetDkgState();
        }
      }
      return true;
    }

    /** The event dispatch of the handler. */
    method Handle(ev: Event, luck: Luck) returns (ok: bool)
      modifies this
      ensures Performed(Step(cfg, old(View()), ev, luck), ok)
    {
      match ev
      case Subscribed(p) =>
        dkgListeners := dkgListeners + {p};
        ok := HandleDkgStart(luck);
      case StartSignal => ok := HandleDkgStart(luck);
      case Round1(p, package) => ok := HandleRound1Payload(p, package, luck);
      case Round2(p, package) => ok := HandleRound2Payload(p, package, luck);
    }
  }
}
