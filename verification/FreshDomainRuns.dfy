/** Safety of the lifecycle over whole runs: any sequence of creator operations, each succeeding or
    failing anywhere, interleaved with any scenario activity and with keys expiring. */
module FreshDomainRuns {
  import opened Results
  import opened Snapshot
  import opened OwnerBijection
  import opened FreshDomain

  datatype Label =
    | DoCreate(ok: bool) | DoActivate(toPrepared: bool, ok: bool) | DoIssue(ok: bool)
    | DoQuiesce(steps: QuiesceSteps, ok: bool)
    | DoVerify(ok: bool) | DoResume(ok: bool) | DoAbort(ok: bool) | DoDispose(steps: QuiesceSteps, ok: bool)
    | DoHold | Connect | Write | Expire

  ghost predicate ScenarioConnected(s: Domain) {
    exists c :: c in s.clients && s.clients[c] == ScenarioUser
  }

  // What the outside world may do: a holder of an accepted scenario password connects or
  // disconnects, a connected scenario client writes anything, and keys with a deadline expire.
  ghost predicate ConnectRel(s: Domain, t: Domain) {
    && t == s.(clients := t.clients)
    && forall c :: c in t.clients ==>
         (c in s.clients && t.clients[c] == s.clients[c])
         || (t.clients[c] == ScenarioUser && ScenarioUser in s.acl && s.acl[ScenarioUser] != {})
  }

  ghost predicate WriteRel(s: Domain, t: Domain) {
    t == s.(db := t.db) && ScenarioConnected(s)
  }

  // The issuer's teardown forces HOLD on a domain it could not dispose of.
  ghost predicate HoldRel(s: Domain, t: Domain) {
    s.Now() != Some(Disposed) && t == s.(trail := s.trail + [Hold])
  }

  ghost predicate Step(cfg: Config, l: Label, s: Domain, t: Domain) {
    match l
    case DoCreate(ok) => CreateRel(cfg, s, t, ok)
    case DoActivate(p, ok) => ActivateRel(cfg, s, t, p, ok)
    case DoIssue(ok) => IssueRel(cfg, s, t, ok)
    case DoQuiesce(q, ok) => QuiesceRel(cfg, s, t, q, ok)
    case DoVerify(ok) => VerifyRel(cfg, s, t, ok)
    case DoResume(ok) => ResumeRel(cfg, s, t, ok)
    case DoAbort(ok) => AbortRel(s, t, ok)
    case DoDispose(q, ok) => DisposeRel(cfg, s, t, q, ok)
    case DoHold => HoldRel(s, t)
    case Connect => ConnectRel(s, t)
    case Write => WriteRel(s, t)
    case Expire => Expired(s, t)
  }

  const INITIAL := Domain([], false, false, 0, 0, map[], map[], map[], 0, None, None, false, None, map[], map[])

  datatype Run = Run(states: seq<Domain>, labels: seq<Label>)

  ghost predicate IsRun(cfg: Config, r: Run) {
    && |r.states| == |r.labels| + 1 && r.states[0] == INITIAL
    && forall i :: 0 <= i < |r.labels| ==> Step(cfg, r.labels[i], r.states[i], r.states[i + 1])
  }

  // ----- the invariant

  ghost predicate OnePassword(s: Domain) {
    && (ScenarioUser in s.acl ==> exists p :: 0 <= p < s.drawn && s.acl[ScenarioUser] == {p})
    && (ScenarioConnected(s) ==> ScenarioUser in s.acl)
  }

  // The scenario user exists only while released, or after an interrupted release or teardown.
  ghost predicate ReleasePhases(s: Domain) {
    ScenarioUser in s.acl ==>
      s.Now() in {Some(HeaderVerified), Some(DomainReleased), Some(VerifiedRetained), Some(Hold)}
  }

  ghost predicate CheckpointSound(cfg: Config, s: Domain) {
    && (s.checkpoint.Some? ==> IsSnapshot(cfg.order, s.quiesced, s.checkpoint.value))
    && (s.Now() == Some(Quiescent) || s.Now() == Some(VerifiedRetained) ==>
        s.checkpoint.Some? && s.floor == OwnersOf(s.quiesced))
  }

  ghost predicate ActivatedOnce(s: Domain) {
    s.attempts <= 1 && s.apiCalls <= s.attempts
  }

  ghost predicate Inv(cfg: Config, s: Domain) {
    Legal(s.trail) && ActivatedOnce(s) && OnePassword(s) && ReleasePhases(s) && CheckpointSound(cfg, s)
  }

  // ----- phase trails

  lemma Extend(trail: seq<Phase>, p: Phase)
    requires Legal(trail)
    requires if trail == [] then p == Created || p == Hold || p == Disposed else Edge(trail[|trail| - 1], p)
    ensures Legal(trail + [p])
  {
    var next := trail + [p];
    forall i | 0 <= i < |next| - 1 ensures Edge(next[i], next[i + 1]) {
      if i < |trail| - 1 { assert Edge(trail[i], trail[i + 1]); }
    }
  }

  lemma StartupLegal(trail: seq<Phase>)
    requires trail <= STARTUP
    ensures Legal(trail)
  {
    assert forall i :: 0 <= i < |trail| ==> trail[i] == STARTUP[i];
  }

  lemma {:induction false} ActivationLegal(trail: seq<Phase>, k: nat)
    requires Legal(trail) && PhaseOf(trail) == Some(WritersIsolated) && k <= 4
    ensures Legal(trail + ACTIVATION[..k])
    ensures PhaseOf(trail + ACTIVATION[..k]) == Some(if k == 0 then WritersIsolated else ACTIVATION[k - 1])
  {
    if k == 0 {
      assert trail + ACTIVATION[..0] == trail;
    } else {
      ActivationLegal(trail, k - 1);
      assert trail + ACTIVATION[..k] == trail + ACTIVATION[..k - 1] + [ACTIVATION[k - 1]];
      Extend(trail + ACTIVATION[..k - 1], ACTIVATION[k - 1]);
    }
  }

  // ----- each operation keeps the invariant

  lemma ReleaseKeeps(cfg: Config, s: Domain, t: Domain, ok: bool)
    requires Inv(cfg, s) && ReleaseRel(s, t, ok)
    requires s.Now() == Some(HeaderVerified) || s.Now() == Some(VerifiedRetained)
    ensures Inv(cfg, t)
  {
    hide IsSnapshot;
    if ok { Extend(s.trail, DomainReleased); }
    assert t.acl == Granted(s.acl, s.drawn) ==> t.acl[ScenarioUser] == {s.drawn};
    assert ScenarioConnected(t) <==> ScenarioConnected(s);
  }

  lemma CreateKeeps(cfg: Config, s: Domain, t: Domain, ok: bool)
    requires Inv(cfg, s) && CreateRel(cfg, s, t, ok)
    ensures Inv(cfg, t)
  {
    hide IsSnapshot, Excluded;
    if t != s { StartupLegal(t.trail); }
  }

  lemma ActivateTrail(cfg: Config, s: Domain, t: Domain, toPrepared: bool, ok: bool)
    requires Legal(s.trail) && ActivateRel(cfg, s, t, toPrepared, ok)
    requires s.Now() == Some(WritersIsolated) && s.attempts == 0
    ensures Legal(t.trail) && t.Now() != Some(Quiescent) && t.Now() != Some(VerifiedRetained)
    ensures t.acl != s.acl ==> t.Now() in {Some(HeaderVerified), Some(DomainReleased), Some(Hold)}
  {
    hide Activated, Excluded;
    if ok {
      assert ACTIVATION[..4] == ACTIVATION;
      ActivationLegal(s.trail, 4);
      if !toPrepared { Extend(s.trail + ACTIVATION, DomainReleased); }
    } else {
      var k :| 0 <= k <= 4 && BrokenOff(s.trail, t.trail, k);
      ActivationLegal(s.trail, k);
      if t.trail == s.trail + ACTIVATION[..k] + [Hold] { Extend(s.trail + ACTIVATION[..k], Hold); }
    }
  }

  lemma ActivateKeeps(cfg: Config, s: Domain, t: Domain, toPrepared: bool, ok: bool)
    requires Inv(cfg, s) && ActivateRel(cfg, s, t, toPrepared, ok)
    ensures Inv(cfg, t)
  {
    hide IsSnapshot, Activated, Excluded, OwnersOf;
    if s.Now() == Some(WritersIsolated) && s.attempts == 0 {
      ActivateTrail(cfg, s, t, toPrepared, ok);
      assert ScenarioConnected(t) <==> ScenarioConnected(s);
      assert t.acl != s.acl ==> t.acl[ScenarioUser] == {s.drawn};
    }
  }

  lemma QuiesceExcludes(cfg: Config, s: Domain, t: Domain, q: QuiesceSteps)
    requires QuiesceRel(cfg, s, t, q, true)
    ensures ScenarioUser !in t.acl
  {
    hide IsSnapshot, OwnersOf, ValidateHeader, Bijective;
  }

  lemma RevokeKeeps(s: Domain, t: Domain)
    requires OnePassword(s) && RevokeOrNot(s, t) && t.drawn == s.drawn
    ensures OnePassword(t)
  {
    if t.acl == s.acl && t.clients == s.clients {
      assert ScenarioConnected(t) <==> ScenarioConnected(s);
    }
  }

  lemma QuiesceKeeps(cfg: Config, s: Domain, t: Domain, q: QuiesceSteps, ok: bool)
    requires Inv(cfg, s) && QuiesceRel(cfg, s, t, q, ok)
    ensures Inv(cfg, t)
  {
    hide IsSnapshot, Proven, OwnersOf;
    if s.Now() == Some(DomainReleased) {
      RevokeKeeps(s, t);
      if ok { QuiesceExcludes(cfg, s, t, q); }
      if t.trail == s.trail + [Hold] { Extend(s.trail, Hold); }
      if t.trail == s.trail + [Quiescent] || t.trail == s.trail + [Quiescent] + [Hold] { Extend(s.trail, Quiescent); }
      if t.trail == s.trail + [Quiescent] + [Hold] { Extend(s.trail + [Quiescent], Hold); }
    }
  }

  lemma VerifyKeeps(cfg: Config, s: Domain, t: Domain, ok: bool)
    requires Inv(cfg, s) && VerifyRel(cfg, s, t, ok)
    ensures Inv(cfg, t)
  {
    hide IsSnapshot, Proven, OwnersOf;
    if ok {
      Extend(s.trail, VerifiedRetained);
      assert ScenarioConnected(t) <==> ScenarioConnected(s);
    }
  }

  lemma WorldKeeps(cfg: Config, s: Domain, t: Domain)
    requires Inv(cfg, s) && (ConnectRel(s, t) || WriteRel(s, t) || Expired(s, t))
    ensures Inv(cfg, t)
  {
    hide IsSnapshot, OwnersOf;
    if ScenarioConnected(t) {
      var c :| c in t.clients && t.clients[c] == ScenarioUser;
      assert ScenarioConnected(s) || ScenarioUser in s.acl;
    }
  }

  lemma ResumeKeeps(cfg: Config, s: Domain, t: Domain, ok: bool)
    requires Inv(cfg, s) && ResumeRel(cfg, s, t, ok)
    ensures Inv(cfg, t)
  {
    hide IsSnapshot, Proven, OwnersOf, Inv;
    if t != s {
      var m, n :| VerifyRel(cfg, s, m, true) && Expired(m, n) && ReleaseRel(n, t, ok);
      VerifyKeeps(cfg, s, m, true);
      WorldKeeps(cfg, m, n);
      ReleaseKeeps(cfg, n, t, ok);
    }
  }

  lemma IssueKeeps(cfg: Config, s: Domain, t: Domain, ok: bool)
    requires Inv(cfg, s) && IssueRel(cfg, s, t, ok)
    ensures Inv(cfg, t)
  {
    hide IsSnapshot, OwnersOf, Excluded;
    if !(t == s && !ok) {
      var m := s.(issued := true);
      assert ScenarioConnected(m) <==> ScenarioConnected(s);
      ReleaseKeeps(cfg, m, t, ok);
    }
  }

  lemma AbortKeeps(cfg: Config, s: Domain, t: Domain, ok: bool)
    requires Inv(cfg, s) && AbortRel(s, t, ok)
    ensures Inv(cfg, t)
  {
    hide IsSnapshot, OwnersOf;
    if s.Now() != Some(Disposed) && s.owned {
      if !Gone(t) { RevokeKeeps(s, t); }
      Extend(s.trail, Hold);
      if t.trail == s.trail + [Hold] + [Hold] { Extend(s.trail + [Hold], Hold); }
      if t.trail == s.trail + [Hold] + [Disposed] { Extend(s.trail + [Hold], Disposed); }
    }
  }

  lemma TeardownKeeps(cfg: Config, s: Domain, t: Domain, ok: bool)
    requires Inv(cfg, s) && TeardownRel(s, t, ok) && s.Now() != Some(Disposed) && s.Now() != Some(DomainReleased)
    ensures Inv(cfg, t)
  {
    hide IsSnapshot, OwnersOf;
    if ok { Extend(s.trail, Disposed); }
    if !Gone(t) { assert ScenarioConnected(t) <==> ScenarioConnected(s); }
  }

  lemma QuiesceEnds(cfg: Config, s: Domain, t: Domain, q: QuiesceSteps)
    requires QuiesceRel(cfg, s, t, q, true)
    ensures t.Now() == Some(Quiescent) && s.Now() == Some(DomainReleased)
    ensures t == s.(trail := s.trail + [Quiescent], acl := t.acl, clients := t.clients,
                    checkpoint := t.checkpoint, quiesced := t.quiesced, floor := t.floor)
  {
    hide IsSnapshot, OwnersOf, Proven;
  }

  lemma DisposeKeeps(cfg: Config, s: Domain, t: Domain, q: QuiesceSteps, ok: bool)
    requires Inv(cfg, s) && DisposeRel(cfg, s, t, q, ok)
    ensures Inv(cfg, t)
  {
    hide IsSnapshot, OwnersOf, Inv, QuiesceRel, TeardownRel;
    if s.Now() == Some(DomainReleased) {
      if QuiesceRel(cfg, s, t, q, false) && !ok {
        QuiesceKeeps(cfg, s, t, q, false);
      } else {
        var m :| QuiesceRel(cfg, s, m, q, true) && TeardownRel(m, t, ok);
        QuiesceKeeps(cfg, s, m, q, true);
        QuiesceEnds(cfg, s, m, q);
        TeardownKeeps(cfg, m, t, ok);
      }
    } else if s.Now() != Some(Disposed) {
      TeardownKeeps(cfg, s, t, ok);
    }
  }

  lemma HoldKeeps(cfg: Config, s: Domain, t: Domain)
    requires Inv(cfg, s) && HoldRel(s, t)
    ensures Inv(cfg, t)
  {
    hide IsSnapshot, OwnersOf;
    Extend(s.trail, Hold);
    assert ScenarioConnected(t) <==> ScenarioConnected(s);
  }

  lemma StepKeeps(cfg: Config, l: Label, s: Domain, t: Domain)
    requires Inv(cfg, s) && Step(cfg, l, s, t)
    ensures Inv(cfg, t)
  {
    hide IsSnapshot, OwnersOf, CreateRel, ActivateRel, IssueRel, QuiesceRel, VerifyRel, ResumeRel, AbortRel, DisposeRel;
    hide Legal, OnePassword, CheckpointSound, ConnectRel, WriteRel, Expired;
    match l
    case DoCreate(ok) => CreateKeeps(cfg, s, t, ok);
    case DoActivate(p, ok) => ActivateKeeps(cfg, s, t, p, ok);
    case DoIssue(ok) => IssueKeeps(cfg, s, t, ok);
    case DoQuiesce(q, ok) => QuiesceKeeps(cfg, s, t, q, ok);
    case DoVerify(ok) => VerifyKeeps(cfg, s, t, ok);
    case DoResume(ok) => ResumeKeeps(cfg, s, t, ok);
    case DoAbort(ok) => AbortKeeps(cfg, s, t, ok);
    case DoDispose(q, ok) => DisposeKeeps(cfg, s, t, q, ok);
    case DoHold => HoldKeeps(cfg, s, t);
    case Connect => WorldKeeps(cfg, s, t);
    case Write => WorldKeeps(cfg, s, t);
    case Expire => WorldKeeps(cfg, s, t);
  }

  lemma {:induction false} RunKeeps(cfg: Config, r: Run, n: nat)
    requires IsRun(cfg, r) && n < |r.states|
    ensures Inv(cfg, r.states[n])
  {
    hide Step, IsSnapshot, OwnersOf;
    if n == 0 {
      assert r.states[0] == INITIAL;
    } else {
      RunKeeps(cfg, r, n - 1);
      StepKeeps(cfg, r.labels[n - 1], r.states[n - 1], r.states[n]);
    }
  }

  // ----- what every step does to the phase trail, the passwords and the owner floor

  ghost function Accepted(s: Domain): set<Secret> {
    if ScenarioUser in s.acl then s.acl[ScenarioUser] else {}
  }

  ghost predicate Forward(s: Domain, t: Domain) {
    && s.trail <= t.trail
    && s.drawn <= t.drawn && (forall p :: p in Accepted(t) ==> p in Accepted(s) || p >= s.drawn)
    && FloorKept(s.floor, t.floor)
  }

  lemma ForwardCompose(s: Domain, m: Domain, t: Domain)
    requires Forward(s, m) && Forward(m, t)
    ensures Forward(s, t)
  { }

  lemma ReleaseForward(s: Domain, t: Domain, ok: bool)
    requires ReleaseRel(s, t, ok)
    ensures Forward(s, t)
  { }

  lemma ActivateForward(cfg: Config, s: Domain, t: Domain, p: bool, ok: bool)
    requires ActivateRel(cfg, s, t, p, ok)
    ensures Forward(s, t)
  {
    hide Activated, Excluded;
  }

  lemma QuiesceForward(cfg: Config, s: Domain, t: Domain, q: QuiesceSteps, ok: bool)
    requires QuiesceRel(cfg, s, t, q, ok)
    ensures Forward(s, t)
  {
    hide IsSnapshot, Excluded, ValidateHeader;
  }

  lemma AbortForward(s: Domain, t: Domain, ok: bool)
    requires AbortRel(s, t, ok)
    ensures Forward(s, t)
  { }

  lemma TeardownForward(s: Domain, t: Domain, ok: bool)
    requires TeardownRel(s, t, ok)
    ensures Forward(s, t)
  { }

  lemma ResumeForward(cfg: Config, s: Domain, t: Domain, ok: bool)
    requires ResumeRel(cfg, s, t, ok)
    ensures Forward(s, t)
  {
    hide IsSnapshot, Proven;
    if t != s {
      var m, n :| VerifyRel(cfg, s, m, true) && Expired(m, n) && ReleaseRel(n, t, ok);
      ReleaseForward(n, t, ok);
    }
  }

  lemma DisposeForward(cfg: Config, s: Domain, t: Domain, q: QuiesceSteps, ok: bool)
    requires DisposeRel(cfg, s, t, q, ok)
    ensures Forward(s, t)
  {
    hide QuiesceRel, TeardownRel;
    if s.Now() == Some(DomainReleased) {
      if QuiesceRel(cfg, s, t, q, false) && !ok {
        QuiesceForward(cfg, s, t, q, false);
      } else {
        var m :| QuiesceRel(cfg, s, m, q, true) && TeardownRel(m, t, ok);
        QuiesceForward(cfg, s, m, q, true);
        TeardownForward(m, t, ok);
        ForwardCompose(s, m, t);
      }
    } else if s.Now() != Some(Disposed) {
      TeardownForward(s, t, ok);
    }
  }

  lemma CreateForward(cfg: Config, s: Domain, t: Domain, ok: bool)
    requires CreateRel(cfg, s, t, ok)
    ensures Forward(s, t)
  {
    hide Excluded;
  }

  lemma IssueForward(cfg: Config, s: Domain, t: Domain, ok: bool)
    requires IssueRel(cfg, s, t, ok)
    ensures Forward(s, t)
  {
    hide IsSnapshot, Excluded;
    if t != s { ReleaseForward(s.(issued := true), t, ok); }
  }

  lemma SameAccessForward(s: Domain, t: Domain)
    requires s.trail <= t.trail && t.acl == s.acl && t.drawn == s.drawn && t.floor == s.floor
    ensures Forward(s, t)
  { }

  lemma StepForward(cfg: Config, l: Label, s: Domain, t: Domain)
    requires Step(cfg, l, s, t)
    ensures Forward(s, t)
  {
    hide IsSnapshot, Proven, Excluded, CreateRel, IssueRel, ActivateRel, QuiesceRel, ResumeRel, AbortRel, DisposeRel;
    hide Forward, Expires;
    match l
    case DoCreate(ok) => CreateForward(cfg, s, t, ok);
    case DoActivate(p, ok) => ActivateForward(cfg, s, t, p, ok);
    case DoIssue(ok) => IssueForward(cfg, s, t, ok);
    case DoQuiesce(q, ok) => QuiesceForward(cfg, s, t, q, ok);
    case DoResume(ok) => ResumeForward(cfg, s, t, ok);
    case DoAbort(ok) => AbortForward(s, t, ok);
    case DoDispose(q, ok) => DisposeForward(cfg, s, t, q, ok);
    case _ => SameAccessForward(s, t);
  }

  lemma {:induction false} RunForward(cfg: Config, r: Run, i: nat, j: nat)
    requires IsRun(cfg, r) && i <= j < |r.states|
    ensures Forward(r.states[i], r.states[j])
    decreases j
  {
    hide Step;
    if i < j {
      RunForward(cfg, r, i, j - 1);
      StepForward(cfg, r.labels[j - 1], r.states[j - 1], r.states[j]);
      ForwardCompose(r.states[i], r.states[j - 1], r.states[j]);
    }
  }

  // ----- phases: the linear prefix, the retained cycle, HOLD and DISPOSED

  lemma {:induction false} HoldSticks(trail: seq<Phase>, i: nat, j: nat)
    requires Legal(trail) && i <= j < |trail|
    ensures trail[i] == Hold ==> trail[j] == Hold || trail[j] == Disposed
    ensures trail[i] == Disposed ==> i == |trail| - 1
  {
    if i < j {
      HoldSticks(trail, i, j - 1);
      assert Edge(trail[j - 1], trail[j]);
    }
    assert i < |trail| - 1 ==> Edge(trail[i], trail[i + 1]);
  }

  /** In every run the phases entered follow the lifecycle graph, the activation API is called at
      most once, HOLD leads only to HOLD or DISPOSED, and DISPOSED is final. */
  lemma LifecycleSafety(cfg: Config, r: Run, i: nat, j: nat)
    requires IsRun(cfg, r) && i <= j < |r.states|
    ensures Legal(r.states[j].trail) && r.states[i].trail <= r.states[j].trail
    ensures r.states[j].apiCalls <= 1 && r.states[j].attempts <= 1
    ensures r.states[i].Now() == Some(Hold) ==> r.states[j].Now() in {Some(Hold), Some(Disposed)}
    ensures r.states[i].Now() == Some(Disposed) ==> r.states[j].trail == r.states[i].trail
  {
    hide Step, IsSnapshot, OwnersOf;
    RunKeeps(cfg, r, j);
    RunForward(cfg, r, i, j);
    var a, b := r.states[i].trail, r.states[j].trail;
    if a != [] {
      assert a[|a| - 1] == b[|a| - 1];
      HoldSticks(b, |a| - 1, |b| - 1);
    }
  }

  lemma ResumeCallsNothing(cfg: Config, s: Domain, t: Domain, ok: bool)
    requires ResumeRel(cfg, s, t, ok)
    ensures t.apiCalls == s.apiCalls
  {
    hide IsSnapshot, Proven;
  }

  lemma QuiesceCallsNothing(cfg: Config, s: Domain, t: Domain, q: QuiesceSteps, ok: bool)
    requires QuiesceRel(cfg, s, t, q, ok)
    ensures t.apiCalls == s.apiCalls
  {
    hide RevokeOrNot, Checkpointed, OwnersOf;
  }

  lemma DisposeCallsNothing(cfg: Config, s: Domain, t: Domain, q: QuiesceSteps, ok: bool)
    requires DisposeRel(cfg, s, t, q, ok)
    ensures t.apiCalls == s.apiCalls
  {
    hide QuiesceRel;
    if s.Now() == Some(DomainReleased) {
      if QuiesceRel(cfg, s, t, q, false) && !ok {
        QuiesceCallsNothing(cfg, s, t, q, false);
      } else {
        var m :| QuiesceRel(cfg, s, m, q, true) && TeardownRel(m, t, ok);
        QuiesceCallsNothing(cfg, s, m, q, true);
      }
    }
  }

  lemma IssueCallsNothing(cfg: Config, s: Domain, t: Domain, ok: bool)
    requires IssueRel(cfg, s, t, ok)
    ensures t.apiCalls == s.apiCalls
  {
    hide IsSnapshot, Excluded;
  }

  lemma AbortCallsNothing(s: Domain, t: Domain, ok: bool)
    requires AbortRel(s, t, ok)
    ensures t.apiCalls == s.apiCalls
  {
    hide RevokeOrNot, Gone;
  }

  lemma ActivateCallsWhenEmpty(cfg: Config, s: Domain, t: Domain, p: bool, ok: bool)
    requires ActivateRel(cfg, s, t, p, ok)
    ensures t.apiCalls != s.apiCalls ==> s.db == map[] && Excluded(cfg, s.acl, s.clients)
  {
    hide Activated, Excluded;
  }

  lemma ActivationWhenExcluded(cfg: Config, r: Run, i: nat)
    requires IsRun(cfg, r) && i < |r.labels|
    ensures r.states[i + 1].apiCalls != r.states[i].apiCalls ==>
      r.labels[i].DoActivate? && r.states[i].db == map[] && Excluded(cfg, r.states[i].acl, r.states[i].clients)
  {
    hide IsSnapshot, Proven, OwnersOf, Excluded, IssueRel, ActivateRel, QuiesceRel, ResumeRel, AbortRel, DisposeRel;
    hide Expires;
    var s, t := r.states[i], r.states[i + 1];
    assert Step(cfg, r.labels[i], s, t);
    match r.labels[i]
    case DoActivate(p, ok) => ActivateCallsWhenEmpty(cfg, s, t, p, ok);
    case DoIssue(ok) => IssueCallsNothing(cfg, s, t, ok);
    case DoQuiesce(q, ok) => QuiesceCallsNothing(cfg, s, t, q, ok);
    case DoResume(ok) => ResumeCallsNothing(cfg, s, t, ok);
    case DoAbort(ok) => AbortCallsNothing(s, t, ok);
    case DoDispose(q, ok) => DisposeCallsNothing(cfg, s, t, q, ok);
    case _ =>
  }

  // Two users, the default one without a password and the creator with his own, and one client, his.
  ghost predicate OnlyCreator(cfg: Config, s: Domain) {
    && (forall u :: u in s.acl <==> u == DefaultUser || u == OwnerUser)
    && s.acl[DefaultUser] == {} && s.acl[OwnerUser] == {cfg.ownerSecret}
    && (forall c :: c in s.clients <==> c == cfg.ownerClient) && s.clients[cfg.ownerClient] == OwnerUser
  }

  lemma ExclusionMeans(cfg: Config, s: Domain)
    ensures Excluded(cfg, s.acl, s.clients) <==> OnlyCreator(cfg, s)
  {
    if OnlyCreator(cfg, s) {
      assert s.acl.Keys == {DefaultUser, OwnerUser};
      assert s.clients == map[cfg.ownerClient := OwnerUser];
    }
  }

  /** The activation API is called only on a database that holds nothing at all, with the creator as the
      only user and the only client. */
  lemma ActivationNeedsEmptyDomain(cfg: Config, r: Run, i: nat)
    requires IsRun(cfg, r) && i < |r.labels|
    ensures r.states[i + 1].apiCalls != r.states[i].apiCalls ==>
      r.labels[i].DoActivate? && r.states[i].db == map[] && OnlyCreator(cfg, r.states[i])
  {
    hide Step, Excluded, OnlyCreator;
    ActivationWhenExcluded(cfg, r, i);
    ExclusionMeans(cfg, r.states[i]);
  }

  lemma CreatorAlone(cfg: Config, l: Label, s: Domain, t: Domain)
    requires Step(cfg, l, s, t)
    ensures l == DoCreate(true) || (l.DoQuiesce? && l.ok) ==> Excluded(cfg, t.acl, t.clients)
    ensures l in {DoVerify(true), DoResume(true), DoIssue(true)} ==> Excluded(cfg, s.acl, s.clients)
  {
    hide IsSnapshot, OwnersOf, ValidateHeader, Bijective, Excluded, ActivateRel, AbortRel, DisposeRel, WithoutUser;
    hide Expires, ConnectRel, WriteRel, Granted;
    match l
    case DoCreate(ok) => if ok { assert s.trail == []; }
    case _ =>
  }

  /** The creator is alone when start-up ends, when a checkpoint is taken, whenever a retained database is
      verified, and when a prepared one is released. */
  lemma CreatorIsAlone(cfg: Config, r: Run, i: nat)
    requires IsRun(cfg, r) && i < |r.labels|
    ensures r.labels[i] == DoCreate(true) || (r.labels[i].DoQuiesce? && r.labels[i].ok) ==>
      OnlyCreator(cfg, r.states[i + 1])
    ensures r.labels[i] in {DoVerify(true), DoResume(true), DoIssue(true)} ==> OnlyCreator(cfg, r.states[i])
  {
    hide OnlyCreator, Excluded;
    var s, t := r.states[i], r.states[i + 1];
    assert Step(cfg, r.labels[i], s, t);
    ExclusionMeans(cfg, s);
    ExclusionMeans(cfg, t);
    CreatorAlone(cfg, r.labels[i], s, t);
  }

  // ----- an interrupted release

  ghost predicate Interrupted(s: Domain) {
    ScenarioUser in s.acl && s.Now() != Some(DomainReleased)
  }

  predicate EndsDomain(l: Label) { l.DoAbort? || l.DoDispose? || l.DoHold? }

  predicate Succeeded(l: Label) {
    match l
    case DoHold => false
    case Connect => false
    case Write => false
    case Expire => false
    case _ => l.ok
  }

  lemma InterruptedStep(cfg: Config, l: Label, s: Domain, t: Domain)
    requires Inv(cfg, s) && Interrupted(s) && Step(cfg, l, s, t) && !EndsDomain(l)
    ensures Interrupted(t) && t.trail == s.trail && !Succeeded(l)
  {
    hide IsSnapshot, OwnersOf, CheckpointSound;
    assert !Excluded(cfg, s.acl, s.clients);
    match l
    case DoCreate(ok) => assert s.trail != [];
    case _ =>
  }

  /** A release cut short after ACL SETUSER is never seen as released: until an abort or a disposal
      no operation succeeds, no phase is entered and the state stays interrupted. */
  lemma {:induction false} InterruptedReleaseStays(cfg: Config, r: Run, i: nat, j: nat)
    requires IsRun(cfg, r) && i <= j < |r.states| && Interrupted(r.states[i])
    requires forall k :: i <= k < j ==> !EndsDomain(r.labels[k])
    ensures Interrupted(r.states[j]) && r.states[j].trail == r.states[i].trail
    ensures forall k :: i <= k < j ==> !Succeeded(r.labels[k])
    decreases j
  {
    hide Step, IsSnapshot, OwnersOf, Interrupted, Inv;
    if i < j {
      InterruptedReleaseStays(cfg, r, i, j - 1);
      RunKeeps(cfg, r, j - 1);
      InterruptedStep(cfg, r.labels[j - 1], r.states[j - 1], r.states[j]);
    }
  }

  // ----- scenario passwords

  /** At most one scenario password is accepted at any time. */
  lemma AtMostOnePassword(cfg: Config, r: Run, n: nat)
    requires IsRun(cfg, r) && n < |r.states|
    ensures |Accepted(r.states[n])| <= 1
  {
    hide Step, IsSnapshot, OwnersOf;
    RunKeeps(cfg, r, n);
  }

  /** A password that has stopped being accepted is never accepted again. */
  lemma PasswordSafety(cfg: Config, r: Run, i: nat, j: nat, k: nat, p: Secret)
    requires IsRun(cfg, r) && i <= j <= k < |r.states|
    requires p in Accepted(r.states[i]) && p !in Accepted(r.states[j])
    ensures p !in Accepted(r.states[k])
  {
    hide Step, IsSnapshot, OwnersOf;
    RunKeeps(cfg, r, i);
    RunForward(cfg, r, i, j);
    RunForward(cfg, r, j, k);
  }

  // ----- checkpointed owners

  /** Over any number of release, quiesce and resume cycles the checkpointed owners only grow, and no
      owner's value is rewritten. */
  lemma OwnerFloorOnlyGrows(cfg: Config, r: Run, i: nat, j: nat)
    requires IsRun(cfg, r) && i <= j < |r.states|
    ensures forall task :: task in r.states[i].floor ==>
      task in r.states[j].floor && r.states[j].floor[task] == r.states[i].floor[task]
  {
    hide Step;
    RunForward(cfg, r, i, j);
  }

  // ----- resuming from a checkpoint

  ghost predicate Retained(s: Domain) {
    s.Now() == Some(Quiescent) || s.Now() == Some(VerifiedRetained)
  }

  ghost predicate KeepsCheckpoint(s: Domain, t: Domain) {
    Retained(t) ==>
      || (s.Now() == Some(DomainReleased) && t.Now() == Some(Quiescent) && t.quiesced == t.db)
      || (Retained(s) && t.quiesced == s.quiesced)
  }

  lemma ActivateCheckpoint(cfg: Config, s: Domain, t: Domain, p: bool, ok: bool)
    requires Legal(s.trail) && ActivateRel(cfg, s, t, p, ok)
    ensures KeepsCheckpoint(s, t)
  {
    hide Activated, Excluded;
    if s.Now() == Some(WritersIsolated) && s.attempts == 0 { ActivateTrail(cfg, s, t, p, ok); }
  }

  lemma QuiesceCheckpoint(cfg: Config, s: Domain, t: Domain, q: QuiesceSteps, ok: bool)
    requires QuiesceRel(cfg, s, t, q, ok)
    ensures KeepsCheckpoint(s, t)
  {
    hide IsSnapshot, Proven, OwnersOf;
  }

  lemma ResumeCheckpoint(cfg: Config, s: Domain, t: Domain, ok: bool)
    requires ResumeRel(cfg, s, t, ok)
    ensures KeepsCheckpoint(s, t)
  {
    hide IsSnapshot, Proven, OwnersOf;
    if t != s { var m, n :| VerifyRel(cfg, s, m, true) && Expired(m, n) && ReleaseRel(n, t, ok); }
  }

  lemma DisposeCheckpoint(cfg: Config, s: Domain, t: Domain, q: QuiesceSteps, ok: bool)
    requires DisposeRel(cfg, s, t, q, ok)
    ensures KeepsCheckpoint(s, t)
  {
    hide IsSnapshot, Proven, OwnersOf;
    if s.Now() == Some(DomainReleased) {
      if QuiesceRel(cfg, s, t, q, false) && !ok {
        QuiesceCheckpoint(cfg, s, t, q, false);
      } else {
        var m :| QuiesceRel(cfg, s, m, q, true) && TeardownRel(m, t, ok);
      }
    }
  }

  lemma RetainedStep(cfg: Config, l: Label, s: Domain, t: Domain)
    requires Legal(s.trail) && Step(cfg, l, s, t)
    ensures KeepsCheckpoint(s, t)
  {
    hide IsSnapshot, OwnersOf, Proven, Excluded, Legal, ActivateRel, QuiesceRel, ResumeRel, DisposeRel;
    match l
    case DoActivate(p, ok) => ActivateCheckpoint(cfg, s, t, p, ok);
    case DoQuiesce(q, ok) => QuiesceCheckpoint(cfg, s, t, q, ok);
    case DoResume(ok) => ResumeCheckpoint(cfg, s, t, ok);
    case DoDispose(q, ok) => DisposeCheckpoint(cfg, s, t, q, ok);
    case _ =>
  }

  ghost predicate LastQuiesce(r: Run, j: nat, n: nat) {
    && j < n < |r.states|
    && r.states[j].Now() == Some(DomainReleased) && r.states[j + 1].Now() == Some(Quiescent)
    && forall k :: j < k <= n ==> Retained(r.states[k])
  }

  lemma {:induction false} CheckpointOrigin(cfg: Config, r: Run, n: nat) returns (j: nat)
    requires IsRun(cfg, r) && n < |r.states| && Retained(r.states[n])
    ensures LastQuiesce(r, j, n) && r.states[n].quiesced == r.states[j + 1].db
  {
    hide Step, IsSnapshot, OwnersOf;
    if n == 0 {
      assert false;
    } else {
      RunKeeps(cfg, r, n - 1);
      RetainedStep(cfg, r.labels[n - 1], r.states[n - 1], r.states[n]);
      if Retained(r.states[n - 1]) && r.states[n].quiesced == r.states[n - 1].quiesced {
        j := CheckpointOrigin(cfg, r, n - 1);
      } else {
        j := n - 1;
      }
    }
  }

  lemma ResumeComparesCheckpoint(cfg: Config, s: Domain, t: Domain)
    requires ResumeRel(cfg, s, t, true)
    ensures Retained(s) && s.checkpoint.Some? && IsSnapshot(cfg.order, s.db, s.checkpoint.value)
    ensures Expires(s.db, t.db)
  {
    hide IsSnapshot, Proven, Expires;
    var m, n :| VerifyRel(cfg, s, m, true) && Expired(m, n) && ReleaseRel(n, t, true);
  }

  ghost predicate SameOrExpired(now: Database, e: Entry, k: string) {
    if k in now then SameValue(now[k].value, e.value) && now[k].expiry == e.expiry else e.expiry >= 0
  }

  // Equal, idle times aside, except for keys whose deadline has passed.
  ghost predicate SameButExpired(now: Database, before: Database) {
    && now.Keys <= before.Keys
    && forall k :: k in before ==> SameOrExpired(now, before[k], k)
  }

  ghost predicate Persistent(db: Database) { forall k :: k in db ==> db[k].expiry < 0 }

  lemma ExpiredFromSame(now: Database, mid: Database, before: Database)
    requires Expires(mid, now) && SameDatabase(mid, before)
    ensures SameButExpired(now, before)
    ensures SameDatabase(now, before) <==> now.Keys == before.Keys
    ensures Persistent(before) ==> SameDatabase(now, before)
  {
    hide SameValue;
    forall k | k in before ensures SameOrExpired(now, before[k], k) { assert k in mid; }
    if Persistent(before) {
      forall k | k in before ensures k in now { assert SameOrExpired(now, before[k], k); }
    }
    if now.Keys == before.Keys {
      forall k | k in now
        ensures SameValue(now[k].value, before[k].value) && now[k].expiry == before[k].expiry
      {
        assert SameOrExpired(now, before[k], k);
      }
    }
  }

  /** At every successful resume the database is what it was at the last quiesce, idle times aside:
      every persistent key is unchanged, a key with a deadline is unchanged or gone, and there is no
      other key. It is the same database exactly when no key has expired meanwhile. */
  lemma ResumeRestoresCheckpoint(cfg: Config, r: Run, n: nat) returns (j: nat)
    requires IsRun(cfg, r) && n < |r.labels| && r.labels[n] == DoResume(true) && cfg.order.Valid()
    ensures LastQuiesce(r, j, n) && SameButExpired(r.states[n + 1].db, r.states[j + 1].db)
    ensures SameDatabase(r.states[n + 1].db, r.states[j + 1].db) <==> r.states[n + 1].db.Keys == r.states[j + 1].db.Keys
    ensures Persistent(r.states[j + 1].db) ==> SameDatabase(r.states[n + 1].db, r.states[j + 1].db)
  {
    hide IsSnapshot, OwnersOf, ResumeRel, SameDatabase, Expires, SameButExpired, Persistent;
    var s, t := r.states[n], r.states[n + 1];
    assert Step(cfg, r.labels[n], s, t);
    ResumeComparesCheckpoint(cfg, s, t);
    RunKeeps(cfg, r, n);
    j := CheckpointOrigin(cfg, r, n);
    SnapshotsEqualExactly(cfg.order, s.db, s.checkpoint.value, s.quiesced, s.checkpoint.value);
    ExpiredFromSame(t.db, s.db, s.quiesced);
  }

  /** Where verification succeeds, every successful resume keeps the database if and only if none of its
      keys has a deadline: one that has may expire between the comparison and the release. */
  lemma ResumeKeepsDatabaseExactly(cfg: Config, s: Domain, m: Domain)
    requires VerifyRel(cfg, s, m, true)
    ensures (forall t :: ResumeRel(cfg, s, t, true) ==> t.db == s.db) <==> Persistent(s.db)
  {
    hide Proven, IsSnapshot;
    if Persistent(s.db) {
      forall t | ResumeRel(cfg, s, t, true) ensures t.db == s.db {
        ResumeComparesCheckpoint(cfg, s, t);
        assert t.db.Keys == s.db.Keys;
      }
    } else {
      var k :| k in s.db && s.db[k].expiry >= 0;
      var n := m.(db := s.db - {k});
      var t := n.(trail := n.trail + [DomainReleased], acl := Granted(n.acl, n.drawn), drawn := n.drawn + 1);
      assert Expired(m, n) && ReleaseRel(n, t, true);
      assert ResumeRel(cfg, s, t, true) && k !in t.db;
    }
  }

  // ----- a quiesce that fails early

  /** A failed quiesce leaves DOMAIN_RELEASED exactly when a step before its protected block failed. */
  lemma FailedQuiesceStaysReleased(cfg: Config, s: Domain, t: Domain, q: QuiesceSteps)
    requires QuiesceRel(cfg, s, t, q, false) && s.Now() == Some(DomainReleased)
    ensures t.Now() == Some(DomainReleased) <==> !Enters(q)
    ensures t.Now() == Some(DomainReleased) ==>
      (ScenarioUser in t.acl <==> q.revoked == NotApplied && ScenarioUser in s.acl)
  {
    hide Proven, IsSnapshot, OwnersOf, WithoutUser;
  }

  // Created, and then released with a fresh header.
  ghost function Isolated(cfg: Config): Domain {
    INITIAL.(trail := STARTUP, started := true, owned := true,
             acl := map[DefaultUser := {}, OwnerUser := {cfg.ownerSecret}],
             clients := map[cfg.ownerClient := OwnerUser])
  }

  ghost function FirstRelease(cfg: Config): Domain {
    var header := map["owner_count" := "0"];
    Isolated(cfg).(trail := STARTUP + ACTIVATION + [DomainReleased], attempts := 1, apiCalls := 1,
                   db := map[HEADER := Entry(HashV(header), -1)], header := Some(header),
                   acl := Granted(Isolated(cfg).acl, 0), drawn := 1)
  }

  lemma IsolatedByCreate(cfg: Config)
    ensures CreateRel(cfg, INITIAL, Isolated(cfg), true)
  {
    assert Isolated(cfg).acl.Keys == {DefaultUser, OwnerUser};
  }

  lemma FreshHeaderIsValid(cfg: Config)
    ensures ValidateHeader(FirstRelease(cfg).db, FirstRelease(cfg).header.value, true)
    ensures FirstRelease(cfg).db.Keys == {HEADER}
  {
    var db := FirstRelease(cfg).db;
    assert CountText(db) == "0";
    assert Decimal("0") == 10 * Decimal("") + 0;
  }

  lemma FirstReleaseActivates(cfg: Config)
    ensures ActivateRel(cfg, Isolated(cfg), FirstRelease(cfg), false, true)
  {
    hide ValidateHeader;
    FreshHeaderIsValid(cfg);
    var s, t := Isolated(cfg), FirstRelease(cfg);
    assert s.acl.Keys == {DefaultUser, OwnerUser};
    assert s.trail + ACTIVATION <= t.trail;
  }

  /** It does happen: the revocation takes effect and its receipt fails. The scenario user is gone, yet
      the phase is still DOMAIN_RELEASED and the client is given. */
  lemma RevokedYetReleased(cfg: Config) returns (r: Run)
    ensures IsRun(cfg, r) && |r.states| == 4 && r.labels[2] == DoQuiesce(QuiesceSteps(Answered, false, true), false)
    ensures ScenarioUser in r.states[2].acl && ScenarioUser !in r.states[3].acl && ClientGiven(r.states[3], true)
  {
    hide ActivateRel;
    var q := QuiesceSteps(Answered, false, true);
    var s := FirstRelease(cfg);
    var t := s.(acl := s.acl - {ScenarioUser}, clients := WithoutUser(s.clients, ScenarioUser));
    FirstReleaseActivates(cfg);
    r := Run([INITIAL, Isolated(cfg), s, t], [DoCreate(true), DoActivate(false, true), DoQuiesce(q, false)]);
    assert Step(cfg, r.labels[0], r.states[0], r.states[1]) by { IsolatedByCreate(cfg); }
    assert Step(cfg, r.labels[1], r.states[1], r.states[2]);
    assert Step(cfg, r.labels[2], r.states[2], r.states[3]);
  }

  // ----- a key that expires inside a resume

  const SESSION := "session"

  // The scenario connected and wrote one string with a deadline.
  ghost function Written(cfg: Config): Domain {
    var s := FirstRelease(cfg);
    s.(clients := s.clients[cfg.ownerClient + 1 := ScenarioUser], db := s.db[SESSION := Entry(StrV("x"), 60)])
  }

  ghost function QuiescedWith(cfg: Config, rows: seq<Row>): Domain {
    var s := Written(cfg);
    s.(trail := s.trail + [Quiescent], acl := s.acl - {ScenarioUser}, clients := WithoutUser(s.clients, ScenarioUser),
       checkpoint := Some(rows), quiesced := s.db, floor := map[])
  }

  // Resumed after the session key has expired.
  ghost function ResumedWithout(cfg: Config, rows: seq<Row>): Domain {
    var s := QuiescedWith(cfg, rows);
    s.(trail := s.trail + [VerifiedRetained] + [DomainReleased], acl := Granted(s.acl, s.drawn), drawn := s.drawn + 1,
       db := s.db - {SESSION})
  }

  lemma KeysDiffer()
    ensures SESSION != HEADER && SESSION != OWNERS
  {
    assert |SESSION| == 7 && HEADER[0] == 'h' && OWNERS[0] == 'h' && SESSION[0] == 's';
  }

  lemma HeaderRow(o: Order, k: string, e: Entry) returns (row: Row)
    requires e.value.StrV? || (e.value.HashV? && e.value.hash == map["owner_count" := "0"])
    ensures row.key == k && RowMatches(o, e, row)
  {
    var l := Listing(["owner_count"], []);
    assert Enumerates(l.names, map["owner_count" := "0"].Keys);
    assert Lists(e.value, l);
    row := RowOf(o, k, e, l);
  }

  lemma SnapshotOfWritten(cfg: Config) returns (rows: seq<Row>)
    requires cfg.order.Valid()
    ensures IsSnapshot(cfg.order, Written(cfg).db, rows)
  {
    hide RowMatches;
    KeysDiffer();
    var db := Written(cfg).db;
    assert db.Keys == {HEADER, SESSION};
    var h := HeaderRow(cfg.order, HEADER, db[HEADER]);
    var k := HeaderRow(cfg.order, SESSION, db[SESSION]);
    rows := if cfg.order.key(HEADER, SESSION) then [h, k] else [k, h];
    assert RowKeys(rows) == if cfg.order.key(HEADER, SESSION) then [HEADER, SESSION] else [SESSION, HEADER];
  }

  // Nothing was admitted: the catalog is empty and so are the owners.
  lemma WrittenIsProven(cfg: Config, db: Database)
    requires (forall d :: cfg.decode(d).scan == []) && db == Written(cfg).db
    ensures OwnersOf(db) == map[] && ValidateHeader(db, FirstRelease(cfg).header.value, false)
    ensures Bijective(cfg.decode(db), OwnersOf(db), map[])
  {
    KeysDiffer();
    assert CountText(db) == "0";
    assert Decimal("0") == 10 * Decimal("") + 0;
  }

  lemma QuiescedAccess(cfg: Config, rows: seq<Row>)
    ensures Excluded(cfg, QuiescedWith(cfg, rows).acl, QuiescedWith(cfg, rows).clients)
  {
    var s := QuiescedWith(cfg, rows);
    assert s.acl == map[DefaultUser := {}, OwnerUser := {cfg.ownerSecret}];
    assert s.acl.Keys == {DefaultUser, OwnerUser};
  }

  lemma WrittenQuiesces(cfg: Config, rows: seq<Row>, q: QuiesceSteps)
    requires (forall d :: cfg.decode(d).scan == []) && Enters(q)
    requires IsSnapshot(cfg.order, Written(cfg).db, rows)
    ensures QuiesceRel(cfg, Written(cfg), QuiescedWith(cfg, rows), q, true)
    ensures Proven(cfg, QuiescedWith(cfg, rows).acl, QuiescedWith(cfg, rows).clients, QuiescedWith(cfg, rows).header,
                   Written(cfg).db, map[])
  {
    hide IsSnapshot, Bijective, ValidateHeader, Excluded;
    WrittenIsProven(cfg, Written(cfg).db);
    QuiescedAccess(cfg, rows);
  }

  lemma QuiescedResumes(cfg: Config, rows: seq<Row>)
    requires IsSnapshot(cfg.order, Written(cfg).db, rows)
    requires Proven(cfg, QuiescedWith(cfg, rows).acl, QuiescedWith(cfg, rows).clients, QuiescedWith(cfg, rows).header,
                    Written(cfg).db, map[])
    ensures ResumeRel(cfg, QuiescedWith(cfg, rows), ResumedWithout(cfg, rows), true)
  {
    hide IsSnapshot, Proven;
    var s := QuiescedWith(cfg, rows);
    var m := s.(trail := s.trail + [VerifiedRetained]);
    var n := m.(db := s.db - {SESSION});
    assert VerifyRel(cfg, s, m, true);
    assert Expired(m, n);
    assert ReleaseRel(n, ResumedWithout(cfg, rows), true);
  }

  ghost function Connected(cfg: Config): Domain { FirstRelease(cfg).(clients := Written(cfg).clients) }

  lemma ScenarioWrites(cfg: Config)
    ensures ConnectRel(FirstRelease(cfg), Connected(cfg)) && WriteRel(Connected(cfg), Written(cfg))
  {
    hide ACTIVATION, STARTUP;
    assert Connected(cfg).clients[cfg.ownerClient + 1] == ScenarioUser;
  }

  lemma SessionExpires(cfg: Config, rows: seq<Row>)
    ensures SESSION in QuiescedWith(cfg, rows).db && SESSION !in ResumedWithout(cfg, rows).db
  { }

  /** It does happen: the scenario leaves a key with a deadline, the domain is quiesced, and the key
      expires between the comparison and the release of a successful resume. */
  lemma ExpiredInsideResume(order: Order, keyspace: Aggregate -> Keyspace) returns (cfg: Config, r: Run)
    requires order.Valid()
    ensures IsRun(cfg, r) && |r.states| == 7 && r.labels[4].DoQuiesce? && r.labels[5] == DoResume(true)
    ensures SESSION in r.states[5].db && SESSION !in r.states[6].db
  {
    hide CreateRel, ActivateRel, ConnectRel, WriteRel, QuiesceRel, ResumeRel, IsSnapshot, Proven;
    hide Isolated, FirstRelease, Connected, Written, QuiescedWith, ResumedWithout;
    var empty := Catalog([], map[], keyspace);
    cfg := Config(order, (db: Database) => empty, 0, 0);
    var q := QuiesceSteps(Answered, true, true);
    var rows := SnapshotOfWritten(cfg);
    IsolatedByCreate(cfg);
    FirstReleaseActivates(cfg);
    ScenarioWrites(cfg);
    WrittenQuiesces(cfg, rows, q);
    QuiescedResumes(cfg, rows);
    SessionExpires(cfg, rows);
    r := Run([INITIAL, Isolated(cfg), FirstRelease(cfg), Connected(cfg), Written(cfg), QuiescedWith(cfg, rows),
              ResumedWithout(cfg, rows)],
             [DoCreate(true), DoActivate(false, true), Connect, Write, DoQuiesce(q, true), DoResume(true)]);
    assert Step(cfg, r.labels[0], r.states[0], r.states[1]) && Step(cfg, r.labels[1], r.states[1], r.states[2]);
    assert Step(cfg, r.labels[2], r.states[2], r.states[3]) && Step(cfg, r.labels[3], r.states[3], r.states[4]);
    assert Step(cfg, r.labels[4], r.states[4], r.states[5]) && Step(cfg, r.labels[5], r.states[5], r.states[6]);
  }

  // ----- owners at a quiesce

  ghost predicate SameRun(c: Catalog, a: Aggregate, i: int, b: Aggregate, j: int)
    requires Admission(c, a, i) && Admission(c, b, j)
  {
    c.history[a][i].owner.run == c.history[b][j].owner.run
  }

  ghost predicate AdmittedRunsUnique(c: Catalog) {
    forall a, i, b, j ::
      Admission(c, a, i) && Admission(c, b, j) && SameRun(c, a, i, b, j) ==> a == b && i == j
  }

  lemma QuiesceProves(cfg: Config, s: Domain, t: Domain, q: QuiesceSteps)
    requires QuiesceRel(cfg, s, t, q, true)
    ensures t.header.Some? && ValidateHeader(t.db, t.header.value, false)
    ensures Bijective(cfg.decode(t.db), OwnersOf(t.db), s.floor)
  {
    hide IsSnapshot, Excluded, Bijective, ValidateHeader;
  }

  // One run was created for each admitted task, once, with that task as root and for its tenant.
  ghost predicate RunsCreatedOnce(c: Catalog) {
    forall a, i :: Admission(c, a, i) ==> ParentProves(c, c.history[a][i])
  }

  lemma QuiesceProvesRuns(cfg: Config, s: Domain, t: Domain, q: QuiesceSteps)
    requires QuiesceRel(cfg, s, t, q, true)
    ensures RunsCreatedOnce(cfg.decode(t.db)) && AdmittedRunsUnique(cfg.decode(t.db))
  {
    hide IsSnapshot, Excluded, ValidateHeader, QuiesceRel, ParentProves;
    var c := cfg.decode(t.db);
    QuiesceProves(cfg, s, t, q);
    forall a, i, b, j | Admission(c, a, i) && Admission(c, b, j) && SameRun(c, a, i, b, j)
      ensures a == b && i == j
    {
      AdmittedRunsDistinct(c, OwnersOf(t.db), s.floor, a, i, b, j);
    }
  }

  /** After every successful quiesce the header is intact and its count is the decimal text of the number
      of owners, which is the number of TASK_ADMIT records; each owner has exactly one admission, each
      admission's run was created exactly once for it, and no two admitted tasks share a run. */
  lemma QuiesceProvesOwners(cfg: Config, s: Domain, t: Domain, q: QuiesceSteps)
    requires QuiesceRel(cfg, s, t, q, true)
    ensures t.header.Some? && HeaderIntact(t.db, t.header.value) && "owner_count" in t.db[HEADER].value.hash
    ensures t.db[HEADER].value.hash["owner_count"] == Render(|OwnersOf(t.db)|)
    ensures |OwnersOf(t.db)| == |AdmissionSites(cfg.decode(t.db))|
    ensures var c := cfg.decode(t.db);
      && (forall task :: task in OwnersOf(t.db) ==> exists a, i :: Admission(c, a, i) && TaskAt(c, a, i) == task)
      && AdmissionsUnique(c) && RunsCreatedOnce(c) && AdmittedRunsUnique(c)
  {
    hide IsSnapshot, Excluded, ValidateHeader, QuiesceRel, HeaderIntact, Render;
    QuiesceProves(cfg, s, t, q);
    HeaderAcceptedExactly(t.db, t.header.value, false);
    AdmissionCountEqualsOwnerCount(cfg.decode(t.db), OwnersOf(t.db), s.floor);
    QuiesceProvesRuns(cfg, s, t, q);
  }
}
