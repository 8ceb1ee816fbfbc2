/** The creator-owned Redis lifecycle (scripts/acceptance_fresh_domain.py, `OwnedFreshDomain`).

    A raised exception is a `false` result. Every call to the server, every receipt write and every
    host check may fail; a failed write to the server may or may not have taken effect. */
module FreshDomain {
  import opened Results
  import opened Orders
  import opened Snapshot
  import opened OwnerBijection
  import opened Generations
  import opened Signals

  datatype Phase =
    | Created | OwnershipVerified | WritersIsolated | FullDbInventoryComplete | ExternallyAttested
    | ActivationCalledOnce | HeaderVerified | DomainReleased | Quiescent | VerifiedRetained
    | Disposed | Hold

  // Which phase may be entered next.
  predicate Edge(p: Phase, q: Phase) {
    match q
    case Created => false
    case OwnershipVerified => p == Created
    case WritersIsolated => p == OwnershipVerified
    case FullDbInventoryComplete => p == WritersIsolated
    case ExternallyAttested => p == FullDbInventoryComplete
    case ActivationCalledOnce => p == ExternallyAttested
    case HeaderVerified => p == ActivationCalledOnce
    case DomainReleased => p == HeaderVerified || p == VerifiedRetained
    case Quiescent => p == DomainReleased
    case VerifiedRetained => p == Quiescent || p == VerifiedRetained
    case Disposed => p != Disposed && p != DomainReleased
    case Hold => p != Disposed
  }

  ghost predicate Legal(trail: seq<Phase>) {
    && (trail != [] ==> trail[0] == Created || trail[0] == Hold || trail[0] == Disposed)
    && forall i :: 0 <= i < |trail| - 1 ==> Edge(trail[i], trail[i + 1])
  }

  // ----- access control as Redis keeps it

  datatype User = DefaultUser | OwnerUser | ScenarioUser | OtherUser(name: string)
  type Secret = nat
  type Acl = map<User, set<Secret>>
  datatype Rule = Reset | On | AddPassword(secret: Secret) | Permit(what: string) | Refuse(what: string)

  function ApplyRule(passwords: set<Secret>, rule: Rule): set<Secret> {
    match rule
    case Reset => {}
    case AddPassword(p) => passwords + {p}
    case _ => passwords
  }

  function ApplyRules(passwords: set<Secret>, rules: seq<Rule>): set<Secret>
    decreases |rules|
  {
    if rules == [] then passwords else ApplyRules(ApplyRule(passwords, rules[0]), rules[1..])
  }

  function SetUser(acl: Acl, u: User, rules: seq<Rule>): Acl {
    acl[u := ApplyRules(if u in acl then acl[u] else {}, rules)]
  }

  const RELEASE_LIMITS := [Permit("~*"), Permit("&*"), Permit("+@all"), Refuse("-@admin"), Refuse("-flushdb"),
                           Refuse("-flushall"), Refuse("-restore"), Refuse("-migrate")]

  function ReleaseRules(p: Secret): seq<Rule> {
    [Reset, On, AddPassword(p)] + RELEASE_LIMITS
  }

  lemma {:induction false} LimitsKeepPasswords(passwords: set<Secret>, rules: seq<Rule>)
    requires forall r :: r in rules ==> r.Permit? || r.Refuse?
    ensures ApplyRules(passwords, rules) == passwords
  {
    if rules != [] {
      assert rules[0] in rules;
      LimitsKeepPasswords(passwords, rules[1..]);
    }
  }

  function Granted(acl: Acl, p: Secret): Acl { acl[ScenarioUser := {p}] }

  lemma ApplyStep(passwords: set<Secret>, rule: Rule, rest: seq<Rule>)
    ensures ApplyRules(passwords, [rule] + rest) == ApplyRules(ApplyRule(passwords, rule), rest)
  {
    assert ([rule] + rest)[1..] == rest;
  }

  // `reset` comes first, so a release leaves exactly the new password, whatever was there.
  lemma ResetThenAdd(before: set<Secret>, p: Secret, limits: seq<Rule>)
    requires forall r :: r in limits ==> r.Permit? || r.Refuse?
    ensures ApplyRules(before, [Reset, On, AddPassword(p)] + limits) == {p}
  {
    ApplyStep(before, Reset, [On, AddPassword(p)] + limits);
    ApplyStep({}, On, [AddPassword(p)] + limits);
    ApplyStep({}, AddPassword(p), limits);
    assert [Reset, On, AddPassword(p)] + limits == [Reset] + ([On, AddPassword(p)] + limits);
    assert [On, AddPassword(p)] + limits == [On] + ([AddPassword(p)] + limits);
    assert ApplyRule({}, AddPassword(p)) == {p};
    LimitsKeepPasswords({p}, limits);
  }

  lemma ReleaseSetsOnePassword(acl: Acl, p: Secret)
    ensures SetUser(acl, ScenarioUser, ReleaseRules(p)) == Granted(acl, p)
  {
    ResetThenAdd(if ScenarioUser in acl then acl[ScenarioUser] else {}, p, RELEASE_LIMITS);
  }

  function WithoutUser(clients: map<nat, User>, u: User): map<nat, User> {
    map c | c in clients && clients[c] != u :: clients[c]
  }

  // Keys with a deadline may disappear at any time; everything else stays.
  ghost predicate Expires(before: Database, after: Database) {
    && after.Keys <= before.Keys
    && forall k :: k in before ==> if k in after then after[k] == before[k] else before[k].expiry >= 0
  }

  // ----- how a server write can end

  datatype Reply = NotApplied | AnswerLost | Answered

  // What the environment answers up to the protected block of `quiesce`.
  datatype QuiesceSteps = QuiesceSteps(revoked: Reply, recorded: bool, clientClosed: bool)

  predicate Enters(q: QuiesceSteps) { q.revoked == Answered && q.recorded && q.clientClosed }

  // ----- the lifecycle state

  datatype Config = Config(order: Order, decode: Database -> Catalog, ownerSecret: Secret, ownerClient: nat)

  function PhaseOf(trail: seq<Phase>): Option<Phase> {
    if trail == [] then None else Some(trail[|trail| - 1])
  }

  datatype Domain = Domain(
    trail: seq<Phase>,                   // every phase entered, in order
    started: bool, owned: bool,          // child launched; its host identity is known
    attempts: nat, apiCalls: nat,        // activation attempts counted; activation API calls made
    db: Database, acl: Acl, clients: map<nat, User>,
    drawn: nat,                          // scenario passwords drawn so far
    header: Option<map<string, string>>,
    prepared: Option<seq<Row>>, issued: bool,
    checkpoint: Option<seq<Row>>, floor: map<string, string>,
    quiesced: Database)                  // database behind the checkpoint
  {
    ghost function Now(): Option<Phase> { PhaseOf(trail) }
  }

  predicate Excluded(cfg: Config, acl: Acl, clients: map<nat, User>) {
    && acl.Keys == {DefaultUser, OwnerUser} && acl[DefaultUser] == {} && acl[OwnerUser] == {cfg.ownerSecret}
    && clients == map[cfg.ownerClient := OwnerUser]
  }

  ghost predicate Proven(cfg: Config, acl: Acl, clients: map<nat, User>, header: Option<map<string, string>>,
                         db: Database, floor: map<string, string>) {
    && Excluded(cfg, acl, clients)
    && header.Some? && ValidateHeader(db, header.value, false)
    && Bijective(cfg.decode(db), OwnersOf(db), floor)
  }

  const TERMINAL_INDEX := "hfa:run:terminal-event:v1:index"
  const STARTUP := [Created, OwnershipVerified, WritersIsolated]
  const ACTIVATION: seq<Phase> := [FullDbInventoryComplete, ExternallyAttested, ActivationCalledOnce, HeaderVerified]

  lemma ActivationPrefix(trail: seq<Phase>, k: nat)
    requires 2 <= k <= 4
    ensures |ACTIVATION| == 4 && ACTIVATION[..4] == ACTIVATION
    ensures trail + ACTIVATION[..2] + ACTIVATION[2..k] == trail + ACTIVATION[..k]
  {
    assert ACTIVATION[..2] + ACTIVATION[2..k] == ACTIVATION[..k];
    assert trail + (ACTIVATION[..2] + ACTIVATION[2..k]) == trail + ACTIVATION[..2] + ACTIVATION[2..k];
  }

  // ----- what each operation may do: (before, after, completed without raising)

  ghost predicate CreateRel(cfg: Config, s: Domain, t: Domain, ok: bool) {
    if s.trail != [] || s.started then t == s && !ok
    else
      && t == s.(trail := t.trail, started := t.started, owned := t.owned, acl := t.acl, clients := t.clients)
      && t.trail <= STARTUP
      && ScenarioUser !in t.acl && (forall c :: c in t.clients ==> t.clients[c] == OwnerUser)
      && (ok ==> t.trail == STARTUP && t.owned && Excluded(cfg, t.acl, t.clients))
  }

  ghost predicate ReleaseRel(s: Domain, t: Domain, ok: bool) {
    && t == s.(trail := t.trail, acl := t.acl, drawn := s.drawn + 1)
    && (t.acl == s.acl || t.acl == Granted(s.acl, s.drawn))
    && (ok ==> t.trail == s.trail + [DomainReleased] && t.acl == Granted(s.acl, s.drawn))
    && (!ok ==> t.trail == s.trail)
  }

  ghost predicate PreparedKeys(db: Database) { db.Keys == {HEADER} || db.Keys == {HEADER, TERMINAL_INDEX} }

  // What a successful activation leaves in the database.
  ghost predicate Activated(cfg: Config, t: Domain, toPrepared: bool) {
    && t.header.Some?
    && (!toPrepared ==> ValidateHeader(t.db, t.header.value, true) && t.db.Keys == {HEADER})
    && (toPrepared ==> PreparedKeys(t.db) && t.prepared.Some? && !t.issued
                       && IsSnapshot(cfg.order, t.db, t.prepared.value))
  }

  // Activation entered its first k phases, and then possibly HOLD.
  ghost predicate BrokenOff(before: seq<Phase>, after: seq<Phase>, k: nat)
    requires k <= 4
  {
    after == before + ACTIVATION[..k] || after == before + ACTIVATION[..k] + [Hold]
  }

  ghost predicate ActivateRel(cfg: Config, s: Domain, t: Domain, toPrepared: bool, ok: bool) {
    if s.Now() != Some(WritersIsolated) || s.attempts != 0 then t == s && !ok
    else
      && t == s.(trail := t.trail, attempts := t.attempts, apiCalls := t.apiCalls, db := t.db, acl := t.acl,
                 drawn := t.drawn, header := t.header, prepared := t.prepared, issued := t.issued)
      && t.attempts <= 1 && t.apiCalls <= s.apiCalls + t.attempts
      && s.drawn <= t.drawn
      && (t.acl == s.acl || (s.drawn < t.drawn && t.acl == Granted(s.acl, s.drawn)))
      && (if t.apiCalls == s.apiCalls then t.db == s.db && t.header == s.header
          else s.db == map[] && Excluded(cfg, s.acl, s.clients))
      && (ok ==> t.attempts == 1 && t.apiCalls == s.apiCalls + 1 && Activated(cfg, t, toPrepared))
      && (ok && toPrepared ==> t.trail == s.trail + ACTIVATION && t.acl == s.acl)
      && (ok && !toPrepared ==>
            t.trail == s.trail + ACTIVATION + [DomainReleased] && t.acl == Granted(s.acl, s.drawn))
      && (!ok ==> exists k :: 0 <= k <= 4 && BrokenOff(s.trail, t.trail, k))
      && (t.apiCalls != s.apiCalls ==> |t.trail| >= |s.trail| + 3)
      && (t.acl != s.acl ==> |t.trail| >= |s.trail| + 4 && s.trail + ACTIVATION <= t.trail)
  }

  ghost predicate IssueRel(cfg: Config, s: Domain, t: Domain, ok: bool) {
    || (t == s && !ok)
    || (&& s.Now() == Some(HeaderVerified) && s.prepared.Some? && !s.issued && Excluded(cfg, s.acl, s.clients)
        && IsSnapshot(cfg.order, s.db, s.prepared.value)
        && ReleaseRel(s.(issued := true), t, ok))
  }

  ghost predicate Revoked(s: Domain, t: Domain) {
    t.acl == s.acl - {ScenarioUser} && t.clients == WithoutUser(s.clients, ScenarioUser)
  }

  ghost predicate RevokeOrNot(s: Domain, t: Domain) {
    || (t.acl == s.acl && t.clients == s.clients)
    || Revoked(s, t)
  }

  // A step before the protected block failed: only the revocation may have happened.
  ghost predicate StaysReleased(s: Domain, t: Domain, q: QuiesceSteps) {
    && t == s.(acl := t.acl, clients := t.clients)
    && if q.revoked == NotApplied then t == s else Revoked(s, t)
  }

  // The protected block failed before, or after, the phase QUIESCENT was entered.
  ghost predicate HeldBefore(s: Domain, t: Domain) {
    t.trail == s.trail + [Hold] && t.checkpoint == s.checkpoint && t.quiesced == s.quiesced
  }

  ghost predicate Checkpointed(cfg: Config, s: Domain, t: Domain) {
    && Proven(cfg, t.acl, t.clients, t.header, t.db, s.floor)
    && t.checkpoint.Some? && IsSnapshot(cfg.order, t.db, t.checkpoint.value) && t.quiesced == t.db
  }

  ghost predicate HeldAfter(cfg: Config, s: Domain, t: Domain) {
    t.trail == s.trail + [Quiescent] + [Hold] && Checkpointed(cfg, s, t)
  }

  ghost predicate Protected(cfg: Config, s: Domain, t: Domain, ok: bool) {
    && t == s.(trail := t.trail, acl := t.acl, clients := t.clients,
               checkpoint := t.checkpoint, quiesced := t.quiesced, floor := t.floor)
    && (if ok then t.trail == s.trail + [Quiescent] && Checkpointed(cfg, s, t) && t.floor == OwnersOf(t.db)
        else t.floor == s.floor && (HeldBefore(s, t) || HeldAfter(cfg, s, t)))
  }

  ghost predicate QuiesceRel(cfg: Config, s: Domain, t: Domain, q: QuiesceSteps, ok: bool) {
    if s.Now() != Some(DomainReleased) then t == s && !ok
    else if !Enters(q) then StaysReleased(s, t, q) && !ok
    else Revoked(s, t) && Protected(cfg, s, t, ok)
  }

  lemma ProtectedFrom(cfg: Config, s: Domain, m: Domain, t: Domain, ok: bool)
    requires m == s.(acl := m.acl, clients := m.clients) && Protected(cfg, m, t, ok)
    ensures Protected(cfg, s, t, ok)
  {
    hide Proven, IsSnapshot, OwnersOf;
  }

  ghost predicate VerifyRel(cfg: Config, s: Domain, t: Domain, ok: bool) {
    if !ok then t == s
    else
      && (s.Now() == Some(Quiescent) || s.Now() == Some(VerifiedRetained))
      && Proven(cfg, s.acl, s.clients, s.header, s.db, s.floor)
      && s.checkpoint.Some? && IsSnapshot(cfg.order, s.db, s.checkpoint.value)
      && t == s.(trail := s.trail + [VerifiedRetained])
  }

  // The database lost keys whose deadline has passed; nothing else happened.
  ghost predicate Expired(s: Domain, t: Domain) { t == s.(db := t.db) && Expires(s.db, t.db) }

  ghost predicate ResumeRel(cfg: Config, s: Domain, t: Domain, ok: bool) {
    || (VerifyRel(cfg, s, t, false) && !ok)
    || exists m, n :: VerifyRel(cfg, s, m, true) && Expired(m, n) && ReleaseRel(n, t, ok)
  }

  ghost predicate Gone(t: Domain) { t.acl == map[] && t.clients == map[] }

  ghost predicate AbortRel(s: Domain, t: Domain, ok: bool) {
    if s.Now() == Some(Disposed) || !s.owned then t == s && !ok
    else
      && t == s.(trail := t.trail, acl := t.acl, clients := t.clients)
      && (RevokeOrNot(s, t) || Gone(t))
      && (t.Now() == Some(Disposed) || t.Now() == Some(Hold))
      && (t.trail == s.trail + [Hold] || t.trail == s.trail + [Hold] + [Hold]
          || t.trail == s.trail + [Hold] + [Disposed])
      && (t.Now() == Some(Disposed) ==> Gone(t))
      && (ok ==> t.trail == s.trail + [Hold] + [Disposed])
  }

  ghost predicate TeardownRel(s: Domain, t: Domain, ok: bool) {
    && t == s.(trail := t.trail, acl := t.acl, clients := t.clients)
    && ((t.acl == s.acl && t.clients == s.clients) || Gone(t))
    && (ok ==> t.trail == s.trail + [Disposed] && Gone(t))
    && (!ok ==> t.trail == s.trail)
  }

  ghost predicate DisposeRel(cfg: Config, s: Domain, t: Domain, q: QuiesceSteps, ok: bool) {
    if s.Now() == Some(Disposed) then t == s && !ok
    else if s.Now() == Some(DomainReleased) then
      || (QuiesceRel(cfg, s, t, q, false) && !ok)
      || exists m :: QuiesceRel(cfg, s, m, q, true) && TeardownRel(m, t, ok)
    else TeardownRel(s, t, ok)
  }

  // `client` looks at the phase and at the ownership of the process, not at the credential.
  ghost predicate ClientGiven(s: Domain, ownershipVerified: bool) {
    s.Now() == Some(DomainReleased) && ownershipVerified
  }

  // ----- the server as the creator sees it

  class RedisServer {
    var db: Database
    var acl: Acl
    var clients: map<nat, User>

    constructor ()
      ensures db == map[] && acl == map[] && clients == map[]
    {
      db, acl, clients := map[], map[], map[];
    }

    method AclSetUser(u: User, rules: seq<Rule>, reply: Reply) returns (ok: bool)
      modifies this`acl
      ensures acl == if reply == NotApplied then old(acl) else SetUser(old(acl), u, rules)
      ensures ok <==> reply == Answered
    {
      if reply != NotApplied { acl := SetUser(acl, u, rules); }
      ok := reply == Answered;
    }

    // DELUSER also disconnects the user's connections.
    method AclDelUser(u: User, reply: Reply) returns (ok: bool)
      modifies this`acl, this`clients
      ensures reply == NotApplied ==> acl == old(acl) && clients == old(clients)
      ensures reply != NotApplied ==> acl == old(acl) - {u} && clients == WithoutUser(old(clients), u)
      ensures ok <==> reply == Answered
    {
      if reply != NotApplied { acl, clients := acl - {u}, WithoutUser(clients, u); }
      ok := reply == Answered;
    }

    // Time passes.
    method Expire()
      modifies this`db
      ensures Expires(old(db), db)
    {
      var gone: set<string> := *;
      db := map k | k in db && !(k in gone && db[k].expiry >= 0) :: db[k];
    }

    method Shutdown()
      modifies this`acl, this`clients
      ensures acl == map[] && clients == map[]
    {
      acl, clients := map[], map[];
    }
  }

  // ----- the lifecycle object

  datatype Setup = Setup(
    terminal: bool,                     // terminal-event index requested
    expected: map<string, string>,      // header the creator computes
    written: Database,                  // what the activation API left in the database
    settled: Database,                  // what the terminal setup left
    before: Observation, after: Observation)

  method SomeReply(quiet: bool) returns (reply: Reply)
    ensures quiet ==> reply == Answered
  {
    reply := *;
    if quiet { reply := Answered; }
  }

  // ----- when the operations succeed, if nothing else fails

  predicate HeaderFits(setup: Setup) {
    ValidateHeader(setup.written, setup.expected, true) && setup.written.Keys == {HEADER}
  }

  function Settled(setup: Setup): Database { if setup.terminal then setup.settled else setup.written }

  ghost predicate SetupFits(setup: Setup) {
    && Settled(setup).Keys == (if setup.terminal then {HEADER, TERMINAL_INDEX} else {HEADER})
    && Complete(Settled(setup), setup.after)
  }

  ghost predicate Preparable(cfg: Config, s: Domain, setup: Setup) {
    && Excluded(cfg, s.acl, s.clients) && s.header.Some? && ValidateHeader(s.db, s.header.value, true)
    && s.db.Keys == {HEADER} && SetupFits(setup)
  }

  // An empty database that only the creator can reach, and answers that fit.
  ghost predicate Activatable(cfg: Config, s: Domain, setup: Setup, toPrepared: bool) {
    s.db == map[] && Excluded(cfg, s.acl, s.clients) && HeaderFits(setup) && (toPrepared ==> SetupFits(setup))
  }

  ghost predicate Issuable(cfg: Config, s: Domain, obs: Observation) {
    && s.Now() == Some(HeaderVerified) && s.prepared.Some? && !s.issued && Excluded(cfg, s.acl, s.clients)
    && s.header.Some? && ValidateHeader(s.db, s.header.value, true)
    && Complete(s.db, obs) && IsSnapshot(cfg.order, s.db, s.prepared.value)
  }

  ghost predicate Quiescible(cfg: Config, s: Domain, q: QuiesceSteps, obs: Observation, again: Observation) {
    && s.Now() == Some(DomainReleased) && Enters(q) && Complete(s.db, obs) && Complete(s.db, again)
    && Proven(cfg, s.acl - {ScenarioUser}, WithoutUser(s.clients, ScenarioUser), s.header, s.db, s.floor)
  }

  ghost predicate Verifiable(cfg: Config, s: Domain, obs: Observation) {
    && (s.Now() == Some(Quiescent) || s.Now() == Some(VerifiedRetained))
    && Proven(cfg, s.acl, s.clients, s.header, s.db, s.floor)
    && Complete(s.db, obs) && s.checkpoint.Some? && IsSnapshot(cfg.order, s.db, s.checkpoint.value)
  }

  // A database has one snapshot.
  lemma SnapshotIs(o: Order, db: Database, rows: seq<Row>, other: seq<Row>)
    requires o.Valid() && IsSnapshot(o, db, rows)
    ensures rows == other <==> IsSnapshot(o, db, other)
  {
    hide IsSnapshot;
    if IsSnapshot(o, db, other) { SnapshotsEqualExactly(o, db, rows, db, other); }
  }

  class OwnedFreshDomain {
    const cfg: Config
    const server: RedisServer
    const kernel: Kernel
    const process: Process               // the Redis child that start-up launches
    var phase: Option<Phase>
    var started: bool
    var owned: bool
    var attempts: nat
    var drawn: nat
    var header: Option<map<string, string>>
    var prepared: Option<seq<Row>>
    var issued: bool
    var checkpoint: Option<seq<Row>>
    var floor: map<string, string>
    ghost var trail: seq<Phase>
    ghost var apiCalls: nat
    ghost var quiesced: Database

    ghost predicate Valid()
      reads this, kernel
    {
      phase == PhaseOf(trail) && cfg.order.Valid() && kernel.Valid()
    }

    ghost function View(): Domain
      reads this, server
    {
      Domain(trail, started, owned, attempts, apiCalls, server.db, server.acl, server.clients, drawn,
             header, prepared, issued, checkpoint, floor, quiesced)
    }

    constructor (cfg: Config, kernel: Kernel, process: Process)
      requires cfg.order.Valid() && kernel.Valid()
      ensures Valid() && fresh(server) && this.cfg == cfg && this.kernel == kernel && this.process == process
      ensures View() == Domain([], false, false, 0, 0, map[], map[], map[], 0, None, None, false, None, map[], map[])
    {
      this.cfg, this.kernel, this.process := cfg, kernel, process;
      server := new RedisServer();
      phase, started, owned, attempts, drawn := None, false, false, 0, 0;
      header, prepared, issued, checkpoint, floor := None, None, false, None, map[];
      trail, apiCalls, quiesced := [], 0, map[];
    }

    method Enter(p: Phase)
      requires Valid()
      modifies this`phase, this`trail
      ensures Valid() && trail == old(trail) + [p]
    {
      phase, trail := Some(p), trail + [p];
    }

    // `_transition`: the receipt is written first; if that fails the phase is unchanged.
    method Transition(p: Phase, quiet: bool) returns (ok: bool)
      requires Valid()
      modifies this`phase, this`trail
      ensures Valid() && (quiet ==> ok)
      ensures trail == if ok then old(trail) + [p] else old(trail)
    {
      ok := Answer(quiet);
      if ok { Enter(p); }
    }

    // `_verify_exclusion`: any of its reads may fail.
    method VerifyExclusion(quiet: bool) returns (ok: bool)
      ensures ok ==> Excluded(cfg, server.acl, server.clients)
      ensures quiet ==> (ok <==> Excluded(cfg, server.acl, server.clients))
    {
      var reached := Answer(quiet);
      ok := reached && Excluded(cfg, server.acl, server.clients);
    }

    method Launch(quiet: bool) returns (ok: bool)
      modifies this`started, this`owned, server`acl
      ensures quiet ==> ok
      ensures server.acl == old(server.acl) || server.acl == map[DefaultUser := {}, OwnerUser := {cfg.ownerSecret}]
      ensures ok ==> owned && server.acl == map[DefaultUser := {}, OwnerUser := {cfg.ownerSecret}]
    {
      ok := Answer(quiet);                                // version, port reservation, private files
      if !ok { return; }
      started := true;
      server.acl := map[DefaultUser := {}, OwnerUser := {cfg.ownerSecret}];
      ok := Answer(quiet);                                // host identity of the launched child
      if !ok { return; }
      owned := true;
      ok := Answer(quiet);                                // launched executable and storage match
    }

    method Isolate(quiet: bool) returns (ok: bool)
      requires Valid() && trail == []
      modifies this`phase, this`trail, server`clients
      ensures Valid() && trail <= STARTUP
      ensures server.clients == old(server.clients) || server.clients == map[cfg.ownerClient := OwnerUser]
      ensures ok ==> trail == STARTUP && Excluded(cfg, server.acl, server.clients)
      ensures quiet && server.acl == map[DefaultUser := {}, OwnerUser := {cfg.ownerSecret}] ==> ok
    {
      ok := Transition(Created, quiet);
      if !ok { return; }
      ok := Answer(quiet);                                // listener owned by the child within the wait
      if !ok { return; }
      ok := Transition(OwnershipVerified, quiet);
      if !ok { return; }
      server.clients := map[cfg.ownerClient := OwnerUser];
      assert server.acl == map[DefaultUser := {}, OwnerUser := {cfg.ownerSecret}] ==>
          server.acl.Keys == {DefaultUser, OwnerUser};
      ok := VerifyExclusion(quiet);
      if !ok { return; }
      ok := Transition(WritersIsolated, quiet);
    }

    // `create`
    method Create(quiet: bool) returns (ok: bool)
      requires Valid() && (trail == [] && !started ==> server.acl == map[] && server.clients == map[])
      modifies this`phase, this`trail, this`started, this`owned, server`acl, server`clients
      ensures Valid() && CreateRel(cfg, old(View()), View(), ok)
      ensures quiet ==> (ok <==> old(phase).None? && !old(started))
    {
      if phase.Some? || started { return false; }
      ok := Launch(quiet);
      if ok { ok := Isolate(quiet); }
    }

    // `_release`
    method Release(quiet: bool) returns (ok: bool)
      requires Valid()
      modifies this`phase, this`trail, this`drawn, server`acl
      ensures Valid() && ReleaseRel(old(View()), View(), ok) && (quiet ==> ok)
    {
      hide SetUser, ApplyRules, IsRun;
      var password := drawn;
      drawn := drawn + 1;
      ReleaseSetsOnePassword(server.acl, password);
      var reply := SomeReply(quiet);
      ok := server.AclSetUser(ScenarioUser, ReleaseRules(password), reply);
      if ok {
        var readBack := Answer(quiet);                    // ACL read-back
        if readBack { ok := Transition(DomainReleased, quiet); } else { ok := false; }
      }
    }

    // `_inventory`: the whole database must be empty.
    method Inventory(obs: Observation, quiet: bool) returns (ok: bool)
      requires Valid() && Observes(server.db, obs)
      ensures ok ==> server.db == map[]
      ensures quiet ==> (ok <==> Excluded(cfg, server.acl, server.clients) && server.db == map[])
    {
      ok := VerifyExclusion(quiet);
      if !ok { return; }
      var rows, read := SemanticSnapshot(cfg.order, server.db, obs);
      ok := VerifyExclusion(quiet);
      var recorded := Answer(quiet);
      ok := ok && read && recorded && rows == [];
      if read {
        assert rows == [] ==> RowKeys(rows) == [] && Elements(RowKeys(rows)) == {};
        assert rows != [] ==> rows[0].key in server.db;
        assert rows == [] <==> server.db.Keys == {};
      }
    }

    // The activation API call and the checks on its result.
    method CallActivation(setup: Setup, quiet: bool) returns (ok: bool)
      requires Valid()
      modifies this`apiCalls, this`header, server`db
      ensures apiCalls == old(apiCalls) + 1
      ensures ok ==> server.db == setup.written && server.db.Keys == {HEADER}
      ensures ok ==> header == Some(setup.expected) && ValidateHeader(server.db, setup.expected, true)
      ensures quiet ==> (ok <==> HeaderFits(setup) && Excluded(cfg, server.acl, server.clients))
    {
      hide ValidateHeader;
      apiCalls := apiCalls + 1;
      var applied := Answer(quiet);
      if applied { server.db := setup.written; }
      ok := Answer(quiet);                                // answer, its receipt, its expected content
      if !ok || !applied { return false; }
      header := Some(setup.expected);
      var settled := ValidateHeader(server.db, setup.expected, true) && server.db.Keys == {HEADER};
      ok := VerifyExclusion(quiet);
      ok := ok && settled;
    }

    method ActivateOnce(setup: Setup, quiet: bool) returns (ok: bool, ghost k: nat)
      requires Valid() && attempts == 0
      modifies this`phase, this`trail, this`attempts, this`apiCalls, this`header, server`db
      ensures Valid() && 2 <= k <= 4 && attempts == 1 && old(trail) + ACTIVATION[2..k] == trail
      ensures apiCalls == old(apiCalls) + (if k >= 3 then 1 else 0)
      ensures k < 3 ==> server.db == old(server.db) && header == old(header)
      ensures ok ==> k == 4 && server.db == setup.written && server.db.Keys == {HEADER}
      ensures ok ==> header == Some(setup.expected) && ValidateHeader(server.db, header.value, true)
      ensures quiet ==> (ok <==> HeaderFits(setup) && Excluded(cfg, server.acl, server.clients))
    {
      hide ValidateHeader, HeaderFits, Excluded;
      k := 2;
      attempts := attempts + 1;
      ok := Transition(ActivationCalledOnce, quiet);
      if !ok { return; }
      k := 3;
      assert ACTIVATION[2..3] == [ActivationCalledOnce];
      ok := CallActivation(setup, quiet);
      if !ok { return; }
      ok := Transition(HeaderVerified, quiet);
      if ok { k := 4; }
      assert ACTIVATION[2..4] == [ActivationCalledOnce] + [HeaderVerified];
    }

    // `_prepare_fresh`
    method PrepareFresh(setup: Setup, quiet: bool) returns (ok: bool)
      requires Valid() && server.db == setup.written
      requires Observes(if setup.terminal then setup.settled else setup.written, setup.after)
      modifies this`prepared, this`issued, server`db
      ensures ok ==> prepared.Some? && !issued && PreparedKeys(server.db)
      ensures ok ==> IsSnapshot(cfg.order, server.db, prepared.value)
      ensures quiet ==> (ok <==> Preparable(cfg, old(View()), setup))
    {
      hide ValidateHeader, IsSnapshot, Observes, Excluded;
      ok := VerifyExclusion(quiet);
      if !ok { return; }
      if header.None? || !ValidateHeader(server.db, header.value, true) || server.db.Keys != {HEADER} { return false; }
      var expected := {HEADER};
      if setup.terminal {
        expected := expected + {TERMINAL_INDEX};
        var applied := Answer(quiet);
        if applied { server.db := setup.settled; }
        ok := Answer(quiet);
        if !ok || !applied { return false; }
      }
      ok := VerifyExclusion(quiet);
      if !ok || server.db.Keys != expected { return false; }
      var rows, read := SemanticSnapshot(cfg.order, server.db, setup.after);
      if !read { return false; }
      prepared, issued := Some(rows), false;
      ok := Answer(quiet);                                // prepared_setup receipt
    }

    method Finish(toPrepared: bool, setup: Setup, quiet: bool) returns (ok: bool)
      requires Valid() && server.db == setup.written && server.db.Keys == {HEADER}
      requires header.Some? && ValidateHeader(server.db, header.value, true)
      requires Observes(if setup.terminal then setup.settled else setup.written, setup.after)
      modifies this`phase, this`trail, this`drawn, this`prepared, this`issued, server`acl, server`db
      ensures Valid() && old(drawn) <= drawn
      ensures toPrepared ==> trail == old(trail) && server.acl == old(server.acl)
      ensures ok ==> Activated(cfg, View(), toPrepared)
      ensures !toPrepared ==> trail == if ok then old(trail) + [DomainReleased] else old(trail)
      ensures server.acl == old(server.acl) ||
        (old(drawn) < drawn && server.acl == Granted(old(server.acl), old(drawn)))
      ensures ok && !toPrepared ==> server.acl == Granted(old(server.acl), old(drawn))
      ensures quiet ==> (ok <==> toPrepared ==> Preparable(cfg, old(View()), setup))
    {
      hide IsSnapshot, Observes, ValidateHeader, PreparedKeys, Granted, Preparable;
      if toPrepared { ok := PrepareFresh(setup, quiet); } else { ok := Release(quiet); }
    }

    // Inventory and attestation: nothing but the phase changes.
    method Attest(setup: Setup, quiet: bool) returns (ok: bool, ghost k: nat)
      requires Valid() && Observes(server.db, setup.before)
      modifies this`phase, this`trail
      ensures Valid() && k <= 2 && trail == old(trail) + ACTIVATION[..k]
      ensures ok ==> k == 2 && server.db == map[] && Excluded(cfg, server.acl, server.clients)
      ensures quiet ==> (ok <==> server.db == map[] && Excluded(cfg, server.acl, server.clients))
    {
      hide Excluded;
      k := 0;
      ok := Inventory(setup.before, quiet);
      if !ok { return; }
      ok := Transition(FullDbInventoryComplete, quiet);
      if !ok { return; }
      k := 1;
      assert ACTIVATION[..1] == [FullDbInventoryComplete];
      ok := Answer(quiet);                                // receipts re-verified
      if !ok { return; }
      ok := Transition(ExternallyAttested, quiet);
      if !ok { return; }
      k := 2;
      assert ACTIVATION[..2] == [FullDbInventoryComplete] + [ExternallyAttested];
      ok := VerifyExclusion(quiet);
      ok := ok && server.db == map[];
    }

    method ActivateSteps(toPrepared: bool, setup: Setup, quiet: bool) returns (ok: bool, ghost k: nat)
      requires Valid() && Observes(server.db, setup.before) && attempts == 0
      requires Observes(if setup.terminal then setup.settled else setup.written, setup.after)
      modifies this`phase, this`trail, this`attempts, this`apiCalls, this`drawn, this`header,
               this`prepared, this`issued, server`acl, server`db
      ensures Valid() && k <= 4 && attempts <= 1 && old(drawn) <= drawn
      ensures apiCalls <= old(apiCalls) + attempts && (apiCalls != old(apiCalls) ==> k >= 3)
      ensures server.acl != old(server.acl) ==> k == 4
      ensures server.acl == old(server.acl)
           || (old(drawn) < drawn && server.acl == Granted(old(server.acl), old(drawn)))
      ensures !ok ==> trail == old(trail) + ACTIVATION[..k]
      ensures apiCalls == old(apiCalls) ==> server.db == old(server.db) && header == old(header)
      ensures apiCalls != old(apiCalls) ==> old(server.db) == map[] && Excluded(cfg, old(server.acl), server.clients)
      ensures ok ==> attempts == 1 && apiCalls == old(apiCalls) + 1 && Activated(cfg, View(), toPrepared)
      ensures ok && toPrepared ==> trail == old(trail) + ACTIVATION && server.acl == old(server.acl)
      ensures ok && !toPrepared ==> trail == old(trail) + ACTIVATION + [DomainReleased]
      ensures ok && !toPrepared ==> server.acl == Granted(old(server.acl), old(drawn))
      ensures quiet ==> (ok <==> Activatable(cfg, old(View()), setup, toPrepared))
    {
      hide IsSnapshot, Observes, Excluded, Granted, PreparedKeys, ValidateHeader, Activated, ACTIVATION;
      hide HeaderFits, SetupFits;
      ok, k := Attest(setup, quiet);
      if ok {
        ok, k := ActivateOnce(setup, quiet);
        ActivationPrefix(old(trail), k);
        if ok { ok := Finish(toPrepared, setup, quiet); }
      }
    }

    // `_activate_fresh`
    method ActivateFresh(toPrepared: bool, setup: Setup, quiet: bool) returns (ok: bool)
      requires Valid() && Observes(server.db, setup.before)
      requires Observes(if setup.terminal then setup.settled else setup.written, setup.after)
      modifies this`phase, this`trail, this`attempts, this`apiCalls, this`drawn, this`header,
               this`prepared, this`issued, server`acl, server`db
      ensures Valid() && ActivateRel(cfg, old(View()), View(), toPrepared, ok)
      ensures quiet ==> (ok <==> old(phase) == Some(WritersIsolated) && old(attempts) == 0
                                 && Activatable(cfg, old(View()), setup, toPrepared))
    {
      hide Observes, Granted, Activated, Excluded, IsRun, Activatable;
      if phase != Some(WritersIsolated) || attempts != 0 { return false; }
      ghost var k;
      ok, k := ActivateSteps(toPrepared, setup, quiet);
      if !ok {
        assert trail == old(trail) + ACTIVATION[..k];
        assert ACTIVATION[..4] == ACTIVATION;
        var held := Transition(Hold, quiet);
        assert BrokenOff(old(trail), trail, k);
      }
    }

    // The part of `PreparedDomainIssuer.issue` that acts on the domain.
    method IssueRelease(obs: Observation, quiet: bool) returns (ok: bool)
      requires Valid() && Observes(server.db, obs)
      modifies this`phase, this`trail, this`drawn, this`issued, server`acl
      ensures Valid() && IssueRel(cfg, old(View()), View(), ok)
      ensures quiet ==> (ok <==> Issuable(cfg, old(View()), obs))
    {
      hide IsSnapshot, Observes, ValidateHeader, Excluded;
      if phase != Some(HeaderVerified) || prepared.None? || issued { return false; }
      ok := VerifyExclusion(quiet);
      if !ok { return; }
      if header.None? || !ValidateHeader(server.db, header.value, true) { return false; }
      var rows, read := SemanticSnapshot(cfg.order, server.db, obs);
      if read { SnapshotIs(cfg.order, server.db, rows, prepared.value); }
      if !read || rows != prepared.value { return false; }
      issued := true;
      ok := Release(quiet);
    }

    // `_verify_exclusion`, `_validate_header` and `_bijection` together.
    method Prove(quiet: bool) returns (ok: bool)
      requires Valid()
      ensures ok ==> Proven(cfg, server.acl, server.clients, header, server.db, floor)
      ensures quiet ==> (ok <==> Proven(cfg, server.acl, server.clients, header, server.db, floor))
    {
      ok := VerifyExclusion(quiet);
      if !ok { return; }
      if header.None? || !ValidateHeader(server.db, header.value, false) { return false; }
      ok := CheckBijection(cfg.decode(server.db), OwnersOf(server.db), floor);
    }

    method Checkpoint(obs: Observation, again: Observation, quiet: bool) returns (ok: bool)
      requires Valid() && Observes(server.db, obs) && Observes(server.db, again)
      modifies this`phase, this`trail, this`checkpoint, this`quiesced, this`floor
      ensures Valid()
      ensures ok ==> trail == old(trail) + [Quiescent] && floor == OwnersOf(server.db)
      ensures ok ==> Checkpointed(cfg, old(View()), View())
      ensures !ok ==> floor == old(floor)
      ensures !ok ==>
        || (trail == old(trail) && checkpoint == old(checkpoint) && quiesced == old(quiesced))
        || (trail == old(trail) + [Quiescent] && Checkpointed(cfg, old(View()), View()))
      ensures quiet ==> (ok <==> Proven(cfg, server.acl, server.clients, header, server.db, old(floor))
                                 && Complete(server.db, obs) && Complete(server.db, again))
    {
      hide Proven, IsSnapshot, Observes, OwnersOf, WithoutUser, IsRun;
      ok := Prove(quiet);
      if !ok { return; }
      var rows, read := SemanticSnapshot(cfg.order, server.db, obs);
      var rows', read' := SemanticSnapshot(cfg.order, server.db, again);
      if read && read' { SnapshotIs(cfg.order, server.db, rows, rows'); }
      if !read || !read' || rows != rows' { return false; }
      ok := Transition(Quiescent, quiet);
      if !ok { return; }
      checkpoint, quiesced := Some(rows), server.db;
      ok := Answer(quiet);                                // reading the owner floor
      if !ok { return; }
      floor := OwnersOf(server.db);
    }

    method CheckpointOrHold(obs: Observation, again: Observation, quiet: bool) returns (ok: bool)
      requires Valid() && Observes(server.db, obs) && Observes(server.db, again)
      modifies this`phase, this`trail, this`checkpoint, this`quiesced, this`floor
      ensures Valid() && Protected(cfg, old(View()), View(), ok)
      ensures quiet ==> (ok <==> Proven(cfg, server.acl, server.clients, header, server.db, old(floor))
                                 && Complete(server.db, obs) && Complete(server.db, again))
    {
      hide Proven, IsSnapshot, Observes, OwnersOf, IsRun, Complete;
      ok := Checkpoint(obs, again, quiet);
      if !ok { Enter(Hold); }
    }

    // `quiesce`
    method Quiesce(q: QuiesceSteps, obs: Observation, again: Observation, quiet: bool) returns (ok: bool)
      requires Valid() && Observes(server.db, obs) && Observes(server.db, again)
      modifies this`phase, this`trail, this`checkpoint, this`quiesced, this`floor, server`acl, server`clients
      ensures Valid() && QuiesceRel(cfg, old(View()), View(), q, ok)
      ensures quiet ==> (ok <==> Quiescible(cfg, old(View()), q, obs, again))
    {
      hide Proven, Complete;
      hide Protected, Observes, WithoutUser, IsRun;
      if phase != Some(DomainReleased) { return false; }
      // Outside the protected block: a failure here leaves the phase as it is.
      ok := server.AclDelUser(ScenarioUser, q.revoked);
      if !ok || !q.recorded || !q.clientClosed { return false; }
      ghost var m := View();
      ok := CheckpointOrHold(obs, again, quiet);
      ProtectedFrom(cfg, old(View()), m, View(), ok);
    }

    // `verify_retained`
    method VerifyRetained(obs: Observation, quiet: bool) returns (ok: bool)
      requires Valid() && Observes(server.db, obs)
      modifies this`phase, this`trail
      ensures Valid() && VerifyRel(cfg, old(View()), View(), ok)
      ensures quiet ==> (ok <==> Verifiable(cfg, old(View()), obs))
    {
      hide Proven, IsSnapshot, Observes, OwnersOf, WithoutUser, Complete;
      if phase != Some(Quiescent) && phase != Some(VerifiedRetained) { return false; }
      if checkpoint.None? { return false; }
      ok := Answer(quiet);                                // receipts re-verified
      if !ok { return; }
      ok := Prove(quiet);
      if !ok { return; }
      var rows, read := SemanticSnapshot(cfg.order, server.db, obs);
      if read { SnapshotIs(cfg.order, server.db, rows, checkpoint.value); }
      if !read || rows != checkpoint.value { return false; }
      ok := Transition(VerifiedRetained, quiet);
    }

    // `resume_verified`
    method ResumeVerified(obs: Observation, quiet: bool) returns (ok: bool)
      requires Valid() && Observes(server.db, obs)
      modifies this`phase, this`trail, this`drawn, server`acl, server`db
      ensures Valid() && ResumeRel(cfg, old(View()), View(), ok)
      ensures quiet ==> (ok <==> Verifiable(cfg, old(View()), obs))
    {
      hide Verifiable;
      hide VerifyRel, ReleaseRel, Observes;
      ok := VerifyRetained(obs, quiet);
      if !ok { return; }
      ghost var m := View();
      server.Expire();                                    // the lock is released and taken again
      ghost var n := View();
      ok := Release(quiet);
      assert VerifyRel(cfg, old(View()), m, true) && Expired(m, n) && ReleaseRel(n, View(), ok);
    }

    // `client`: the scenario's connection is handed out only while released.
    method Client(ownershipVerified: bool) returns (given: bool)
      requires Valid()
      ensures given <==> ClientGiven(View(), ownershipVerified)
    {
      given := phase == Some(DomainReleased) && ownershipVerified;
    }

    method StopServer(pidfd: Option<nat>, quiet: bool) returns (revoked: bool, stopped: bool)
      requires kernel.Valid()
      requires pidfd.Some? ==> pidfd.value in kernel.handles && kernel.handles[pidfd.value] == process.generation
      requires pidfd.None? ==> process.generation in kernel.returned
      modifies server`acl, server`clients, kernel`now, kernel`returned, kernel`sent
      ensures kernel.Valid() && OnlyTo(old(kernel.sent), kernel.sent, {process.generation})
      ensures RevokeOrNot(old(View()), View())
      ensures stopped ==> process.generation in kernel.returned
      ensures old(kernel.returned) <= kernel.returned && old(kernel.now) <= kernel.now
      ensures (quiet ==> revoked) && (pidfd.None? ==> stopped)
      ensures !stopped ==>
        |kernel.sent| == |old(kernel.sent)| + 2 || Vanished(kernel.run, old(kernel.now), kernel.now, process)
    {
      hide IsRun;
      revoked, stopped := true, true;
      if pidfd.Some? {
        var reply := SomeReply(quiet);
        revoked := server.AclDelUser(ScenarioUser, reply);   // a failure is collected, not raised
        stopped := kernel.Terminate(process, pidfd.value);
        UnreachableVanished(kernel.run, old(kernel.now), kernel.now, process);
      }
    }

    // The stopped server's storage, and the last receipt.
    method Discard(quiet: bool) returns (ok: bool)
      requires Valid()
      modifies this`phase, this`trail, server`acl, server`clients
      ensures quiet ==> ok
      ensures Valid() && server.acl == map[] && server.clients == map[]
      ensures trail == old(trail) + [if ok then Disposed else Hold]
    {
      server.Shutdown();
      ok := Answer(quiet);                                // own storage removed
      if ok { ok := Transition(Disposed, quiet); }
      if !ok { Enter(Hold); }
    }

    // `abort_owned` once the process has been identified.
    method AbortIdentified(pidfd: Option<nat>, quiet: bool) returns (ok: bool)
      requires Valid()
      requires pidfd.Some? ==> pidfd.value in kernel.handles && kernel.handles[pidfd.value] == process.generation
      requires pidfd.None? ==> process.generation in kernel.returned
      modifies this`phase, this`trail, server`acl, server`clients, kernel`now, kernel`returned, kernel`sent
      ensures Valid() && OnlyTo(old(kernel.sent), kernel.sent, {process.generation})
      ensures old(kernel.returned) <= kernel.returned && old(kernel.now) <= kernel.now
      ensures trail == old(trail) + [Hold] || trail == old(trail) + [Disposed]
      ensures RevokeOrNot(old(View()), View()) || Gone(View())
      ensures trail == old(trail) + [Disposed] ==> Gone(View()) && process.generation in kernel.returned
      ensures ok ==> trail == old(trail) + [Disposed]
      ensures quiet && pidfd.None? ==> ok
      ensures quiet && !ok ==>
        |kernel.sent| == |old(kernel.sent)| + 2 || Vanished(kernel.run, old(kernel.now), kernel.now, process)
    {
      hide IsRun, WithoutUser;
      var recorded := Answer(quiet);
      if !recorded { Enter(Hold); return false; }
      var clean := Answer(quiet);                         // clients closed; a failure is collected
      var revoked, stopped := StopServer(pidfd, quiet);
      if !stopped { Enter(Hold); return false; }
      ok := Discard(quiet);
      ok := ok && revoked && clean;
    }

    /** `abort_owned`: it ends HOLD or DISPOSED, and every signal goes to the process that was launched,
        whatever happens on the host between any two statements. */
    method AbortOwned(quiet: bool) returns (ok: bool)
      requires Valid()
      modifies this`phase, this`trail, server`acl, server`clients, kernel
      ensures Valid() && AbortRel(old(View()), View(), ok)
      ensures OnlyTo(old(kernel.sent), kernel.sent, {process.generation})
      ensures old(kernel.returned) <= kernel.returned
      ensures phase == Some(Disposed) && old(phase) != Some(Disposed) ==> process.generation in kernel.returned
      ensures quiet && old(phase) != Some(Disposed) && owned && process.generation in old(kernel.returned) ==> ok
      ensures quiet && old(phase) != Some(Disposed) && owned && !ok ==>
        || process.generation in kernel.returned || |kernel.sent| == |old(kernel.sent)| + 2
        || Vanished(kernel.run, old(kernel.now), kernel.now, process)
    {
      hide IsRun, WithoutUser;
      if phase == Some(Disposed) || !owned { return false; }
      var identified, pidfd := kernel.Identify(process, quiet);
      Enter(Hold);
      if !identified { return false; }
      ok := AbortIdentified(pidfd, quiet);
    }

    method Teardown(quiet: bool) returns (ok: bool)
      requires Valid()
      modifies this`phase, this`trail, server`acl, server`clients
      ensures Valid() && TeardownRel(old(View()), View(), ok) && (quiet ==> ok)
    {
      ok := Answer(quiet);                                // policy receipt, process identity, terminate and wait
      if !ok { return; }
      server.Shutdown();
      ok := Answer(quiet);                                // clients closed, own storage removed
      if !ok { return; }
      ok := Transition(Disposed, quiet);
    }

    // `dispose`
    method Dispose(q: QuiesceSteps, obs: Observation, again: Observation, quiet: bool) returns (ok: bool)
      requires Valid() && Observes(server.db, obs) && Observes(server.db, again)
      modifies this`phase, this`trail, this`checkpoint, this`quiesced, this`floor, server`acl, server`clients
      ensures Valid() && DisposeRel(cfg, old(View()), View(), q, ok)
      ensures quiet ==> (ok <==> old(phase) != Some(Disposed)
                                 && (old(phase) == Some(DomainReleased) ==>
                                       Quiescible(cfg, old(View()), q, obs, again)))
    {
      hide Quiescible;
      if phase == Some(Disposed) { return false; }
      if phase == Some(DomainReleased) {
        ok := Quiesce(q, obs, again, quiet);
        if !ok { return; }
        ghost var m := View();
        assert QuiesceRel(cfg, old(View()), m, q, true);
        ok := Teardown(quiet);
        assert TeardownRel(m, View(), ok);
      } else {
        ok := Teardown(quiet);
      }
    }
  }
}
