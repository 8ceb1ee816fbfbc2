/** The TASK_ADMIT / owner inventory check (scripts/acceptance_fresh_domain.py, `_bijection` and
    `_validate_header`), with the owner proof of the authority store it calls
    (hfa-core/src/hfa/authority/redis_persistence.py, `verify_task_owner`). */
module OwnerBijection {
  import opened Orders
  import opened Snapshot

  const HEADER := "hfa:authority:v1:task-owner-header"
  const OWNERS := "hfa:authority:v1:task-owners"
  const MAX_SAFE: nat := 9007199254740991   // 2**53 - 1

  // ----- canonical histories as the store decodes them

  datatype Aggregate = Aggregate(isRun: bool, run: string, task: string)
  datatype Operation = TaskAdmit | RunCreate | OtherOperation(name: string)
  datatype Record = Record(owner: Aggregate, op: Operation, ownerValue: string, rootTask: string, tenant: string)

  // One key of the canonical prefix, as SCAN yields it (in any order, possibly repeated).
  datatype Scanned =
    | Records(key: string, isHash: bool, records: seq<Record>)   // ...:operation-records
    | OtherKey(key: string)
  datatype Keyspace = Keyspace(operationRecords: string, others: set<string>)
  datatype Catalog = Catalog(scan: seq<Scanned>, history: map<Aggregate, seq<Record>>, keyspace: Aggregate -> Keyspace)

  function RunOf(run: string): Aggregate { Aggregate(true, run, "") }

  predicate Admits(r: Record) { r.op == TaskAdmit }
  predicate Creates(r: Record) { r.op == RunCreate }

  function RunCreates(ops: seq<Record>): (r: seq<Record>) {
    if ops == [] then []
    else if Creates(ops[0]) then [ops[0]] + RunCreates(ops[1..])
    else RunCreates(ops[1..])
  }

  // ----- what acceptance means, independently of the order of any loop

  ghost predicate Discovered(c: Catalog, a: Aggregate) {
    exists i, j ::
      0 <= i < |c.scan| && c.scan[i].Records? && 0 <= j < |c.scan[i].records| && c.scan[i].records[j].owner == a
  }

  ghost predicate ScanConsistent(c: Catalog, s: Scanned) {
    s.Records? ==>
      s.isHash && forall j :: 0 <= j < |s.records| ==> s.key == c.keyspace(s.records[j].owner).operationRecords
  }

  ghost predicate Admission(c: Catalog, a: Aggregate, i: int) {
    Discovered(c, a) && a in c.history && 0 <= i < |c.history[a]| && c.history[a][i].op == TaskAdmit
  }

  ghost function TaskAt(c: Catalog, a: Aggregate, i: int): string
    requires Admission(c, a, i)
  {
    c.history[a][i].owner.task
  }

  // The one RUN_CREATE of a history stands at position k.
  ghost predicate OnlyCreate(ops: seq<Record>, k: int) {
    0 <= k < |ops| && ops[k].op == RunCreate && forall j :: 0 <= j < |ops| && ops[j].op == RunCreate ==> j == k
  }

  // The admitted task's run was created exactly once, with this task as root and for the same tenant.
  ghost predicate ParentProves(c: Catalog, r: Record) {
    var parent := Aggregate(true, r.owner.run, "");
    && parent in c.history
    && exists k :: OnlyCreate(c.history[parent], k)
                   && c.history[parent][k].rootTask == r.owner.task && c.history[parent][k].tenant == r.tenant
  }

  lemma {:induction false} NoCreates(ops: seq<Record>)
    ensures RunCreates(ops) == [] <==> forall j :: 0 <= j < |ops| ==> ops[j].op != RunCreate
  {
    if ops != [] {
      NoCreates(ops[1..]);
      if forall j :: 0 <= j < |ops[1..]| ==> ops[1..][j].op != RunCreate {
        forall j | 1 <= j < |ops| ensures ops[j].op != RunCreate { assert ops[j] == ops[1..][j - 1]; }
      }
    }
  }

  // The filter keeps every RUN_CREATE: one is left exactly when the history has one.
  lemma {:induction false} OnlyCreateIsKept(ops: seq<Record>, k: int)
    requires OnlyCreate(ops, k)
    ensures RunCreates(ops) == [ops[k]]
  {
    var rest := ops[1..];
    assert forall j :: 1 <= j < |ops| ==> ops[j] == rest[j - 1];
    if k == 0 {
      assert forall j :: 0 <= j < |rest| ==> rest[j] == ops[j + 1];
      NoCreates(rest);
    } else {
      assert OnlyCreate(rest, k - 1) by {
        forall j | 0 <= j < |rest| && rest[j].op == RunCreate ensures j == k - 1 { assert rest[j] == ops[j + 1]; }
      }
      OnlyCreateIsKept(rest, k - 1);
    }
  }

  lemma {:induction false} OneKeptIsOnly(ops: seq<Record>) returns (k: int)
    requires |RunCreates(ops)| == 1
    ensures OnlyCreate(ops, k)
  {
    var rest := ops[1..];
    assert forall j :: 1 <= j < |ops| ==> ops[j] == rest[j - 1];
    if Creates(ops[0]) {
      NoCreates(rest);
      k := 0;
    } else {
      k := OneKeptIsOnly(rest);
      k := k + 1;
    }
  }

  lemma ParentFromCreates(c: Catalog, r: Record)
    ensures var parent := RunOf(r.owner.run);
      var creates := if parent in c.history then RunCreates(c.history[parent]) else [];
      ParentProves(c, r) <==> |creates| == 1 && creates[0].rootTask == r.owner.task && creates[0].tenant == r.tenant
  {
    var parent := RunOf(r.owner.run);
    if parent in c.history {
      var ops := c.history[parent];
      if |RunCreates(ops)| == 1 {
        var k := OneKeptIsOnly(ops);
        OnlyCreateIsKept(ops, k);
      }
      forall k | OnlyCreate(ops, k) ensures RunCreates(ops) == [ops[k]] { OnlyCreateIsKept(ops, k); }
    }
  }

  function KnownKeys(c: Catalog, a: Aggregate): set<string> {
    {c.keyspace(a).operationRecords} + c.keyspace(a).others
  }

  ghost predicate Accounted(c: Catalog, key: string) {
    || key == HEADER || key == OWNERS
    || exists a :: Discovered(c, a) && (key == c.keyspace(a).operationRecords || key in c.keyspace(a).others)
  }

  ghost predicate Scannable(c: Catalog) {
    forall i :: 0 <= i < |c.scan| ==> ScanConsistent(c, c.scan[i])
  }

  ghost predicate HistoriesPresent(c: Catalog) {
    forall a :: Discovered(c, a) ==> a in c.history
  }

  ghost predicate AdmissionsUnique(c: Catalog) {
    forall a, i, b, j ::
      Admission(c, a, i) && Admission(c, b, j) && TaskAt(c, a, i) == TaskAt(c, b, j) ==> a == b && i == j
  }

  ghost predicate AdmissionsOwned(c: Catalog, owners: map<string, string>) {
    forall a, i :: Admission(c, a, i) ==>
      TaskAt(c, a, i) in owners && owners[TaskAt(c, a, i)] == c.history[a][i].ownerValue
  }

  ghost predicate OwnersAdmitted(c: Catalog, owners: map<string, string>) {
    forall t :: t in owners ==> exists a, i :: Admission(c, a, i) && TaskAt(c, a, i) == t
  }

  ghost predicate ParentsProve(c: Catalog) {
    forall a, i :: Admission(c, a, i) ==> ParentProves(c, c.history[a][i])
  }

  ghost predicate FloorKept(floor: map<string, string>, owners: map<string, string>) {
    forall t :: t in floor ==> t in owners && owners[t] == floor[t]
  }

  ghost predicate AllAccounted(c: Catalog) {
    forall i :: 0 <= i < |c.scan| ==> Accounted(c, c.scan[i].key)
  }

  ghost predicate Bijective(c: Catalog, owners: map<string, string>, floor: map<string, string>) {
    && Scannable(c) && HistoriesPresent(c)
    && AdmissionsUnique(c) && AdmissionsOwned(c, owners) && OwnersAdmitted(c, owners)
    && FloorKept(floor, owners) && ParentsProve(c) && AllAccounted(c)
  }

  // ----- consequences

  // Two admitted tasks never share a run: the run has one RUN_CREATE and it names one root task.
  lemma AdmittedRunsDistinct(c: Catalog, owners: map<string, string>, floor: map<string, string>,
                             a: Aggregate, i: int, b: Aggregate, j: int)
    requires Bijective(c, owners, floor)
    requires Admission(c, a, i) && Admission(c, b, j)
    requires c.history[a][i].owner.run == c.history[b][j].owner.run
    ensures TaskAt(c, a, i) == TaskAt(c, b, j) && a == b && i == j
  {
    assert ParentProves(c, c.history[a][i]) && ParentProves(c, c.history[b][j]);
  }

  ghost function AdmissionSites(c: Catalog): set<(Aggregate, int)> {
    set a, i | a in c.history && 0 <= i < |c.history[a]| && Admission(c, a, i) :: (a, i)
  }

  ghost function SiteTask(c: Catalog, site: (Aggregate, int)): string {
    if Admission(c, site.0, site.1) then TaskAt(c, site.0, site.1) else ""
  }

  // As many TASK_ADMIT records as owners, and each owner has exactly one.
  lemma AdmissionCountEqualsOwnerCount(c: Catalog, owners: map<string, string>, floor: map<string, string>)
    requires Bijective(c, owners, floor)
    ensures |AdmissionSites(c)| == |owners|
    ensures forall t :: t in owners ==> exists a, i :: Admission(c, a, i) && TaskAt(c, a, i) == t
    ensures forall a, i, b, j ::
      Admission(c, a, i) && Admission(c, b, j) && TaskAt(c, a, i) == TaskAt(c, b, j) ==> a == b && i == j
  {
    var sites := AdmissionSites(c);
    var f := (s: (Aggregate, int)) => SiteTask(c, s);
    var image := set s | s in sites :: f(s);
    forall t | t in owners.Keys ensures t in image {
      var a, i :| Admission(c, a, i) && TaskAt(c, a, i) == t;
      assert (a, i) in sites && f((a, i)) == t;
    }
    forall t | t in image ensures t in owners.Keys {
      var s :| s in sites && f(s) == t;
      assert Admission(c, s.0, s.1);
    }
    assert image == owners.Keys;
    InjectiveImage(sites, owners.Keys, f);
  }

  // ----- the checking loops

  ghost predicate NamedBy(s: Scanned, n: int, a: Aggregate) {
    s.Records? && exists j :: 0 <= j < n && j < |s.records| && s.records[j].owner == a
  }

  ghost predicate Names(s: Scanned, a: Aggregate) {
    s.Records? && NamedBy(s, |s.records|, a)
  }

  method CollectOne(c: Catalog, s: Scanned, ids0: seq<Aggregate>) returns (ids: seq<Aggregate>, ok: bool)
    requires s.Records? && s.isHash && Distinct(ids0)
    ensures ok <==> ScanConsistent(c, s)
    ensures ok ==> Distinct(ids) && forall a :: a in ids <==> a in ids0 || Names(s, a)
  {
    ids := ids0;
    var j := 0;
    while j < |s.records|
      invariant 0 <= j <= |s.records| && Distinct(ids)
      invariant forall k :: 0 <= k < j ==> s.key == c.keyspace(s.records[k].owner).operationRecords
      invariant forall a :: a in ids <==> a in ids0 || NamedBy(s, j, a)
    {
      if s.key != c.keyspace(s.records[j].owner).operationRecords { return [], false; }
      ghost var before := ids;
      if s.records[j].owner !in ids { ids := ids + [s.records[j].owner]; }
      forall a ensures a in ids <==> a in ids0 || NamedBy(s, j + 1, a) {
        assert a in ids <==> a in before || a == s.records[j].owner;
        assert NamedBy(s, j + 1, a) <==> NamedBy(s, j, a) || a == s.records[j].owner;
      }
      j := j + 1;
    }
    ok := true;
  }

  // First pass: every canonical record must sit under its own key; its aggregates are the identities.
  method CollectIdentities(c: Catalog) returns (ids: seq<Aggregate>, ok: bool)
    ensures ok <==> Scannable(c)
    ensures ok ==> Distinct(ids) && forall a :: a in ids <==> Discovered(c, a)
  {
    ids := [];
    ok := true;
    var i := 0;
    while i < |c.scan|
      invariant 0 <= i <= |c.scan| && Distinct(ids)
      invariant forall k :: 0 <= k < i ==> ScanConsistent(c, c.scan[k])
      invariant forall a :: a in ids <==> exists k :: 0 <= k < i && Names(c.scan[k], a)
    {
      if c.scan[i].Records? {
        if !c.scan[i].isHash { assert !ScanConsistent(c, c.scan[i]); return [], false; }
        ids, ok := CollectOne(c, c.scan[i], ids);
        if !ok { return [], false; }
      }
      i := i + 1;
    }
    forall a ensures a in ids <==> Discovered(c, a) {
      if Discovered(c, a) {
        var k, j :| 0 <= k < |c.scan| && c.scan[k].Records? &&
          0 <= j < |c.scan[k].records| && c.scan[k].records[j].owner == a;
        assert Names(c.scan[k], a);
      }
    }
  }

  // Sites reached after `n` whole aggregates and `m` operations of the next one.
  ghost predicate Seen(c: Catalog, ids: seq<Aggregate>, n: int, m: int, a: Aggregate, i: int) {
    Admission(c, a, i) && exists k :: 0 <= k < |ids| && ids[k] == a && (k < n || (k == n && i < m))
  }

  ghost predicate AdmittedSoFar(c: Catalog, ids: seq<Aggregate>, owners: map<string, string>, n: int, m: int,
                                admissions: map<string, Record>) {
    && (forall a, i :: Seen(c, ids, n, m, a, i) ==>
          && TaskAt(c, a, i) in admissions && admissions[TaskAt(c, a, i)] == c.history[a][i]
          && TaskAt(c, a, i) in owners && owners[TaskAt(c, a, i)] == c.history[a][i].ownerValue)
    && (forall a, i, b, j :: Seen(c, ids, n, m, a, i) && Seen(c, ids, n, m, b, j) && TaskAt(c, a, i) == TaskAt(c, b, j)
          ==> a == b && i == j)
    && (forall t :: t in admissions ==> exists a, i :: Seen(c, ids, n, m, a, i) && TaskAt(c, a, i) == t)
  }

  ghost predicate Identities(c: Catalog, ids: seq<Aggregate>) {
    Distinct(ids) && forall a :: a in ids <==> Discovered(c, a)
  }

  lemma SeenStep(c: Catalog, ids: seq<Aggregate>, n: nat, m: nat, a: Aggregate, i: int)
    requires Identities(c, ids) && n < |ids| && ids[n] in c.history && m < |c.history[ids[n]]|
    ensures Seen(c, ids, n, m + 1, a, i) <==>
      Seen(c, ids, n, m, a, i) || (a == ids[n] && i == m && Admits(c.history[ids[n]][m]))
  {
    assert ids[n] in ids;
  }

  lemma SiteIsAdmission(c: Catalog, ids: seq<Aggregate>, n: nat, m: nat)
    requires Identities(c, ids) && n < |ids| && ids[n] in c.history && m < |c.history[ids[n]]|
    requires Admits(c.history[ids[n]][m])
    ensures Admission(c, ids[n], m)
  {
    assert ids[n] in ids;
  }

  lemma DuplicateRefutes(c: Catalog, ids: seq<Aggregate>, owners: map<string, string>,
                         n: nat, m: nat, adm: map<string, Record>)
    requires Identities(c, ids) && n < |ids| && ids[n] in c.history && m < |c.history[ids[n]]|
    requires AdmittedSoFar(c, ids, owners, n, m, adm)
    requires Admits(c.history[ids[n]][m]) && c.history[ids[n]][m].owner.task in adm
    ensures !AdmissionsUnique(c)
  {
    hide Discovered;
    SiteIsAdmission(c, ids, n, m);
    var a, i :| Seen(c, ids, n, m, a, i) && TaskAt(c, a, i) == c.history[ids[n]][m].owner.task;
    assert !(a == ids[n] && i == m);
  }

  lemma UnownedRefutes(c: Catalog, ids: seq<Aggregate>, owners: map<string, string>, n: nat, m: nat)
    requires Identities(c, ids) && n < |ids| && ids[n] in c.history && m < |c.history[ids[n]]|
    requires var r := c.history[ids[n]][m];
      Admits(r) && (r.owner.task !in owners || owners[r.owner.task] != r.ownerValue)
    ensures !AdmissionsOwned(c, owners)
  {
    SiteIsAdmission(c, ids, n, m);
  }

  lemma AdmitNone(c: Catalog, ids: seq<Aggregate>, owners: map<string, string>,
                  n: nat, m: nat, adm: map<string, Record>)
    requires Identities(c, ids) && n < |ids| && ids[n] in c.history && m < |c.history[ids[n]]|
    requires AdmittedSoFar(c, ids, owners, n, m, adm) && !Admits(c.history[ids[n]][m])
    ensures AdmittedSoFar(c, ids, owners, n, m + 1, adm)
  {
    forall a, i ensures Seen(c, ids, n, m + 1, a, i) <==> Seen(c, ids, n, m, a, i) { SeenStep(c, ids, n, m, a, i); }
  }

  lemma AdmitOne(c: Catalog, ids: seq<Aggregate>, owners: map<string, string>, n: nat, m: nat, adm: map<string, Record>)
    requires Identities(c, ids) && n < |ids| && ids[n] in c.history && m < |c.history[ids[n]]|
    requires AdmittedSoFar(c, ids, owners, n, m, adm)
    requires var r := c.history[ids[n]][m];
      Admits(r) && r.owner.task !in adm && r.owner.task in owners && owners[r.owner.task] == r.ownerValue
    ensures AdmittedSoFar(c, ids, owners, n, m + 1, adm[c.history[ids[n]][m].owner.task := c.history[ids[n]][m]])
  {
    hide Discovered, Distinct;
    var r := c.history[ids[n]][m];
    forall a, i ensures Seen(c, ids, n, m + 1, a, i) <==> Seen(c, ids, n, m, a, i) || (a == ids[n] && i == m) {
      SeenStep(c, ids, n, m, a, i);
    }
    assert Seen(c, ids, n, m + 1, ids[n], m);
  }

  // Second pass over one aggregate's history.
  method AdmitFrom(c: Catalog, ids: seq<Aggregate>, owners: map<string, string>, n: nat, adm0: map<string, Record>)
    returns (admissions: map<string, Record>, ok: bool)
    requires Identities(c, ids) && n < |ids| && ids[n] in c.history
    requires AdmittedSoFar(c, ids, owners, n, 0, adm0)
    ensures ok ==> AdmittedSoFar(c, ids, owners, n, |c.history[ids[n]]|, admissions)
    ensures !ok ==> !AdmissionsUnique(c) || !AdmissionsOwned(c, owners)
  {
    admissions := adm0;
    var m := 0;
    var ops := c.history[ids[n]];
    while m < |ops|
      invariant 0 <= m <= |ops|
      invariant AdmittedSoFar(c, ids, owners, n, m, admissions)
    {
      var r := ops[m];
      if Admits(r) {
        if r.owner.task in admissions {
          DuplicateRefutes(c, ids, owners, n, m, admissions);
          return map[], false;
        }
        if r.owner.task !in owners || owners[r.owner.task] != r.ownerValue {
          UnownedRefutes(c, ids, owners, n, m);
          return map[], false;
        }
        AdmitOne(c, ids, owners, n, m, admissions);
        admissions := admissions[r.owner.task := r];
      } else {
        AdmitNone(c, ids, owners, n, m, admissions);
      }
      m := m + 1;
    }
    ok := true;
  }

  lemma NextAggregate(c: Catalog, ids: seq<Aggregate>, owners: map<string, string>, n: nat, adm: map<string, Record>)
    requires Identities(c, ids) && n < |ids| && ids[n] in c.history
    requires AdmittedSoFar(c, ids, owners, n, |c.history[ids[n]]|, adm)
    ensures AdmittedSoFar(c, ids, owners, n + 1, 0, adm)
  {
    forall a, i ensures Seen(c, ids, n + 1, 0, a, i) <==> Seen(c, ids, n, |c.history[ids[n]]|, a, i) { }
  }

  ghost predicate IndexesAdmissions(c: Catalog, admissions: map<string, Record>) {
    && (forall a, i :: Admission(c, a, i) ==>
          TaskAt(c, a, i) in admissions && admissions[TaskAt(c, a, i)] == c.history[a][i])
    && (forall t :: t in admissions ==> exists a, i :: Admission(c, a, i) && TaskAt(c, a, i) == t)
  }

  lemma AllSeen(c: Catalog, ids: seq<Aggregate>, owners: map<string, string>, adm: map<string, Record>)
    requires Identities(c, ids) && forall k :: 0 <= k < |ids| ==> ids[k] in c.history
    requires AdmittedSoFar(c, ids, owners, |ids|, 0, adm)
    ensures HistoriesPresent(c) && AdmissionsUnique(c) && AdmissionsOwned(c, owners) && IndexesAdmissions(c, adm)
  {
    forall a, i ensures Admission(c, a, i) <==> Seen(c, ids, |ids|, 0, a, i) {
      if Admission(c, a, i) { assert a in ids; }
    }
    forall a | Discovered(c, a) ensures a in c.history { assert a in ids; }
  }

  method CollectAdmissions(c: Catalog, ids: seq<Aggregate>, owners: map<string, string>)
    returns (admissions: map<string, Record>, ok: bool)
    requires Identities(c, ids)
    ensures ok <==> HistoriesPresent(c) && AdmissionsUnique(c) && AdmissionsOwned(c, owners)
    ensures ok ==> IndexesAdmissions(c, admissions)
  {
    admissions := map[];
    var n := 0;
    while n < |ids|
      invariant 0 <= n <= |ids|
      invariant forall k :: 0 <= k < n ==> ids[k] in c.history
      invariant AdmittedSoFar(c, ids, owners, n, 0, admissions)
    {
      assert ids[n] in ids;
      if ids[n] !in c.history { return map[], false; }
      admissions, ok := AdmitFrom(c, ids, owners, n, admissions);
      if !ok { return map[], false; }
      NextAggregate(c, ids, owners, n, admissions);
      n := n + 1;
    }
    AllSeen(c, ids, owners, admissions);
    ok := true;
  }

  method CheckParents(c: Catalog, admissions: map<string, Record>) returns (ok: bool)
    ensures ok <==> forall t :: t in admissions ==> ParentProves(c, admissions[t])
  {
    var rest := admissions.Keys;
    while rest != {}
      invariant rest <= admissions.Keys
      invariant forall t :: t in admissions && t !in rest ==> ParentProves(c, admissions[t])
      decreases rest
    {
      var t :| t in rest;
      var r := admissions[t];
      ParentFromCreates(c, r);
      var parent := RunOf(r.owner.run);
      var creates := if parent in c.history then RunCreates(c.history[parent]) else [];
      if |creates| != 1 || creates[0].rootTask != r.owner.task || creates[0].tenant != r.tenant { return false; }
      rest := rest - {t};
    }
    ok := true;
  }

  method CheckAccounted(c: Catalog, ids: seq<Aggregate>) returns (ok: bool)
    requires Identities(c, ids)
    ensures ok <==> AllAccounted(c)
  {
    var known := {HEADER, OWNERS};
    var n := 0;
    while n < |ids|
      invariant 0 <= n <= |ids|
      invariant forall key :: key in known <==>
        key == HEADER || key == OWNERS || exists k :: 0 <= k < n && key in KnownKeys(c, ids[k])
    {
      known := known + KnownKeys(c, ids[n]);
      n := n + 1;
    }
    forall key ensures key in known <==> Accounted(c, key) {
      if exists a :: Discovered(c, a) && (key == c.keyspace(a).operationRecords || key in c.keyspace(a).others) {
        var a :| Discovered(c, a) && (key == c.keyspace(a).operationRecords || key in c.keyspace(a).others);
        assert a in ids;
      }
      if exists k :: 0 <= k < |ids| && key in KnownKeys(c, ids[k]) {
        var k :| 0 <= k < |ids| && key in KnownKeys(c, ids[k]);
        assert ids[k] in ids;
      }
    }
    var i := 0;
    while i < |c.scan|
      invariant 0 <= i <= |c.scan|
      invariant forall k :: 0 <= k < i ==> Accounted(c, c.scan[k].key)
    {
      if c.scan[i].key !in known { return false; }
      i := i + 1;
    }
    ok := true;
  }

  predicate FloorHolds(floor: map<string, string>, owners: map<string, string>): (r: bool)
    ensures r <==> FloorKept(floor, owners)
  {
    forall t :: t in floor ==> t in owners && owners[t] == floor[t]
  }

  lemma PairingIsAdmission(c: Catalog, owners: map<string, string>, admissions: map<string, Record>)
    requires IndexesAdmissions(c, admissions) && AdmissionsOwned(c, owners)
    ensures owners.Keys == admissions.Keys <==> OwnersAdmitted(c, owners)
  {
    if OwnersAdmitted(c, owners) {
      forall t ensures t in owners.Keys <==> t in admissions.Keys {
        if t in owners { var a, i :| Admission(c, a, i) && TaskAt(c, a, i) == t; }
        if t in admissions { var a, i :| Admission(c, a, i) && TaskAt(c, a, i) == t; }
      }
    }
    if owners.Keys == admissions.Keys {
      forall t | t in owners ensures exists a, i :: Admission(c, a, i) && TaskAt(c, a, i) == t {
        assert t in admissions.Keys;
      }
    }
  }

  lemma ParentsOverAdmissions(c: Catalog, admissions: map<string, Record>)
    requires IndexesAdmissions(c, admissions)
    ensures (forall t :: t in admissions ==> ParentProves(c, admissions[t])) <==> ParentsProve(c)
  {
    if ParentsProve(c) {
      forall t | t in admissions ensures ParentProves(c, admissions[t]) {
        var a, i :| Admission(c, a, i) && TaskAt(c, a, i) == t;
      }
    }
    if forall t :: t in admissions ==> ParentProves(c, admissions[t]) {
      forall a, i | Admission(c, a, i) ensures ParentProves(c, c.history[a][i]) {
        assert admissions[TaskAt(c, a, i)] == c.history[a][i];
      }
    }
  }

  /** `_bijection`: accepts exactly the inventories in which owners and admissions are in bijection,
      every admission is proved by its run, no checkpointed owner changed and no key is unexplained. */
  method CheckBijection(c: Catalog, owners: map<string, string>, floor: map<string, string>) returns (ok: bool)
    ensures ok <==> Bijective(c, owners, floor)
  {
    var ids, scannable := CollectIdentities(c);
    if !scannable { return false; }
    var admissions, admitted := CollectAdmissions(c, ids, owners);
    if !admitted { return false; }
    if owners.Keys != admissions.Keys { PairingIsAdmission(c, owners, admissions); return false; }
    PairingIsAdmission(c, owners, admissions);
    if !FloorHolds(floor, owners) { return false; }
    ok := CheckParents(c, admissions);
    ParentsOverAdmissions(c, admissions);
    if !ok { return false; }
    ok := CheckAccounted(c, ids);
  }

  // ----- the owner header

  predicate Digits(s: string) { forall i :: 0 <= i < |s| ==> '0' <= s[i] <= '9' }

  predicate CanonicalCount(s: string) {
    s != "" && Digits(s) && (s[0] == '0' ==> s == "0")
  }

  function Decimal(s: string): nat
    requires Digits(s)
  {
    if s == "" then 0 else 10 * Decimal(s[..|s| - 1]) + (s[|s| - 1] as int - '0' as int)
  }

  function OwnersOf(db: Database): map<string, string> {
    if OWNERS in db && db[OWNERS].value.HashV? then db[OWNERS].value.hash else map[]
  }

  function CountText(db: Database): string {
    if HEADER in db && db[HEADER].value.HashV? && "owner_count" in db[HEADER].value.hash
    then db[HEADER].value.hash["owner_count"] else ""
  }

  predicate HeaderUnchanged(db: Database, header: map<string, string>) {
    && HEADER in db && db[HEADER].value.HashV? && db[HEADER].expiry == -1
    && db[HEADER].value.hash.Keys == header.Keys
    && forall k :: k in header && k != "owner_count" ==> db[HEADER].value.hash[k] == header[k]
  }

  /** `_validate_header`: on acceptance the header's count is the number of owners, and neither
      key can expire. */
  predicate ValidateHeader(db: Database, header: map<string, string>, isFresh: bool): (ok: bool)
    ensures ok ==> CanonicalCount(CountText(db)) && Decimal(CountText(db)) == |OwnersOf(db)|
    ensures ok && isFresh ==> OwnersOf(db) == map[]
    ensures ok ==> OWNERS in db ==> db[OWNERS].expiry == -1
  {
    && HeaderUnchanged(db, header)
    && CanonicalCount(CountText(db)) && Decimal(CountText(db)) <= MAX_SAFE
    && (isFresh ==> CountText(db) == "0")
    && ((OWNERS !in db && CountText(db) == "0")
        || (OWNERS in db && db[OWNERS].value.HashV? && db[OWNERS].expiry == -1
            && |db[OWNERS].value.hash| == Decimal(CountText(db))))
  }

  // ----- the header read as a number

  function Digit(n: nat): char
    requires n < 10
  {
    "0123456789"[n]
  }

  // The decimal text of a number, as `str` writes it.
  function Render(n: nat): string {
    if n < 10 then [Digit(n)] else Render(n / 10) + [Digit(n % 10)]
  }

  lemma DigitValue(n: nat)
    requires n < 10
    ensures '0' <= Digit(n) <= '9' && Digit(n) as int - '0' as int == n && (Digit(n) == '0' <==> n == 0)
  { }

  lemma DigitOf(c: char)
    requires '0' <= c <= '9'
    ensures 0 <= c as int - '0' as int < 10 && Digit(c as int - '0' as int) == c
  {
    DigitValue(c as int - '0' as int);
  }

  lemma {:induction false} RenderThenDecimal(n: nat)
    ensures CanonicalCount(Render(n)) && Decimal(Render(n)) == n && (Render(n)[0] == '0' <==> n == 0)
  {
    var r := Render(n);
    DigitValue(n % 10);
    assert Decimal("") == 0;
    if n < 10 {
      assert r[..0] == "";
    } else {
      RenderThenDecimal(n / 10);
      assert r[..|r| - 1] == Render(n / 10);
    }
  }

  lemma {:induction false} DecimalThenRender(s: string)
    requires CanonicalCount(s)
    ensures Render(Decimal(s)) == s && (s != "0" ==> Decimal(s) > 0)
  {
    var init, last := s[..|s| - 1], s[|s| - 1];
    DigitOf(last);
    assert s == init + [last];
    if init != "" {
      DecimalThenRender(init);
      assert Decimal(s) / 10 == Decimal(init) && Decimal(s) % 10 == last as int - '0' as int;
    }
  }

  // The stored header is the recorded one apart from its count, and cannot expire.
  ghost predicate HeaderIntact(db: Database, header: map<string, string>) {
    && HEADER in db && db[HEADER].value.HashV? && db[HEADER].expiry == -1
    && (forall k :: k in db[HEADER].value.hash <==> k in header)
    && (forall k :: k in header && k != "owner_count" ==> db[HEADER].value.hash[k] == header[k])
  }

  // The owners hash, if there is one, cannot expire; otherwise there are no owners.
  ghost predicate OwnersIntact(db: Database) {
    OWNERS in db ==> db[OWNERS].value.HashV? && db[OWNERS].expiry == -1
  }

  /** Accepted exactly when header and owners are intact and the header's count is the decimal text of the
      number of owners, which fits a double exactly; and is "0" for a fresh domain. */
  lemma HeaderAcceptedExactly(db: Database, header: map<string, string>, isFresh: bool)
    ensures ValidateHeader(db, header, isFresh) <==>
      && HeaderIntact(db, header) && OwnersIntact(db) && "owner_count" in db[HEADER].value.hash
      && |OwnersOf(db)| < 9007199254740992 && db[HEADER].value.hash["owner_count"] == Render(|OwnersOf(db)|)
      && (isFresh ==> OwnersOf(db) == map[])
  {
    var n := |OwnersOf(db)|;
    RenderThenDecimal(n);
    assert Decimal("0") == 10 * Decimal("") + 0;
    if CanonicalCount(CountText(db)) { DecimalThenRender(CountText(db)); }
    assert HeaderIntact(db, header) <==> HeaderUnchanged(db, header);
    assert Render(0) == "0";
  }
}
