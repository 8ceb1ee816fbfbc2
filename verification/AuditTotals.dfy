/** scripts/authority_audit.py: the audit run, its risk accounting, the heatmap and the class counts. */
module AuditTotals {
  import opened Results
  import opened Orders
  import opened AuditVisitor

  // ----- sums over findings

  function Sum(fs: seq<Finding>, w: Finding -> nat): nat {
    if fs == [] then 0 else Sum(fs[..|fs| - 1], w) + w(fs[|fs| - 1])
  }

  function One(b: bool): nat { if b then 1 else 0 }

  function Ones(p: Finding -> bool): Finding -> nat { (f: Finding) => One(p(f)) }

  function Count(fs: seq<Finding>, p: Finding -> bool): nat { Sum(fs, Ones(p)) }

  function OfSeverity(s: Severity): Finding -> bool { (f: Finding) => f.severity == s }

  function OfClass(c: string): Finding -> bool { (f: Finding) => f.severity == Suspicious && f.suspiciousClass == c }

  function RiskOf(): Finding -> nat { (f: Finding) => f.riskScore }

  function TotalRisk(fs: seq<Finding>): nat { Sum(fs, RiskOf()) }

  function NoiseCount(fs: seq<Finding>): nat { Count(fs, OfClass(FALSE_POSITIVE)) }
  function TelemetryCount(fs: seq<Finding>): nat { Count(fs, OfClass(OBSERVABILITY)) }
  function LuaProjectionCount(fs: seq<Finding>): nat { Count(fs, OfClass(LUA_PROJECTION)) }

  predicate RiskBearing(f: Finding) {
    f.severity == Suspicious && f.suspiciousClass !in { FALSE_POSITIVE, OBSERVABILITY, LUA_PROJECTION }
  }

  function RiskBearingCount(fs: seq<Finding>): nat { Count(fs, f => RiskBearing(f)) }

  // Banned by the visitor, not for an unreadable or unparsable file, in a critical file.
  predicate CriticalBan(f: Finding) {
    f.severity == Banned && Critical(f.path) && f.category != Syntax && f.category != LuaRead
  }

  function CriticalBanCount(fs: seq<Finding>): nat { Count(fs, f => CriticalBan(f)) }

  // ----- the run

  datatype PythonFile = PythonFile(path: string, source: seq<string>, tree: Option<Node>)
  datatype LuaFile = LuaFile(path: string, lines: Option<seq<string>>)
  datatype Summary = Summary(allowed: nat, suspicious: nat, banned: nat, scanned: nat, findings: seq<Finding>)

  const LUA_MUTATING_COMMANDS := {
    "set", "hset", "del", "delete", "xadd", "zadd", "zrem", "sadd", "lpush",
    "rpush", "hincrby", "incr", "decr", "expire" }

  function LuaLine(lex: Lexicon, path: string, lines: seq<string>, i: nat): seq<Finding>
    requires i < |lines|
  {
    var line := lines[i];
    var cmd := lex.luaCommand(line);
    if cmd.None? || cmd.value !in LUA_MUTATING_COMMANDS then []
    else
      var call := "redis.call('" + cmd.value + "', ...)";
      var severity := if cmd.value == "xadd" then Allowed else Suspicious;
      var reason := if cmd.value == "xadd" then LuaAppend
            else if lex.stateish(line, line, line) then LuaStateLike else LuaWrite;
      var context := lex.strip(line);
      var cls := SuspiciousClass(lex, severity, path, "<lua>", LuaScriptMutation, call, context, reason);
      [Finding(severity, path, i + 1, call, LuaScriptMutation, reason, context, "<lua>", cls,
               RiskScore(severity, false, cls))]
  }

  // The weight the accounting rule gives to a finding, from its severity, class, path and category only.
  function Weight(f: Finding): nat {
    match f.severity
    case Allowed => 0
    case Banned => 100 + 25 * One(CriticalBan(f))
    case Suspicious =>
      5 * One(RiskBearing(f)) + One(f.suspiciousClass == OBSERVABILITY) + One(f.suspiciousClass == LUA_PROJECTION)
  }

  ghost predicate Weighed(fs: seq<Finding>) { forall i :: 0 <= i < |fs| ==> fs[i].riskScore == Weight(fs[i]) }

  lemma ClassNamesDiffer()
    ensures FALSE_POSITIVE != OBSERVABILITY && FALSE_POSITIVE != LUA_PROJECTION && OBSERVABILITY != LUA_PROJECTION
  {
    assert FALSE_POSITIVE[0] == 'f' && OBSERVABILITY[0] == 'o' && LUA_PROJECTION[0] == 'l';
  }

  lemma VisitorCategory(scope: Scope, stack: seq<string>, site: CallSite)
    requires Matches(site)
    ensures FindingFor(scope, stack, site).category !in { Syntax, LuaRead, LuaScriptMutation }
  {
    hide MUTATION_CALLS, Classify, Critical, ContainsAny, IsPipelineCommit, Matches;
    hide SourceLine, CurrentFunction, RiskScore;
  }

  lemma VisitorWeighs(scope: Scope, stack: seq<string>, site: CallSite)
    requires Matches(site)
    ensures FindingFor(scope, stack, site).riskScore == Weight(FindingFor(scope, stack, site))
  {
    VisitorCategory(scope, stack, site);
    if Critical(scope.path) { CriticalIsDecided(scope, stack, site); }
    ClassNamesDiffer();
    hide MUTATION_CALLS, Critical, Classify, Categorize, IsPipelineCommit, Matches, SourceLine, CurrentFunction;
    hide FALSE_POSITIVE, OBSERVABILITY, LUA_PROJECTION, NOT_APPLICABLE;
  }

  lemma ReportWeighs(scope: Scope, stack: seq<string>, node: Node)
    ensures Weighed(FullReport(scope, stack, node))
  {
    hide Weight, FindingFor, CallsIn, Matches, Subtree;
    AllMatching(node);
    forall i | 0 <= i < |CallsIn(node)|
      ensures FullReport(scope, stack, node)[i].riskScore == Weight(FullReport(scope, stack, node)[i]) {
      var pos := CallsIn(node)[i];
      VisitorWeighs(scope, stack + Enclosing(node, pos), Subtree(node, pos).value.site);
    }
  }

  lemma LuaWeighs(lex: Lexicon, path: string, lines: seq<string>, i: nat)
    requires i < |lines|
    ensures Weighed(LuaLine(lex, path, lines, i))
  {
    ClassNamesDiffer();
    hide Critical, LUA_MUTATING_COMMANDS, FALSE_POSITIVE, OBSERVABILITY, LUA_PROJECTION, NOT_APPLICABLE;
  }

  function ParseFailure(path: string): Finding {
    Finding(Banned, path, 0, "parse", Syntax, Unparsable, "", "<module>", NOT_APPLICABLE, 100)
  }

  // What one file contributes, and what a list of files does.
  ghost function PythonFindings(lex: Lexicon, file: PythonFile): seq<Finding> {
    match file.tree
    case None => [ParseFailure(file.path)]
    case Some(tree) => FullReport(Scope(lex, file.path, file.source), [], tree)
  }

  function ReadFailure(path: string): Finding {
    Finding(Banned, path, 0, "read", LuaRead, Unreadable, "", "<module>", NOT_APPLICABLE, 100)
  }

  ghost function AllPython(lex: Lexicon, files: seq<PythonFile>): seq<Finding> {
    if files == [] then [] else AllPython(lex, files[..|files| - 1]) + PythonFindings(lex, files[|files| - 1])
  }

  function LuaUpTo(lex: Lexicon, path: string, lines: seq<string>, n: nat): seq<Finding>
    requires n <= |lines|
  {
    if n == 0 then [] else LuaUpTo(lex, path, lines, n - 1) + LuaLine(lex, path, lines, n - 1)
  }

  function LuaFindings(lex: Lexicon, file: LuaFile): seq<Finding> {
    match file.lines
    case None => [ReadFailure(file.path)]
    case Some(lines) => LuaUpTo(lex, file.path, lines, |lines|)
  }

  function AllLua(lex: Lexicon, files: seq<LuaFile>): seq<Finding> {
    if files == [] then [] else AllLua(lex, files[..|files| - 1]) + LuaFindings(lex, files[|files| - 1])
  }

  lemma FailureWeighs(path: string)
    ensures Weight(ParseFailure(path)) == 100 && Weight(ReadFailure(path)) == 100
  {
    hide Critical;
  }

  method ScanLuaFile(lex: Lexicon, file: LuaFile) returns (found: seq<Finding>)
    ensures found == LuaFindings(lex, file) && Weighed(found)
  {
    hide LuaLine, Weight;
    if file.lines.None? {
      found := [ReadFailure(file.path)];
      FailureWeighs(file.path);
      return;
    }
    found := [];
    var lines := file.lines.value;
    for idx := 0 to |lines|
      invariant found == LuaUpTo(lex, file.path, lines, idx) && Weighed(found)
    {
      LuaWeighs(lex, file.path, lines, idx);
      found := found + LuaLine(lex, file.path, lines, idx);
    }
  }

  lemma {:induction false} RiskAccount(fs: seq<Finding>)
    requires Weighed(fs)
    ensures |fs| == Count(fs, OfSeverity(Allowed)) + Count(fs, OfSeverity(Suspicious)) + Count(fs, OfSeverity(Banned))
    ensures Count(fs, OfSeverity(Suspicious)) ==
      NoiseCount(fs) + TelemetryCount(fs) + LuaProjectionCount(fs) + RiskBearingCount(fs)
    ensures TotalRisk(fs) == 100 * Count(fs, OfSeverity(Banned)) + 25 * CriticalBanCount(fs) + 5 * RiskBearingCount(fs)
                             + TelemetryCount(fs) + LuaProjectionCount(fs)
  {
    hide Critical, FALSE_POSITIVE, OBSERVABILITY, LUA_PROJECTION;
    ClassNamesDiffer();
    if fs != [] { RiskAccount(fs[..|fs| - 1]); }
  }

  // ----- what a Lua file reports

  ghost predicate MutatingLine(lex: Lexicon, line: string) {
    lex.luaCommand(line).Some? && lex.luaCommand(line).value in LUA_MUTATING_COMMANDS
  }

  // Numbers of the mutating lines among the first n, in order.
  ghost function MutatingLines(lex: Lexicon, lines: seq<string>, n: nat): seq<nat>
    requires n <= |lines|
  {
    if n == 0 then []
    else MutatingLines(lex, lines, n - 1) + if MutatingLine(lex, lines[n - 1]) then [n - 1] else []
  }

  ghost predicate Increasing(ns: seq<nat>) { forall i, j :: 0 <= i < j < |ns| ==> ns[i] < ns[j] }

  lemma {:induction false} MutatingLinesExact(lex: Lexicon, lines: seq<string>, n: nat)
    requires n <= |lines|
    ensures forall i: nat :: i in MutatingLines(lex, lines, n) <==> i < n && MutatingLine(lex, lines[i])
    ensures Increasing(MutatingLines(lex, lines, n))
  {
    hide MutatingLine;
    if n > 0 {
      var before, last := MutatingLines(lex, lines, n - 1), if MutatingLine(lex, lines[n - 1]) then [n - 1] else [];
      MutatingLinesExact(lex, lines, n - 1);
      forall i: nat ensures i in before + last <==> i < n && MutatingLine(lex, lines[i]) {
        assert i in before + last <==> i in before || i in last;
      }
      forall k | 0 <= k < |before| ensures before[k] < n - 1 { assert before[k] in before; }
    }
  }

  // The finding for one mutating line: an append is allowed, everything else is to be reviewed.
  ghost predicate ReportsLine(f: Finding, lex: Lexicon, path: string, lines: seq<string>, i: nat) {
    && i < |lines| && lex.luaCommand(lines[i]).Some?
    && f.path == path && f.line == i + 1 && f.context == lex.strip(lines[i]) && f.function_ == "<lua>"
    && f.call == "redis.call('" + lex.luaCommand(lines[i]).value + "', ...)" && f.category == LuaScriptMutation
    && f.severity == (if lex.luaCommand(lines[i]).value == "xadd" then Allowed else Suspicious)
    && f.suspiciousClass == (if f.severity != Suspicious then "not_applicable"
                             else lex.classOf(path, "<lua>", LuaScriptMutation, f.call, f.context, f.reason))
  }

  lemma LineReported(lex: Lexicon, path: string, lines: seq<string>, i: nat)
    requires i < |lines|
    ensures var found := LuaLine(lex, path, lines, i);
      if MutatingLine(lex, lines[i]) then |found| == 1 && ReportsLine(found[0], lex, path, lines, i) else found == []
  {
    hide LUA_MUTATING_COMMANDS, RiskScore;
  }

  /** A readable Lua file reports exactly its mutating lines, in order, each once. */
  lemma {:induction false} LuaReportsExactly(lex: Lexicon, path: string, lines: seq<string>, n: nat)
    requires n <= |lines|
    ensures var found, hits := LuaUpTo(lex, path, lines, n), MutatingLines(lex, lines, n);
      |found| == |hits| && forall k :: 0 <= k < |hits| ==> ReportsLine(found[k], lex, path, lines, hits[k])
  {
    hide LuaLine, MutatingLine, ReportsLine;
    if n > 0 {
      LuaReportsExactly(lex, path, lines, n - 1);
      LineReported(lex, path, lines, n - 1);
    }
  }

  /** `run_audit`: every file contributes its findings in scan order, the summary counts them, and the
      risk account balances. */
  method RunAudit(lex: Lexicon, files: seq<PythonFile>, luaFiles: seq<LuaFile>, includeLua: bool) returns (s: Summary)
    ensures s.findings == AllPython(lex, files) + if includeLua then AllLua(lex, luaFiles) else []
    ensures s.scanned == |files| + if includeLua then |luaFiles| else 0
    ensures s.allowed == Count(s.findings, OfSeverity(Allowed))
    ensures s.suspicious == Count(s.findings, OfSeverity(Suspicious))
    ensures s.banned == Count(s.findings, OfSeverity(Banned)) && |s.findings| == s.allowed + s.suspicious + s.banned
    ensures s.suspicious ==
      NoiseCount(s.findings) + TelemetryCount(s.findings) + LuaProjectionCount(s.findings)
      + RiskBearingCount(s.findings)
    ensures TotalRisk(s.findings) ==
      100 * s.banned + 25 * CriticalBanCount(s.findings) + 5 * RiskBearingCount(s.findings)
                                     + TelemetryCount(s.findings) + LuaProjectionCount(s.findings)
  {
    hide Weight, FullReport, LuaFindings, Count;
    var findings := [];
    for i := 0 to |files|
      invariant findings == AllPython(lex, files[..i]) && Weighed(findings)
    {
      var file := files[i];
      assert files[..i + 1][..i] == files[..i];
      if file.tree.None? {
        FailureWeighs(file.path);
        findings := findings + [ParseFailure(file.path)];
      } else {
        var visitor := new AuthorityVisitor(Scope(lex, file.path, file.source));
        visitor.Visit(file.tree.value);
        ReportWeighs(Scope(lex, file.path, file.source), [], file.tree.value);
        findings := findings + visitor.findings;
      }
    }
    assert files[..|files|] == files;
    var scanned := |files|;
    if includeLua {
      ghost var python := findings;
      for i := 0 to |luaFiles|
        invariant findings == python + AllLua(lex, luaFiles[..i]) && Weighed(findings)
      {
        assert luaFiles[..i + 1][..i] == luaFiles[..i];
        var found := ScanLuaFile(lex, luaFiles[i]);
        findings := findings + found;
      }
      assert luaFiles[..|luaFiles|] == luaFiles;
      scanned := scanned + |luaFiles|;
    }
    RiskAccount(findings);
    s := Summary(Count(findings, OfSeverity(Allowed)), Count(findings, OfSeverity(Suspicious)),
                 Count(findings, OfSeverity(Banned)), scanned, findings);
  }

  // ----- partitions by a key

  function Keyed(key: Finding -> string, k: string, w: Finding -> nat): Finding -> nat {
    (f: Finding) => if key(f) == k then w(f) else 0
  }

  // The total of `w` collected key by key.
  function ByKey(fs: seq<Finding>, ks: seq<string>, key: Finding -> string, w: Finding -> nat): nat {
    if ks == [] then 0
    else ByKey(fs, ks[..|ks| - 1], key, w) + Sum(fs, Keyed(key, ks[|ks| - 1], w))
  }

  lemma {:induction false} ByKeyExtend(fs: seq<Finding>, ks: seq<string>, key: Finding -> string, w: Finding -> nat)
    requires Distinct(ks) && fs != []
    ensures ByKey(fs, ks, key, w)
         == ByKey(fs[..|fs| - 1], ks, key, w) + if key(fs[|fs| - 1]) in ks then w(fs[|fs| - 1]) else 0
  {
    if ks != [] {
      assert ks == ks[..|ks| - 1] + [ks[|ks| - 1]];
      ByKeyExtend(fs, ks[..|ks| - 1], key, w);
    }
  }

  lemma {:induction false} ByKeyOfNothing(ks: seq<string>, key: Finding -> string, w: Finding -> nat)
    ensures ByKey([], ks, key, w) == 0
  {
    if ks != [] { ByKeyOfNothing(ks[..|ks| - 1], key, w); }
  }

  /** Distinct keys that cover every weighted finding lose nothing and count nothing twice. */
  lemma {:induction false} PartitionConserves(fs: seq<Finding>, ks: seq<string>,
                                              key: Finding -> string, w: Finding -> nat)
    requires Distinct(ks) && forall i :: 0 <= i < |fs| && w(fs[i]) > 0 ==> key(fs[i]) in ks
    ensures ByKey(fs, ks, key, w) == Sum(fs, w)
  {
    if fs == [] {
      ByKeyOfNothing(ks, key, w);
    } else {
      ByKeyExtend(fs, ks, key, w);
      PartitionConserves(fs[..|fs| - 1], ks, key, w);
    }
  }

  // ----- the heatmap

  datatype Entry = Entry(path: string, allowed: nat, suspicious: nat, banned: nat, risk: nat, classes: map<string, nat>)

  function Held(m: map<string, nat>, k: string): nat { if k in m then m[k] else 0 }

  function PathOf(): Finding -> string { (f: Finding) => f.path }

  function OnPath(fs: seq<Finding>, path: string, w: Finding -> nat): nat { Sum(fs, Keyed(PathOf(), path, w)) }

  // The entry counts exactly the findings of its own file.
  ghost predicate Tallies(fs: seq<Finding>, e: Entry) {
    && e.allowed == OnPath(fs, e.path, Ones(OfSeverity(Allowed)))
    && e.suspicious == OnPath(fs, e.path, Ones(OfSeverity(Suspicious)))
    && e.banned == OnPath(fs, e.path, Ones(OfSeverity(Banned)))
    && e.risk == OnPath(fs, e.path, RiskOf())
    && (forall c :: Held(e.classes, c) == OnPath(fs, e.path, Ones(OfClass(c))))
  }

  function PathsOf(r: seq<Entry>): seq<string> { seq(|r|, i requires 0 <= i < |r| => r[i].path) }

  ghost predicate FirstSeen(fs: seq<Finding>, k: nat, path: string) {
    k < |fs| && fs[k].path == path && forall j :: 0 <= j < k ==> fs[j].path != path
  }

  ghost predicate SeenBefore(fs: seq<Finding>, p: string, q: string) {
    exists j, k :: j < k && FirstSeen(fs, j, p) && FirstSeen(fs, k, q)
  }

  function Absorbed(e: Entry, f: Finding): Entry {
    var e1 := match f.severity
      case Allowed => e.(allowed := e.allowed + 1)
      case Suspicious => e.(suspicious := e.suspicious + 1)
      case Banned => e.(banned := e.banned + 1);
    var e2 := e1.(risk := e1.risk + f.riskScore);
    if f.severity == Suspicious then
      e2.(classes := e2.classes[f.suspiciousClass := Held(e2.classes, f.suspiciousClass) + 1]) else e2
  }

  lemma AbsorbedTallies(fs: seq<Finding>, e: Entry, n: nat)
    requires n < |fs| && Tallies(fs[..n], e)
    ensures Tallies(fs[..n + 1], if e.path == fs[n].path then Absorbed(e, fs[n]) else e)
  {
    assert fs[..n + 1][..n] == fs[..n];
  }

  lemma {:induction false} UnseenIsZero(fs: seq<Finding>, path: string, w: Finding -> nat)
    requires forall i :: 0 <= i < |fs| ==> fs[i].path != path
    ensures OnPath(fs, path, w) == 0
  {
    if fs != [] { UnseenIsZero(fs[..|fs| - 1], path, w); }
  }

  lemma EmptyTallies(fs: seq<Finding>, path: string)
    requires forall i :: 0 <= i < |fs| ==> fs[i].path != path
    ensures Tallies(fs, Entry(path, 0, 0, 0, 0, map[]))
  {
    hide OnPath;
    forall w: Finding -> nat ensures OnPath(fs, path, w) == 0 { UnseenIsZero(fs, path, w); }
  }

  function ByRisk(): (Entry, Entry) -> bool { (a: Entry, b: Entry) => a.risk >= b.risk }

  ghost predicate Ranked(fs: seq<Finding>, a: Entry, b: Entry) {
    a.risk > b.risk || (a.risk == b.risk && SeenBefore(fs, a.path, b.path))
  }

  ghost predicate AllRanked(fs: seq<Finding>, r: seq<Entry>) {
    forall i, j :: 0 <= i < j < |r| ==> Ranked(fs, r[i], r[j])
  }

  // One entry per file, each a tally, in descending risk, ties in order of first appearance.
  ghost predicate IsHeatmap(fs: seq<Finding>, r: seq<Entry>) {
    && Distinct(PathsOf(r)) && (forall p :: p in PathsOf(r) <==> exists i :: 0 <= i < |fs| && fs[i].path == p)
    && (forall i :: 0 <= i < |r| ==> Tallies(fs, r[i]))
    && AllRanked(fs, r)
  }

  ghost predicate FromFiles(files: map<string, Entry>, r: seq<Entry>) {
    forall i :: 0 <= i < |r| ==> r[i].path in files && r[i] == files[r[i].path]
  }

  // The dictionary under construction: an up-to-date entry for every path seen ...
  ghost predicate Tallied(fs: seq<Finding>, n: nat, files: map<string, Entry>) {
    && n <= |fs| && (forall i :: 0 <= i < n ==> fs[i].path in files)
    && (forall p :: p in files ==> files[p].path == p && Tallies(fs[..n], files[p]))
  }

  ghost predicate FirstWithin(fs: seq<Finding>, n: nat, p: string) { exists k: nat :: k < n && FirstSeen(fs, k, p) }

  // ... held in the order in which the paths were first met.
  ghost predicate Listed(fs: seq<Finding>, n: nat, order: seq<string>, paths: set<string>) {
    && Distinct(order) && Elements(order) == paths
    && (forall p :: p in paths ==> FirstWithin(fs, n, p))
    && (forall i, j :: 0 <= i < j < |order| ==> SeenBefore(fs, order[i], order[j]))
  }

  function EntryFor(files: map<string, Entry>, path: string): Entry {
    if path in files then files[path] else Entry(path, 0, 0, 0, 0, map[])
  }

  lemma AbsorbedKeepsPath(e: Entry, f: Finding)
    ensures Absorbed(e, f).path == e.path
  { }

  lemma TalliedStep(fs: seq<Finding>, n: nat, files: map<string, Entry>)
    requires n < |fs| && Tallied(fs, n, files)
    ensures Tallied(fs, n + 1, files[fs[n].path := Absorbed(EntryFor(files, fs[n].path), fs[n])])
  {
    hide Tallies, Absorbed;
    var path := fs[n].path;
    if path !in files { EmptyTallies(fs[..n], path); }
    AbsorbedTallies(fs, EntryFor(files, path), n);
    AbsorbedKeepsPath(EntryFor(files, path), fs[n]);
    forall p | p in files && p != path ensures Tallies(fs[..n + 1], files[p]) { AbsorbedTallies(fs, files[p], n); }
  }

  lemma ListedStep(fs: seq<Finding>, n: nat, order: seq<string>, paths: set<string>)
    requires n < |fs| && Listed(fs, n, order, paths) && forall i :: 0 <= i < n ==> fs[i].path in paths
    ensures fs[n].path in paths ==> Listed(fs, n + 1, order, paths)
    ensures fs[n].path !in paths ==> Listed(fs, n + 1, order + [fs[n].path], paths + {fs[n].path})
  {
    var path := fs[n].path;
    forall p | p in paths ensures FirstWithin(fs, n + 1, p) {
      assert FirstWithin(fs, n, p);
    }
    if path !in paths {
      assert FirstSeen(fs, n, path);
      forall i | 0 <= i < |order| ensures order[i] != path && SeenBefore(fs, order[i], path) {
        assert order[i] in Elements(order) && FirstWithin(fs, n, order[i]);
      }
      assert Elements(order + [path]) == Elements(order) + {path};
    }
  }

  function Entries(order: seq<string>, files: map<string, Entry>): seq<Entry> {
    seq(|order|, i requires 0 <= i < |order| => EntryFor(files, order[i]))
  }

  lemma HeatmapStart(fs: seq<Finding>)
    ensures Tallied(fs, 0, map[]) && Listed(fs, 0, [], {})
  { }

  lemma AllSeen(fs: seq<Finding>, n: nat, files: map<string, Entry>)
    requires Tallied(fs, n, files)
    ensures n <= |fs| && forall i :: 0 <= i < n ==> fs[i].path in files.Keys
  { }

  lemma RankedDiffer(fs: seq<Finding>, a: Entry, b: Entry)
    requires Ranked(fs, a, b) && (a.path == b.path ==> a == b)
    ensures a.path != b.path
  { }

  lemma HeatmapPath(fs: seq<Finding>, order: seq<string>, files: map<string, Entry>, r: seq<Entry>, p: string)
    requires Tallied(fs, |fs|, files) && Listed(fs, |fs|, order, files.Keys)
    requires multiset(r) == multiset(Entries(order, files))
    requires forall i :: 0 <= i < |r| ==> r[i].path in files
    ensures p in PathsOf(r) <==> exists i :: 0 <= i < |fs| && fs[i].path == p
  {
    hide Tallies, SeenBefore;
    if p in PathsOf(r) {
      var i :| 0 <= i < |r| && PathsOf(r)[i] == p;
      assert FirstWithin(fs, |fs|, p);
    }
    if p in files {
      assert p in Elements(order);
      var k :| 0 <= k < |order| && order[k] == p;
      assert Entries(order, files)[k] == files[p];
      SameMultisetSameMembers(r, Entries(order, files), files[p]);
      var i :| 0 <= i < |r| && r[i] == files[p];
      assert PathsOf(r)[i] == p;
    }
  }

  lemma HeatmapAssembled(fs: seq<Finding>, order: seq<string>, files: map<string, Entry>, r: seq<Entry>)
    requires Tallied(fs, |fs|, files) && Listed(fs, |fs|, order, files.Keys)
    requires multiset(r) == multiset(Entries(order, files))
    requires FromFiles(files, r) && AllRanked(fs, r)
    ensures IsHeatmap(fs, r)
  {
    hide Tallies, SeenBefore, Ranked, Listed, Entries;
    assert fs[..|fs|] == fs;
    forall i, j | 0 <= i < j < |r| ensures PathsOf(r)[i] != PathsOf(r)[j] { RankedDiffer(fs, r[i], r[j]); }
    forall p ensures p in PathsOf(r) <==> exists i :: 0 <= i < |fs| && fs[i].path == p {
      HeatmapPath(fs, order, files, r, p);
    }
  }

  lemma EntriesRanked(fs: seq<Finding>, n: nat, order: seq<string>, files: map<string, Entry>)
    requires Listed(fs, n, order, files.Keys) && forall p :: p in files ==> files[p].path == p
    ensures AllRanked(fs, SortSeq(ByRisk(), Entries(order, files)))
  {
    hide FirstWithin, SeenBefore, SortSeq;
    var entries := Entries(order, files);
    forall i | 0 <= i < |order| ensures entries[i].path == order[i] { assert order[i] in Elements(order); }
    SortSeqStable(ByRisk(), (a: Entry, b: Entry) => SeenBefore(fs, a.path, b.path), entries);
  }

  lemma SortedMembers(order: seq<string>, files: map<string, Entry>)
    requires Elements(order) == files.Keys && forall p :: p in files ==> files[p].path == p
    ensures FromFiles(files, SortSeq(ByRisk(), Entries(order, files)))
  {
    var r, entries := SortSeq(ByRisk(), Entries(order, files)), Entries(order, files);
    hide SortSeq;
    forall i | 0 <= i < |r| ensures r[i].path in files && r[i] == files[r[i].path] {
      SameMultisetSameMembers(r, entries, r[i]);
      var k :| 0 <= k < |entries| && entries[k] == r[i];
      assert order[k] in Elements(order);
    }
  }

  lemma HeatmapSorted(fs: seq<Finding>, order: seq<string>, files: map<string, Entry>)
    requires Tallied(fs, |fs|, files) && Listed(fs, |fs|, order, files.Keys)
    ensures IsHeatmap(fs, SortSeq(ByRisk(), Entries(order, files)))
  {
    hide Tallies, SeenBefore, SortSeq, Ranked, FirstWithin;
    EntriesRanked(fs, |fs|, order, files);
    SortedMembers(order, files);
    HeatmapAssembled(fs, order, files, SortSeq(ByRisk(), Entries(order, files)));
  }

  /** `heatmap`: dictionary of running tallies, then a stable descending sort. */
  method Heatmap(fs: seq<Finding>) returns (r: seq<Entry>)
    ensures IsHeatmap(fs, r)
  {
    hide Tallies, FirstSeen, SeenBefore, Absorbed, Tallied, Listed, IsHeatmap;
    var order: seq<string>, files: map<string, Entry> := [], map[];
    HeatmapStart(fs);
    assert files.Keys == {};
    for n := 0 to |fs|
      invariant Tallied(fs, n, files) && Listed(fs, n, order, files.Keys)
    {
      var path := fs[n].path;
      TalliedStep(fs, n, files);
      AllSeen(fs, n, files);
      ListedStep(fs, n, order, files.Keys);
      if path !in files { order := order + [path]; }
      ghost var keys := files.Keys;
      files := files[path := Absorbed(EntryFor(files, path), fs[n])];
      assert files.Keys == keys + {path};
      assert path in keys ==> files.Keys == keys;
    }
    r := SortSeq(ByRisk(), Entries(order, files));
    HeatmapSorted(fs, order, files);
  }

  // ----- what the heatmap conserves

  function SumEntries(r: seq<Entry>, g: Entry -> nat): nat {
    if r == [] then 0 else SumEntries(r[..|r| - 1], g) + g(r[|r| - 1])
  }

  function AllowedColumn(): Entry -> nat { (e: Entry) => e.allowed }
  function SuspiciousColumn(): Entry -> nat { (e: Entry) => e.suspicious }
  function BannedColumn(): Entry -> nat { (e: Entry) => e.banned }
  function RiskColumn(): Entry -> nat { (e: Entry) => e.risk }
  function ClassColumn(c: string): Entry -> nat { (e: Entry) => Held(e.classes, c) }

  lemma {:induction false} EntriesByKey(fs: seq<Finding>, r: seq<Entry>, g: Entry -> nat, w: Finding -> nat)
    requires forall i :: 0 <= i < |r| ==> g(r[i]) == OnPath(fs, r[i].path, w)
    ensures SumEntries(r, g) == ByKey(fs, PathsOf(r), PathOf(), w)
  {
    if r != [] {
      EntriesByKey(fs, r[..|r| - 1], g, w);
      assert PathsOf(r)[..|r| - 1] == PathsOf(r[..|r| - 1]);
    }
  }

  lemma ColumnConserves(fs: seq<Finding>, r: seq<Entry>, g: Entry -> nat, w: Finding -> nat)
    requires IsHeatmap(fs, r) && forall i :: 0 <= i < |r| ==> g(r[i]) == OnPath(fs, r[i].path, w)
    ensures SumEntries(r, g) == Sum(fs, w)
  {
    hide Tallies, Ranked, Sum;
    EntriesByKey(fs, r, g, w);
    forall i | 0 <= i < |fs| ensures PathOf()(fs[i]) in PathsOf(r) { assert fs[i].path == PathOf()(fs[i]); }
    PartitionConserves(fs, PathsOf(r), PathOf(), w);
  }

  /** Summed over its entries, the heatmap has the audit's severities, its risk, and its class counts. */
  lemma HeatmapConserves(fs: seq<Finding>, r: seq<Entry>, c: string)
    requires IsHeatmap(fs, r)
    ensures SumEntries(r, AllowedColumn()) == Count(fs, OfSeverity(Allowed))
    ensures SumEntries(r, SuspiciousColumn()) == Count(fs, OfSeverity(Suspicious))
    ensures SumEntries(r, BannedColumn()) == Count(fs, OfSeverity(Banned))
    ensures SumEntries(r, RiskColumn()) == TotalRisk(fs)
    ensures SumEntries(r, ClassColumn(c)) == Count(fs, OfClass(c))
  {
    assert forall i :: 0 <= i < |r| ==> Tallies(fs, r[i]);
    hide OnPath, Sum, SumEntries, Ranked, IsHeatmap, Held;
    ColumnConserves(fs, r, AllowedColumn(), Ones(OfSeverity(Allowed)));
    ColumnConserves(fs, r, SuspiciousColumn(), Ones(OfSeverity(Suspicious)));
    ColumnConserves(fs, r, BannedColumn(), Ones(OfSeverity(Banned)));
    ColumnConserves(fs, r, RiskColumn(), RiskOf());
    ColumnConserves(fs, r, ClassColumn(c), Ones(OfClass(c)));
  }

  // ----- class counts

  datatype ClassCount = ClassCount(cls: string, count: nat)

  // Most frequent first, ties by class name.
  function ByCount(le: (string, string) -> bool): (ClassCount, ClassCount) -> bool {
    (a: ClassCount, b: ClassCount) => a.count > b.count || (a.count == b.count && le(a.cls, b.cls))
  }

  function ClassesOf(r: seq<ClassCount>): seq<string> { seq(|r|, i requires 0 <= i < |r| => r[i].cls) }

  function SumCounts(r: seq<ClassCount>): nat { if r == [] then 0 else SumCounts(r[..|r| - 1]) + r[|r| - 1].count }

  ghost predicate Counts(fs: seq<Finding>, order: seq<string>, counts: map<string, nat>) {
    && Distinct(order) && Elements(order) == counts.Keys
    && (forall c :: Held(counts, c) == Count(fs, OfClass(c))) && (forall c :: c in counts ==> counts[c] > 0)
  }

  function Items(order: seq<string>, counts: map<string, nat>): seq<ClassCount> {
    seq(|order|, i requires 0 <= i < |order| => ClassCount(order[i], Held(counts, order[i])))
  }

  lemma CountsStart()
    ensures Counts([], [], map[])
  { }

  lemma CountsStep(fs: seq<Finding>, n: nat, order: seq<string>, counts: map<string, nat>)
    requires n < |fs| && Counts(fs[..n], order, counts)
    ensures fs[n].severity != Suspicious ==> Counts(fs[..n + 1], order, counts)
    ensures fs[n].severity == Suspicious ==>
      var c := fs[n].suspiciousClass;
      Counts(fs[..n + 1], if c in counts then order else order + [c], counts[c := Held(counts, c) + 1])
  {
    assert fs[..n + 1][..n] == fs[..n];
    var c := fs[n].suspiciousClass;
    assert Elements(order + [c]) == Elements(order) + {c};
    assert c !in counts ==> c !in Elements(order);
  }

  function ClassKey(): Finding -> string { (f: Finding) => f.suspiciousClass }

  lemma {:induction false} SumPointwise(fs: seq<Finding>, v: Finding -> nat, w: Finding -> nat)
    requires forall f :: v(f) == w(f)
    ensures Sum(fs, v) == Sum(fs, w)
  {
    if fs != [] { SumPointwise(fs[..|fs| - 1], v, w); }
  }

  lemma {:induction false} CountsByKey(fs: seq<Finding>, r: seq<ClassCount>)
    requires forall i :: 0 <= i < |r| ==> r[i].count == Count(fs, OfClass(r[i].cls))
    ensures SumCounts(r) == ByKey(fs, ClassesOf(r), ClassKey(), Ones(OfSeverity(Suspicious)))
  {
    if r != [] {
      hide Sum;
      CountsByKey(fs, r[..|r| - 1]);
      assert ClassesOf(r)[..|r| - 1] == ClassesOf(r[..|r| - 1]);
      var c := r[|r| - 1].cls;
      var v, w := Ones(OfClass(c)), Keyed(ClassKey(), c, Ones(OfSeverity(Suspicious)));
      forall f: Finding ensures v(f) == w(f) {
        assert OfClass(c)(f) <==> OfSeverity(Suspicious)(f) && ClassKey()(f) == c;
      }
      SumPointwise(fs, v, w);
    }
  }

  lemma {:induction false} OccursThenCounted(fs: seq<Finding>, i: nat)
    requires i < |fs| && fs[i].severity == Suspicious
    ensures Count(fs, OfClass(fs[i].suspiciousClass)) > 0
  {
    if i < |fs| - 1 { OccursThenCounted(fs[..|fs| - 1], i); }
  }

  lemma OccurringListed(fs: seq<Finding>, classes: seq<string>)
    requires forall c :: Count(fs, OfClass(c)) > 0 ==> c in classes
    ensures forall i :: 0 <= i < |fs| && Ones(OfSeverity(Suspicious))(fs[i]) > 0 ==> ClassKey()(fs[i]) in classes
  {
    hide Sum;
    forall i | 0 <= i < |fs| && fs[i].severity == Suspicious ensures fs[i].suspiciousClass in classes {
      OccursThenCounted(fs, i);
    }
  }

  // Every list of the occurring classes with their counts accounts for all suspicious findings.
  lemma ClassCountsConserve(fs: seq<Finding>, r: seq<ClassCount>)
    requires Distinct(ClassesOf(r)) && forall i :: 0 <= i < |r| ==> r[i].count == Count(fs, OfClass(r[i].cls))
    requires forall c :: Count(fs, OfClass(c)) > 0 ==> c in ClassesOf(r)
    ensures SumCounts(r) == Count(fs, OfSeverity(Suspicious))
  {
    hide Sum;
    CountsByKey(fs, r);
    OccurringListed(fs, ClassesOf(r));
    PartitionConserves(fs, ClassesOf(r), ClassKey(), Ones(OfSeverity(Suspicious)));
  }

  ghost predicate IsClassCount(fs: seq<Finding>, r: seq<ClassCount>) {
    && Distinct(ClassesOf(r))
    && (forall i :: 0 <= i < |r| ==> r[i].count == Count(fs, OfClass(r[i].cls)) && r[i].count > 0)
    && (forall c :: c in ClassesOf(r) <==> Count(fs, OfClass(c)) > 0)
  }

  lemma ByCountPreorder(le: (string, string) -> bool)
    requires TotalOrder(le)
    ensures Preorder(ByCount(le))
  {
    var lt := ByCount(le);
    forall x, y ensures lt(x, y) || lt(y, x) { assert le(x.cls, y.cls) || le(y.cls, x.cls); }
    forall x, y, z | lt(x, y) && lt(y, z) ensures lt(x, z) {
      assert x.count == y.count == z.count ==> le(x.cls, y.cls) && le(y.cls, z.cls);
    }
  }

  lemma ItemKept(order: seq<string>, counts: map<string, nat>, r: seq<ClassCount>, c: string)
    requires multiset(r) == multiset(Items(order, counts)) && c in Elements(order)
    ensures c in ClassesOf(r)
  {
    var items := Items(order, counts);
    var k :| 0 <= k < |order| && order[k] == c;
    SameMultisetSameMembers(r, items, items[k]);
    var i :| 0 <= i < |r| && r[i] == items[k];
    assert ClassesOf(r)[i] == c;
  }

  lemma ItemsPermuted(fs: seq<Finding>, order: seq<string>, counts: map<string, nat>,
                      le: (ClassCount, ClassCount) -> bool, r: seq<ClassCount>)
    requires Counts(fs, order, counts) && multiset(r) == multiset(Items(order, counts))
    requires StablySorted(le, (a: ClassCount, b: ClassCount) => a.cls != b.cls, r) && forall a :: le(a, a)
    ensures IsClassCount(fs, r)
  {
    hide Count;
    var items := Items(order, counts);
    forall i | 0 <= i < |r|
      ensures r[i].cls in counts && r[i].count == counts[r[i].cls] == Count(fs, OfClass(r[i].cls))
    {
      SameMultisetSameMembers(r, items, r[i]);
      var k :| 0 <= k < |items| && items[k] == r[i];
      assert order[k] in Elements(order) && Held(counts, order[k]) == Count(fs, OfClass(order[k]));
    }
    forall i, j | 0 <= i < j < |r| ensures r[i].cls != r[j].cls { assert le(r[j], r[j]); }
    forall c ensures c in ClassesOf(r) <==> Count(fs, OfClass(c)) > 0 {
      assert Held(counts, c) == Count(fs, OfClass(c));
      if c in counts { ItemKept(order, counts, r, c); }
    }
  }

  lemma CountsSorted(fs: seq<Finding>, le: (string, string) -> bool, order: seq<string>, counts: map<string, nat>)
    requires TotalOrder(le) && Counts(fs, order, counts)
    ensures Sorted(ByCount(le), SortSeq(ByCount(le), Items(order, counts)))
    ensures IsClassCount(fs, SortSeq(ByCount(le), Items(order, counts)))
  {
    hide Count, SortSeq;
    var items := Items(order, counts);
    var differ := (a: ClassCount, b: ClassCount) => a.cls != b.cls;
    ByCountPreorder(le);
    SortSeqStable(ByCount(le), differ, items);
    assert forall c :: le(c, c);
    ItemsPermuted(fs, order, counts, ByCount(le), SortSeq(ByCount(le), items));
  }

  /** `suspicious_class_counts`: exactly the classes that occur, each with its number of findings, by
      descending count and then name; together they account for every suspicious finding. */
  method SuspiciousClassCounts(fs: seq<Finding>, le: (string, string) -> bool) returns (r: seq<ClassCount>)
    requires TotalOrder(le)
    ensures IsClassCount(fs, r) && Sorted(ByCount(le), r)
    ensures SumCounts(r) == Count(fs, OfSeverity(Suspicious))
  {
    hide Count, TotalOrder, Sorted;
    var order: seq<string>, counts: map<string, nat> := [], map[];
    CountsStart();
    for n := 0 to |fs|
      invariant Counts(fs[..n], order, counts)
    {
      var f := fs[n];
      CountsStep(fs, n, order, counts);
      if f.severity == Suspicious {
        if f.suspiciousClass !in counts { order := order + [f.suspiciousClass]; }
        counts := counts[f.suspiciousClass := Held(counts, f.suspiciousClass) + 1];
      }
    }
    assert fs[..|fs|] == fs;
    r := SortSeq(ByCount(le), Items(order, counts));
    CountsSorted(fs, le, order, counts);
    ClassCountsConserve(fs, r);
  }
}
