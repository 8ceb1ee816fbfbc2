/** scripts/authority_audit.py: the syntax-tree visitor and its classification.

    The visitor walks a module with a stack of enclosing function names that it pushes and pops in
    place. The reference is stackless: a call is a position in the tree, and the functions that
    enclose it are read off the path leading there. `_looks_stateish`, `_classify_suspicious`,
    `str.strip` and the Lua regular expression stay uninterpreted (`Lexicon`). */
module AuditVisitor {
  import opened Results

  datatype Severity = Allowed | Suspicious | Banned
  datatype Category =
    | EventAppend | StateMutation | RedisMutation | QueueOrIndexMutation | LuaMutation | Mutation
    | PipelineCommit | Syntax | LuaRead | LuaScriptMutation
  datatype Reason =
    | CanonicalFile | ObservationalAppend | CriticalBySafeToken | CriticalWithoutToken
    | StateWithoutGate | StateNearHelper | LuaBoundary | WriteCandidate | CommitReview
    | Unparsable | Unreadable | LuaAppend | LuaStateLike | LuaWrite

  const NOT_APPLICABLE := "not_applicable"
  const FALSE_POSITIVE := "false_positive_static"
  const OBSERVABILITY := "observability_only"
  const LUA_PROJECTION := "lua_atomic_projection"

  const MUTATION_CALLS := {
    "set", "hset", "delete", "xadd", "zadd", "zrem", "sadd", "lpush", "rpush", "hincrby", "hincrbyfloat",
    "incr", "decr", "expire", "persist", "rename", "eval", "evalsha", "execute_command" }
  const PIPELINE_COMMIT_CALLS := { "execute", "exec", "transaction" }
  const PIPELINE_TOKENS := { "pipe", "pipeline", "txn", "transaction" }
  const EVENT_APPEND_HINTS := { "xadd", "append_event", "append_before_authoritative_write", "emit_event_background" }
  const AUTHORITY_NAMES := {
    "transition_state", "AuthoritativeEventGate", "append_before_authoritative_write", "emit_event_background",
    "append_event", "EventStore", "LuaScriptLoader", "EffectLedger", "reconcile_tenant" }
  const REVIEW_MARKERS := {
    "AUTHORITY_REVIEWED_PROJECTION_WRITE", "AUTHORITY_REVIEWED_NON_TRUTH_STATE",
    "AUTHORITY_REVIEWED_GOVERNANCE_STATE", "AUTHORITY_REVIEWED_LUA_ATOMIC_BOUNDARY",
    "AUTHORITY_REVIEWED_LEASE_COUNTER" }
  const SAFE_AUTHORITY_TOKENS := AUTHORITY_NAMES + REVIEW_MARKERS
  const ALLOWED_AUTHORITY_FILES := {
    "hfa-core/src/hfa/state/__init__.py", "hfa-control/src/hfa_control/state_machine.py" }
  const CRITICAL_RUNTIME_FILES := {
    "hfa-core/src/hfa/runtime/state_store.py", "hfa-control/src/hfa_control/scheduler_loop.py",
    "hfa-worker/src/hfa_worker/runtime/worker_runtime.py" }

  datatype Lexicon = Lexicon(
    stateish: (string, string, string) -> bool,
    classOf: (string, string, Category, string, string, Reason) -> string,
    strip: string -> string,
    luaCommand: string -> Option<string>)

  datatype Finding = Finding(
    severity: Severity, path: string, line: nat, call: string, category: Category, reason: Reason,
    context: string, function_: string, suspiciousClass: string, riskScore: nat)

  // ----- text helpers

  predicate OccursAt(text: string, token: string, i: nat) { i + |token| <= |text| && text[i..i + |token|] == token }

  predicate Contains(text: string, token: string) { exists i :: 0 <= i <= |text| && OccursAt(text, token, i) }

  predicate ContainsAny(text: string, tokens: set<string>) { exists t :: t in tokens && Contains(text, t) }

  function Join(parts: seq<string>, separator: string): string {
    if parts == [] then "" else if |parts| == 1 then parts[0] else parts[0] + separator + Join(parts[1..], separator)
  }

  function SourceLine(lex: Lexicon, source: seq<string>, line: nat): string {
    if 1 <= line <= |source| then lex.strip(source[line - 1]) else ""
  }

  function Surrounding(source: seq<string>, line: nat, window: nat): string {
    var start := if line < window + 1 then 0 else line - window - 1;
    var end := if line + window < |source| then line + window else |source|;
    if start <= end then Join(source[start..end], "\n") else ""
  }

  // ----- classification

  // One call expression: attribute or name called, its text, its first two arguments' text and, for
  // an attribute call, the lower-cased text of the receiver.
  datatype CallSite = CallSite(
    attr: string, name: string, line: nat, key: string, value: string, repr: string, receiver: Option<string>)

  datatype Scope = Scope(lex: Lexicon, path: string, source: seq<string>)

  predicate Critical(path: string) { path in CRITICAL_RUNTIME_FILES }

  predicate IsPipelineCommit(site: CallSite) {
    site.attr in PIPELINE_COMMIT_CALLS && site.receiver.Some? && ContainsAny(site.receiver.value, PIPELINE_TOKENS)
  }

  predicate Matches(site: CallSite) { site.attr in MUTATION_CALLS || IsPipelineCommit(site) }

  function Categorize(lex: Lexicon, site: CallSite): Category {
    if site.attr == "xadd" || ContainsAny(site.repr, EVENT_APPEND_HINTS) then EventAppend
    else if lex.stateish(site.key, site.value, site.repr) then StateMutation
    else if site.attr in { "hset", "set", "delete" } then RedisMutation
    else if site.attr in { "zadd", "zrem", "sadd", "lpush", "rpush" } then QueueOrIndexMutation
    else if site.attr in { "eval", "evalsha" } then LuaMutation
    else Mutation
  }

  predicate SafeNearby(scope: Scope, site: CallSite) {
    ContainsAny(Surrounding(scope.source, site.line, 8), SAFE_AUTHORITY_TOKENS)
  }

  predicate DirectStateWrite(lex: Lexicon, site: CallSite) {
    lex.stateish(site.key, site.value, site.repr) && site.attr in { "set", "hset", "delete" }
  }

  function Classify(scope: Scope, site: CallSite): (Severity, Reason) {
    if scope.path in ALLOWED_AUTHORITY_FILES then (Allowed, CanonicalFile)
    else if Categorize(scope.lex, site) == EventAppend then (Allowed, ObservationalAppend)
    else if Critical(scope.path) then
      if SafeNearby(scope, site) then (Allowed, CriticalBySafeToken) else (Banned, CriticalWithoutToken)
    else if DirectStateWrite(scope.lex, site) then
      if SafeNearby(scope, site) then (Suspicious, StateNearHelper) else (Banned, StateWithoutGate)
    else if site.attr in { "eval", "evalsha" } then (Suspicious, LuaBoundary)
    else (Suspicious, WriteCandidate)
  }

  function SuspiciousClass(lex: Lexicon, severity: Severity, path: string, function_: string,
                           category: Category, call: string, context: string, reason: Reason): string {
    if severity != Suspicious then NOT_APPLICABLE else lex.classOf(path, function_, category, call, context, reason)
  }

  function RiskScore(severity: Severity, critical: bool, suspiciousClass: string): nat {
    if severity == Suspicious && suspiciousClass == FALSE_POSITIVE then 0
    else if severity == Suspicious && suspiciousClass == OBSERVABILITY then 1
    else if severity == Suspicious && suspiciousClass == LUA_PROJECTION then 1
    else
      var base := match severity case Allowed => 0 case Suspicious => 5 case Banned => 100;
      base + if critical && severity != Allowed then 25 else 0
  }

  function CurrentFunction(stack: seq<string>): string { if stack == [] then "<module>" else Join(stack, ".") }

  function MakeFinding(scope: Scope, stack: seq<string>, severity: Severity, site: CallSite,
                       category: Category, reason: Reason): Finding {
    var context := SourceLine(scope.lex, scope.source, site.line);
    var function_ := CurrentFunction(stack);
    var cls := SuspiciousClass(scope.lex, severity, scope.path, function_, category, site.name, context, reason);
    Finding(severity, scope.path, site.line, site.name, category, reason, context, function_, cls,
            RiskScore(severity, Critical(scope.path), cls))
  }

  // The finding for one call expression met under the given enclosing functions.
  function FindingFor(scope: Scope, stack: seq<string>, site: CallSite): Finding
    requires Matches(site)
  {
    if site.attr in MUTATION_CALLS then
      var (severity, reason) := Classify(scope, site);
      MakeFinding(scope, stack, severity, site, Categorize(scope.lex, site), reason)
    else
      MakeFinding(scope, stack, if Critical(scope.path) then Banned else Suspicious, site, PipelineCommit, CommitReview)
  }

  // ----- what the helpers mean

  lemma ContainsMeans(text: string, token: string)
    ensures Contains(text, token) <==> exists a, b :: text == a + token + b
  {
    if Contains(text, token) {
      var i :| 0 <= i <= |text| && OccursAt(text, token, i);
      assert text == text[..i] + token + text[i + |token|..];
    }
    if exists a, b :: text == a + token + b {
      var a, b :| text == a + token + b;
      assert OccursAt(text, token, |a|);
    }
  }

  lemma OccurringCharacter(text: string, token: string, i: nat, k: nat)
    requires OccursAt(text, token, i) && i <= k < i + |token|
    ensures text[k] in token
  {
    assert token[k - i] == text[i..i + |token|][k - i] == text[k];
  }

  lemma OccursWithin(before: string, mid: string, after: string, token: string, i: nat)
    requires i + |token| <= |mid|
    ensures OccursAt(before + mid + after, token, |before| + i) <==> OccursAt(mid, token, i)
  {
    var text, k := before + mid + after, |before| + i;
    assert text[k..k + |token|] == mid[i..i + |token|];
  }

  lemma ContainsInHead(a: string, rest: string, token: string)
    requires token != "" && '\n' !in token
    ensures Contains(a + "\n" + rest, token) <==> Contains(a, token) || Contains(rest, token)
  {
    var text := a + "\n" + rest;
    assert text[|a|] == '\n' && text == "" + a + ("\n" + rest) && text == (a + "\n") + rest + "";
    if Contains(text, token) {
      var i :| 0 <= i <= |text| && OccursAt(text, token, i);
      assert !(i <= |a| < i + |token|) by {
        if i <= |a| < i + |token| { OccurringCharacter(text, token, i, |a|); }
      }
      if i + |token| <= |a| {
        OccursWithin("", a, "\n" + rest, token, i);
      } else {
        OccursWithin(a + "\n", rest, "", token, i - |a| - 1);
      }
    }
    if Contains(a, token) {
      var i :| 0 <= i <= |a| && OccursAt(a, token, i);
      OccursWithin("", a, "\n" + rest, token, i);
    }
    if Contains(rest, token) {
      var i :| 0 <= i <= |rest| && OccursAt(rest, token, i);
      OccursWithin(a + "\n", rest, "", token, i);
    }
  }

  ghost predicate OnALine(parts: seq<string>, token: string) {
    exists i :: 0 <= i < |parts| && Contains(parts[i], token)
  }

  // A token without a line break is in the joined text exactly if it is on one of the lines.
  lemma {:induction false} JoinedLines(parts: seq<string>, token: string)
    requires token != "" && '\n' !in token
    ensures Contains(Join(parts, "\n"), token) <==> OnALine(parts, token)
  {
    hide Contains;
    if parts == [] {
      assert !Contains("", token) by { ContainsMeans("", token); }
    } else if |parts| > 1 {
      JoinedLines(parts[1..], token);
      ContainsInHead(parts[0], Join(parts[1..], "\n"), token);
      assert OnALine(parts, token) <==> Contains(parts[0], token) || OnALine(parts[1..], token) by {
        if OnALine(parts, token) && !Contains(parts[0], token) {
          var i :| 0 <= i < |parts| && Contains(parts[i], token);
          assert parts[1..][i - 1] == parts[i];
        }
        if OnALine(parts[1..], token) {
          var i :| 0 <= i < |parts[1..]| && Contains(parts[1..][i], token);
          assert parts[i + 1] == parts[1..][i];
        }
      }
    }
  }

  lemma NamesAreWords(token: string)
    requires token in AUTHORITY_NAMES
    ensures token != "" && '\n' !in token
  { }

  lemma MarkersAreWords(token: string)
    requires token in REVIEW_MARKERS
    ensures token != "" && '\n' !in token
  { }

  lemma SafeTokensAreWords(token: string)
    requires token in SAFE_AUTHORITY_TOKENS
    ensures token != "" && '\n' !in token
  {
    hide AUTHORITY_NAMES, REVIEW_MARKERS;
    if token in AUTHORITY_NAMES { NamesAreWords(token); } else { MarkersAreWords(token); }
  }

  ghost predicate HasSafeToken(text: string) { exists t :: t in SAFE_AUTHORITY_TOKENS && Contains(text, t) }

  // Some line whose number is at most eight away holds a safe token.
  ghost predicate SafeWithinEight(source: seq<string>, line: nat) {
    exists i :: 0 <= i < |source| && i + 1 <= line + 8 && line <= i + 1 + 8 && HasSafeToken(source[i])
  }

  ghost predicate AnySafe(parts: seq<string>) { exists i :: 0 <= i < |parts| && HasSafeToken(parts[i]) }

  lemma JoinedSafe(parts: seq<string>)
    ensures ContainsAny(Join(parts, "\n"), SAFE_AUTHORITY_TOKENS) <==> AnySafe(parts)
  {
    hide Contains, SAFE_AUTHORITY_TOKENS, Join;
    forall t | t in SAFE_AUTHORITY_TOKENS ensures Contains(Join(parts, "\n"), t) <==> OnALine(parts, t) {
      SafeTokensAreWords(t);
      JoinedLines(parts, t);
    }
    if AnySafe(parts) {
      var i :| 0 <= i < |parts| && HasSafeToken(parts[i]);
      var t :| t in SAFE_AUTHORITY_TOKENS && Contains(parts[i], t);
      assert OnALine(parts, t);
    }
    if ContainsAny(Join(parts, "\n"), SAFE_AUTHORITY_TOKENS) {
      var t :| t in SAFE_AUTHORITY_TOKENS && Contains(Join(parts, "\n"), t);
      var i :| 0 <= i < |parts| && Contains(parts[i], t);
      assert HasSafeToken(parts[i]);
    }
  }

  lemma SafeInSlice(source: seq<string>, start: nat, end: nat)
    requires start <= end <= |source|
    ensures AnySafe(source[start..end]) <==> exists i :: start <= i < end && HasSafeToken(source[i])
  {
    hide HasSafeToken;
    var near := source[start..end];
    forall k | 0 <= k < |near| ensures near[k] == source[start + k] { }
    if i :| start <= i < end && HasSafeToken(source[i]) { assert near[i - start] == source[i]; }
  }

  lemma NothingSafe()
    ensures Join([], "\n") == "" && !AnySafe([])
  { }

  /** "Nearby" is a line number at most eight away. */
  lemma NearbyMeans(scope: Scope, site: CallSite)
    ensures SafeNearby(scope, site) <==> SafeWithinEight(scope.source, site.line)
  {
    hide HasSafeToken, ContainsAny, Join, AnySafe;
    var source, line := scope.source, site.line;
    var start := if line < 9 then 0 else line - 9;
    var end := if line + 8 < |source| then line + 8 else |source|;
    if start <= end {
      JoinedSafe(source[start..end]);
      SafeInSlice(source, start, end);
    } else {
      JoinedSafe([]);
      NothingSafe();
    }
  }

  // A call matters if it is named like a mutation, or commits something that is called a pipeline.
  lemma MatchesMeans(site: CallSite)
    ensures Matches(site) <==>
      || site.attr in MUTATION_CALLS
      || ((site.attr == "execute" || site.attr == "exec" || site.attr == "transaction") && site.receiver.Some?
          && exists t :: t in PIPELINE_TOKENS && Contains(site.receiver.value, t))
  {
    hide MUTATION_CALLS, PIPELINE_TOKENS, Contains;
  }

  lemma {:induction false} JoinLast(parts: seq<string>, last: string, separator: string)
    requires parts != []
    ensures Join(parts + [last], separator) == Join(parts, separator) + separator + last
  {
    assert (parts + [last])[1..] == parts[1..] + [last];
    if |parts| > 1 {
      JoinLast(parts[1..], last, separator);
    } else {
      assert parts[1..] + [last] == [last];
    }
  }

  // The attributed name: enclosing functions from the outside in, separated by dots.
  lemma {:induction false} NamesAreJoined(stack: seq<string>, name: string)
    ensures CurrentFunction([]) == "<module>"
    ensures CurrentFunction(stack + [name]) == if stack == [] then name else CurrentFunction(stack) + "." + name
  {
    if stack != [] { JoinLast(stack, name, "."); } else { assert stack + [name] == [name]; }
  }

  // An event append by name, or by a hint in the text of the call.
  ghost predicate AppendsEvent(site: CallSite) {
    site.attr == "xadd" || exists h :: h in EVENT_APPEND_HINTS && Contains(site.repr, h)
  }

  ghost predicate WritesState(lex: Lexicon, site: CallSite) {
    && lex.stateish(site.key, site.value, site.repr)
    && (site.attr == "set" || site.attr == "hset" || site.attr == "delete")
  }

  /** The severity of a matching call, exactly. A mutation is allowed in an authority file, as an event
      append, or in a critical file with a safe token within eight lines; it is banned otherwise in a
      critical file, and elsewhere if it writes state without such a token; all else is suspicious. A
      pipeline commit is banned in a critical file and suspicious elsewhere. */
  lemma SeverityExactly(scope: Scope, stack: seq<string>, site: CallSite)
    requires Matches(site)
    ensures var f := FindingFor(scope, stack, site);
      var safe := SafeWithinEight(scope.source, site.line);
      var open := scope.path !in ALLOWED_AUTHORITY_FILES && !AppendsEvent(site);
      && (site.attr in MUTATION_CALLS ==>
            && (f.severity == Allowed <==> !open || (Critical(scope.path) && safe))
            && (f.severity == Banned <==> open && !safe && (Critical(scope.path) || WritesState(scope.lex, site)))
            && (f.category == EventAppend <==> AppendsEvent(site)))
      && (site.attr !in MUTATION_CALLS ==>
            f.severity == (if Critical(scope.path) then Banned else Suspicious) && f.category == PipelineCommit)
  {
    NearbyMeans(scope, site);
    hide MUTATION_CALLS, PIPELINE_COMMIT_CALLS, ALLOWED_AUTHORITY_FILES, EVENT_APPEND_HINTS, Critical, SafeNearby;
    hide Contains, IsPipelineCommit, SafeWithinEight;
  }

  /** What else a finding says: where it is, the stripped text of its line, and the class and score that
      follow from its severity. */
  lemma FindingExactly(scope: Scope, stack: seq<string>, site: CallSite)
    requires Matches(site)
    ensures var f := FindingFor(scope, stack, site);
      && f.path == scope.path && f.line == site.line && f.call == site.name && f.function_ == CurrentFunction(stack)
      && f.context == (if 1 <= site.line <= |scope.source| then scope.lex.strip(scope.source[site.line - 1]) else "")
      && (f.severity != Suspicious ==> f.suspiciousClass == "not_applicable")
      && (f.severity == Suspicious ==>
            f.suspiciousClass == scope.lex.classOf(f.path, f.function_, f.category, f.call, f.context, f.reason))
  {
    hide MUTATION_CALLS, PIPELINE_COMMIT_CALLS, Classify, Categorize, Critical, IsPipelineCommit, RiskScore;
  }

  // In a critical file nothing is merely suspicious.
  lemma CriticalIsDecided(scope: Scope, stack: seq<string>, site: CallSite)
    requires Matches(site) && Critical(scope.path)
    ensures FindingFor(scope, stack, site).severity != Suspicious
  {
    hide MUTATION_CALLS, PIPELINE_COMMIT_CALLS, ALLOWED_AUTHORITY_FILES, Critical, SafeNearby, ContainsAny;
  }

  // ----- trees and positions

  // Class bodies, lambdas and all other nodes do not enter the function stack; decorators and default
  // values are children of their function.
  datatype Node =
    | FunctionDef(name: string, children: seq<Node>)
    | Call(site: CallSite, children: seq<Node>)
    | Other(children: seq<Node>)

  type Position = seq<nat>

  function Subtree(node: Node, pos: Position): Option<Node> {
    if pos == [] then Some(node)
    else if pos[0] < |node.children| then Subtree(node.children[pos[0]], pos[1..])
    else None
  }

  function OwnScope(node: Node): seq<string> { if node.FunctionDef? then [node.name] else [] }

  // Names of the functions strictly above a position, outermost first.
  function Enclosing(node: Node, pos: Position): seq<string> {
    if pos == [] || pos[0] >= |node.children| then []
    else OwnScope(node) + Enclosing(node.children[pos[0]], pos[1..])
  }

  predicate MatchingCall(node: Node, pos: Position) {
    var sub := Subtree(node, pos);
    sub.Some? && sub.value.Call? && Matches(sub.value.site)
  }

  function FindingAt(scope: Scope, stack: seq<string>, node: Node, pos: Position): Finding
    requires MatchingCall(node, pos)
  {
    FindingFor(scope, stack + Enclosing(node, pos), Subtree(node, pos).value.site)
  }

  function Prefixed(k: nat, ps: seq<Position>): seq<Position> {
    seq(|ps|, i requires 0 <= i < |ps| => [k] + ps[i])
  }

  // Positions of the matching calls in source order: a node before its children, children left to right.
  function CallsIn(node: Node): seq<Position>
    decreases node, |node.children| + 1
  {
    (if node.Call? && Matches(node.site) then [[]] else []) + CallsBelow(node, 0)
  }

  function CallsBelow(node: Node, k: nat): seq<Position>
    requires k <= |node.children|
    decreases node, |node.children| - k
  {
    if k == |node.children| then [] else Prefixed(k, CallsIn(node.children[k])) + CallsBelow(node, k + 1)
  }

  // Strict document order of positions: an ancestor first, then smaller child index first.
  predicate Precedes(p: Position, q: Position) {
    if p == [] then q != []
    else q != [] && (p[0] < q[0] || (p[0] == q[0] && Precedes(p[1..], q[1..])))
  }

  ghost predicate InOrder(ps: seq<Position>) {
    forall i, j :: 0 <= i < j < |ps| ==> Precedes(ps[i], ps[j])
  }

  lemma {:induction false} PrecedesIsStrict(p: Position)
    ensures !Precedes(p, p)
  {
    if p != [] { PrecedesIsStrict(p[1..]); }
  }

  lemma PrefixedMembers(k: nat, ps: seq<Position>, pos: Position)
    ensures pos in Prefixed(k, ps) <==> pos != [] && pos[0] == k && pos[1..] in ps
  {
    if pos in Prefixed(k, ps) {
      var i :| 0 <= i < |ps| && Prefixed(k, ps)[i] == pos;
      assert pos[1..] == ps[i];
    }
    if pos != [] && pos[0] == k && pos[1..] in ps {
      var i :| 0 <= i < |ps| && ps[i] == pos[1..];
      assert Prefixed(k, ps)[i] == pos;
    }
  }

  /** The list names exactly the positions holding a matching call. */
  lemma {:induction false} CallsInExact(node: Node, pos: Position)
    ensures pos in CallsIn(node) <==> MatchingCall(node, pos)
    decreases node, |node.children| + 1
  {
    CallsBelowExact(node, 0, pos);
  }

  lemma {:induction false} CallsBelowExact(node: Node, k: nat, pos: Position)
    requires k <= |node.children|
    ensures pos in CallsBelow(node, k) <==> pos != [] && k <= pos[0] && MatchingCall(node, pos)
    decreases node, |node.children| - k
  {
    if k < |node.children| {
      PrefixedMembers(k, CallsIn(node.children[k]), pos);
      CallsBelowExact(node, k + 1, pos);
      if pos != [] { CallsInExact(node.children[k], pos[1..]); }
    }
  }

  /** ... each exactly once, in document order. */
  lemma {:induction false} CallsInOrder(node: Node)
    ensures InOrder(CallsIn(node))
    decreases node, |node.children| + 1
  {
    CallsBelowOrder(node, 0);
    forall i | 0 <= i < |CallsBelow(node, 0)| ensures CallsBelow(node, 0)[i] != [] {
      CallsBelowExact(node, 0, CallsBelow(node, 0)[i]);
    }
  }

  lemma {:induction false} CallsBelowOrder(node: Node, k: nat)
    requires k <= |node.children|
    ensures InOrder(CallsBelow(node, k))
    decreases node, |node.children| - k
  {
    if k < |node.children| {
      var head, tail := CallsIn(node.children[k]), CallsBelow(node, k + 1);
      CallsInOrder(node.children[k]);
      CallsBelowOrder(node, k + 1);
      var front := Prefixed(k, head);
      forall i, j | 0 <= i < j < |front| ensures Precedes(front[i], front[j]) {
        assert front[i][1..] == head[i] && front[j][1..] == head[j];
      }
      forall i, j | 0 <= i < |front| && 0 <= j < |tail| ensures Precedes(front[i], tail[j]) {
        CallsBelowExact(node, k + 1, tail[j]);
      }
    }
  }

  // ----- the report

  function Report(scope: Scope, stack: seq<string>, node: Node, ps: seq<Position>): (r: seq<Finding>)
    requires forall i :: 0 <= i < |ps| ==> MatchingCall(node, ps[i])
  {
    seq(|ps|, i requires 0 <= i < |ps| => FindingAt(scope, stack, node, ps[i]))
  }

  lemma AllMatching(node: Node)
    ensures forall i :: 0 <= i < |CallsIn(node)| ==> MatchingCall(node, CallsIn(node)[i])
  {
    forall i | 0 <= i < |CallsIn(node)| ensures MatchingCall(node, CallsIn(node)[i]) {
      CallsInExact(node, CallsIn(node)[i]);
    }
  }

  ghost function FullReport(scope: Scope, stack: seq<string>, node: Node): seq<Finding> {
    AllMatching(node);
    Report(scope, stack, node, CallsIn(node))
  }

  lemma AllMatchingBelow(node: Node, k: nat)
    requires k <= |node.children|
    ensures forall i :: 0 <= i < |CallsBelow(node, k)| ==> MatchingCall(node, CallsBelow(node, k)[i])
  {
    var ps := CallsBelow(node, k);
    forall i | 0 <= i < |ps| ensures MatchingCall(node, ps[i]) { CallsBelowExact(node, k, ps[i]); }
  }

  ghost function ReportBelow(scope: Scope, stack: seq<string>, node: Node, k: nat): seq<Finding>
    requires k <= |node.children|
  {
    AllMatchingBelow(node, k);
    Report(scope, stack, node, CallsBelow(node, k))
  }

  lemma FindingInChild(scope: Scope, stack: seq<string>, node: Node, k: nat, pos: Position)
    requires k < |node.children| && MatchingCall(node.children[k], pos)
    ensures MatchingCall(node, [k] + pos)
    ensures FindingAt(scope, stack, node, [k] + pos) == FindingAt(scope, stack + OwnScope(node), node.children[k], pos)
  {
    hide FindingFor, Matches;
    assert ([k] + pos)[1..] == pos;
    assert stack + (OwnScope(node) + Enclosing(node.children[k], pos))
           == stack + OwnScope(node) + Enclosing(node.children[k], pos);
  }

  lemma ReportStep(scope: Scope, stack: seq<string>, node: Node, k: nat)
    requires k < |node.children|
    ensures ReportBelow(scope, stack, node, k)
         == FullReport(scope, stack + OwnScope(node), node.children[k]) + ReportBelow(scope, stack, node, k + 1)
  {
    hide FindingAt, MatchingCall, CallsIn;
    var child := node.children[k];
    var front := CallsIn(child);
    AllMatching(child);
    AllMatchingBelow(node, k);
    AllMatchingBelow(node, k + 1);
    forall i | 0 <= i < |front|
      ensures MatchingCall(node, [k] + front[i])
      ensures FindingAt(scope, stack, node, [k] + front[i]) == FindingAt(scope, stack + OwnScope(node), child, front[i])
    {
      FindingInChild(scope, stack, node, k, front[i]);
    }
  }

  lemma ReportRoot(scope: Scope, stack: seq<string>, node: Node)
    ensures FullReport(scope, stack, node)
         == (if node.Call? && Matches(node.site) then [FindingFor(scope, stack, node.site)] else [])
            + ReportBelow(scope, stack, node, 0)
  {
    hide FindingFor, Matches;
    AllMatching(node);
    AllMatchingBelow(node, 0);
    assert stack + Enclosing(node, []) == stack;
  }

  // The finding in question reports this call, under the functions that enclose it.
  ghost predicate Reports(f: Finding, scope: Scope, stack: seq<string>, node: Node, pos: Position) {
    && MatchingCall(node, pos)
    && f.path == scope.path && f.line == Subtree(node, pos).value.site.line
    && f.call == Subtree(node, pos).value.site.name
    && f.function_ == CurrentFunction(stack + Enclosing(node, pos))
  }

  /** Findings and matching calls are in bijection, in document order, and each is attributed to the
      functions on the path to its call. */
  lemma OneFindingPerMatchingCall(scope: Scope, stack: seq<string>, node: Node)
    ensures |FullReport(scope, stack, node)| == |CallsIn(node)|
    ensures forall pos :: MatchingCall(node, pos) <==> pos in CallsIn(node)
    ensures forall i, j :: 0 <= i < j < |CallsIn(node)| ==> Precedes(CallsIn(node)[i], CallsIn(node)[j])
    ensures forall i, j :: 0 <= i < j < |CallsIn(node)| ==> CallsIn(node)[i] != CallsIn(node)[j]
    ensures forall i :: 0 <= i < |CallsIn(node)| ==>
      Reports(FullReport(scope, stack, node)[i], scope, stack, node, CallsIn(node)[i])
  {
    hide Matches, Classify, Categorize, Subtree, Enclosing, CallsIn,
         CurrentFunction, SuspiciousClass, RiskScore, MUTATION_CALLS, Critical;
    AllMatching(node);
    CallsInOrder(node);
    forall pos ensures MatchingCall(node, pos) <==> pos in CallsIn(node) { CallsInExact(node, pos); }
    forall i, j | 0 <= i < j < |CallsIn(node)| ensures CallsIn(node)[i] != CallsIn(node)[j] {
      PrecedesIsStrict(CallsIn(node)[i]);
    }
  }

  // ----- the stack-mutating visitor

  class AuthorityVisitor {
    const scope: Scope
    var findings: seq<Finding>
    var functionStack: seq<string>

    constructor (scope: Scope)
      ensures this.scope == scope && findings == [] && functionStack == []
    {
      this.scope := scope;
      findings, functionStack := [], [];
    }

    method VisitCall(site: CallSite)
      modifies this`findings
      ensures findings == old(findings) + if Matches(site) then [FindingFor(scope, functionStack, site)] else []
    {
      hide Classify, Categorize, MakeFinding, IsPipelineCommit, MUTATION_CALLS, PIPELINE_COMMIT_CALLS, Critical;
      if site.attr in MUTATION_CALLS {
        var (severity, reason) := Classify(scope, site);
        findings := findings + [MakeFinding(scope, functionStack, severity, site, Categorize(scope.lex, site), reason)];
      } else if IsPipelineCommit(site) {
        var severity := if Critical(scope.path) then Banned else Suspicious;
        findings := findings + [MakeFinding(scope, functionStack, severity, site, PipelineCommit, CommitReview)];
      }
    }

    /** Dispatch on the node: the stack is back where it was, and the findings have grown by one entry
        per matching call below, each under the functions that enclose it. */
    method Visit(node: Node)
      modifies this
      ensures functionStack == old(functionStack)
      ensures findings == old(findings) + FullReport(scope, old(functionStack), node)
      decreases node, 1
    {
      hide FullReport, ReportBelow, FindingFor, Matches;
      ReportRoot(scope, functionStack, node);
      match node
      case FunctionDef(name, _) =>
        functionStack := functionStack + [name];
        GenericVisit(node, old(functionStack));
        functionStack := functionStack[..|functionStack| - 1];
      case Call(site, _) =>
        VisitCall(site);
        assert functionStack + OwnScope(node) == functionStack;
        GenericVisit(node, old(functionStack));
      case Other(_) =>
        assert functionStack + OwnScope(node) == functionStack;
        GenericVisit(node, old(functionStack));
    }

    method GenericVisit(node: Node, ghost outer: seq<string>)
      requires functionStack == outer + OwnScope(node)
      modifies this
      ensures functionStack == old(functionStack)
      ensures findings == old(findings) + ReportBelow(scope, outer, node, 0)
      decreases node, 0
    {
      hide FullReport, FindingFor;
      var k := 0;
      while k < |node.children|
        invariant 0 <= k <= |node.children| && functionStack == old(functionStack)
        invariant findings + ReportBelow(scope, outer, node, k) == old(findings) + ReportBelow(scope, outer, node, 0)
      {
        hide ReportBelow;
        ReportStep(scope, outer, node, k);
        Visit(node.children[k]);
        k := k + 1;
      }
      assert CallsBelow(node, k) == [];
    }
  }
}
