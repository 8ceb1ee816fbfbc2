/** The evidence manifest: built by scripts/sprint80/transition_cardinality.py (`sha256_file`,
    `build_evidence_manifest`) and validated by scripts/sprint80/freeze_hardening.py
    (`validate_manifest`). */
module Manifest {
  import opened Results
  import opened Orders

  type Content = seq<nat>

  const CHUNK: nat := 1048576
  const MANIFEST_NAME := "manifest.json"
  const REQUIRED_EVIDENCE := {
    "preflight.json", "environment.json", "writer_inventory.json", "transition_cardinality.json",
    "ttl_durability.json", "truth_contradictions.json", "aggregate_boundary.json", "final_summary.json",
    "reality_pytest.txt", "contracts_pytest.txt", "preflight_after.json", "environment_after.json" }

  // ----- hashing

  // A streaming digest: a state, the effect of one byte, and the final reading.
  datatype Hash = Hash(init: nat, absorb: (nat, nat) -> nat, finish: nat -> string)

  function Absorb(h: Hash, state: nat, bytes: Content): nat {
    if bytes == [] then state else h.absorb(Absorb(h, state, bytes[..|bytes| - 1]), bytes[|bytes| - 1])
  }

  function DigestOf(h: Hash, bytes: Content): string { h.finish(Absorb(h, h.init, bytes)) }

  ghost predicate Absorbs(h: Hash, bytes: Content, states: seq<nat>, i: nat)
    requires i < |bytes| && |states| == |bytes| + 1
  {
    states[i + 1] == h.absorb(states[i], bytes[i])
  }

  // From the initial state, one byte after the other in file order; the digest is read off the last.
  lemma {:induction false} DigestIsFold(h: Hash, bytes: Content, states: seq<nat>, n: nat)
    requires |states| == |bytes| + 1 && states[0] == h.init && n <= |bytes|
    requires forall i :: 0 <= i < |bytes| ==> Absorbs(h, bytes, states, i)
    ensures Absorb(h, h.init, bytes[..n]) == states[n]
    ensures n == |bytes| ==> DigestOf(h, bytes) == h.finish(states[n])
  {
    if n > 0 {
      DigestIsFold(h, bytes, states, n - 1);
      assert bytes[..n][..n - 1] == bytes[..n - 1];
      assert Absorbs(h, bytes, states, n - 1);
    }
    assert bytes[..|bytes|] == bytes;
  }

  lemma {:induction false} AbsorbConcat(h: Hash, state: nat, a: Content, b: Content)
    ensures Absorb(h, state, a + b) == Absorb(h, Absorb(h, state, a), b)
  {
    if b == [] {
      assert a + b == a;
    } else {
      assert (a + b)[..|a + b| - 1] == a + b[..|b| - 1];
      AbsorbConcat(h, state, a, b[..|b| - 1]);
    }
  }

  /** `sha256_file`: hashing in one-megabyte chunks is hashing the whole file. */
  method Sha256File(h: Hash, file: Content) returns (digest: string)
    ensures digest == DigestOf(h, file)
  {
    var state, pos := h.init, 0;
    while pos < |file|
      invariant 0 <= pos <= |file| && state == Absorb(h, h.init, file[..pos])
    {
      var end := if pos + CHUNK <= |file| then pos + CHUNK else |file|;
      AbsorbConcat(h, h.init, file[..pos], file[pos..end]);
      assert file[..pos] + file[pos..end] == file[..end];
      state, pos := Absorb(h, state, file[pos..end]), end;
    }
    assert file[..|file|] == file;
    digest := h.finish(state);
  }

  // ----- directories and manifests

  datatype Item = File(content: Content) | Subdirectory
  type Directory = map<string, Item>
  datatype Row = Row(path: string, sha256: string, size: int)
  datatype Manifest = Manifest(branch: string, head: string, artifacts: seq<Row>)

  predicate IsEvidence(dir: Directory, name: string) { name in dir && dir[name].File? && name != MANIFEST_NAME }

  function Evidence(dir: Directory): set<string> { set n | n in dir && IsEvidence(dir, n) }

  function Paths(rows: seq<Row>): seq<string> { seq(|rows|, i requires 0 <= i < |rows| => rows[i].path) }

  predicate RowMatches(h: Hash, dir: Directory, row: Row) {
    && row.path in dir && dir[row.path].File?
    && |dir[row.path].content| == row.size && DigestOf(h, dir[row.path].content) == row.sha256
  }

  ghost predicate AllMatch(h: Hash, dir: Directory, rows: seq<Row>) {
    forall i :: 0 <= i < |rows| ==> RowMatches(h, dir, rows[i])
  }

  function Kept(dir: Directory, names: seq<string>): seq<string> {
    if names == [] then []
    else
      var init, last := names[..|names| - 1], names[|names| - 1];
      if IsEvidence(dir, last) then Kept(dir, init) + [last] else Kept(dir, init)
  }

  method BuildRows(h: Hash, dir: Directory, names: seq<string>) returns (rows: seq<Row>)
    requires Elements(names) == dir.Keys
    ensures Paths(rows) == Kept(dir, names) && AllMatch(h, dir, rows)
  {
    rows := [];
    var i := 0;
    while i < |names|
      invariant 0 <= i <= |names|
      invariant Paths(rows) == Kept(dir, names[..i]) && AllMatch(h, dir, rows)
    {
      var name := names[i];
      assert name in Elements(names);
      assert names[..i + 1] == names[..i] + [name];
      if dir[name].File? && name != MANIFEST_NAME {
        var digest := Sha256File(h, dir[name].content);
        rows := rows + [Row(name, digest, |dir[name].content|)];
        assert Paths(rows) == Kept(dir, names[..i]) + [name];
      }
      assert names[..i + 1][..i] == names[..i];
      i := i + 1;
    }
    assert names[..|names|] == names;
  }

  lemma SortedListing(le: (string, string) -> bool, listing: seq<string>)
    requires TotalOrder(le) && Distinct(listing)
    ensures Sorted(le, SortSeq(le, listing)) && Distinct(SortSeq(le, listing))
    ensures Elements(SortSeq(le, listing)) == Elements(listing)
  {
    var names := SortSeq(le, listing);
    SortSeqSorted(le, listing);
    forall n ensures n in Elements(names) <==> n in Elements(listing) { SameMultisetSameMembers(names, listing, n); }
    assert Elements(names) == Elements(listing);
    DistinctCardinality(names);
    DistinctCardinality(listing);
  }

  lemma {:induction false} KeptMembers(dir: Directory, names: seq<string>)
    ensures forall n :: n in Kept(dir, names) <==> n in names && IsEvidence(dir, n)
  {
    if names != [] {
      KeptMembers(dir, names[..|names| - 1]);
      assert names == names[..|names| - 1] + [names[|names| - 1]];
    }
  }

  lemma {:induction false} KeptOrdered(dir: Directory, le: (string, string) -> bool, names: seq<string>)
    requires Sorted(le, names) && Distinct(names)
    ensures Sorted(le, Kept(dir, names)) && Distinct(Kept(dir, names))
  {
    if names != [] {
      var init, last := names[..|names| - 1], names[|names| - 1];
      KeptOrdered(dir, le, init);
      KeptMembers(dir, init);
      var kept := Kept(dir, init);
      forall k | 0 <= k < |kept| ensures le(kept[k], last) && kept[k] != last {
        assert kept[k] in init;
        var j :| 0 <= j < |init| && init[j] == kept[k];
        assert names[j] == init[j];
      }
    }
  }

  lemma KeptFacts(dir: Directory, le: (string, string) -> bool, names: seq<string>)
    requires Sorted(le, names) && Distinct(names) && Elements(names) == dir.Keys
    ensures Sorted(le, Kept(dir, names)) && Distinct(Kept(dir, names)) && Elements(Kept(dir, names)) == Evidence(dir)
  {
    KeptOrdered(dir, le, names);
    KeptMembers(dir, names);
    forall n ensures n in Elements(Kept(dir, names)) <==> n in Evidence(dir) {
      assert n in names <==> n in Elements(names);
    }
  }

  /** `build_evidence_manifest`: one row per regular file other than the manifest, in name order,
      with that file's size and digest. */
  method BuildManifest(h: Hash, dir: Directory, le: (string, string) -> bool, listing: seq<string>,
                       branch: string, head: string)
    returns (m: Manifest)
    requires TotalOrder(le) && Distinct(listing) && Elements(listing) == dir.Keys
    ensures m.branch == branch && m.head == head
    ensures Distinct(Paths(m.artifacts)) && Sorted(le, Paths(m.artifacts)) &&
      Elements(Paths(m.artifacts)) == Evidence(dir)
    ensures AllMatch(h, dir, m.artifacts)
  {
    var names := SortSeq(le, listing);
    SortedListing(le, listing);
    var rows := BuildRows(h, dir, names);
    KeptFacts(dir, le, names);
    m := Manifest(branch, head, rows);
  }

  // ----- validation

  ghost predicate Accepts(h: Hash, dir: Directory, m: Manifest, branch: Option<string>, head: Option<string>) {
    && Distinct(Paths(m.artifacts)) && Elements(Paths(m.artifacts)) == REQUIRED_EVIDENCE
    && (branch.Some? ==> m.branch == branch.value) && (head.Some? ==> m.head == head.value)
    && AllMatch(h, dir, m.artifacts)
  }

  /** `validate_manifest`: accepted exactly when the rows are in bijection with the required evidence,
      branch and head are the expected ones, and every file still has its size and digest. */
  method ValidateManifest(h: Hash, dir: Directory, m: Manifest, branch: Option<string>, head: Option<string>)
    returns (ok: bool)
    ensures ok <==> Accepts(h, dir, m, branch, head)
  {
    hide REQUIRED_EVIDENCE, DigestOf;
    var rows := m.artifacts;
    var paths := Elements(Paths(rows));
    if REQUIRED_EVIDENCE - paths != {} || paths - REQUIRED_EVIDENCE != {} {
      assert paths != REQUIRED_EVIDENCE; return false;
    }
    assert paths == REQUIRED_EVIDENCE by {
      assert forall n :: n in REQUIRED_EVIDENCE ==> n in paths || n in REQUIRED_EVIDENCE - paths;
      assert forall n :: n in paths ==> n in REQUIRED_EVIDENCE || n in paths - REQUIRED_EVIDENCE;
    }
    DistinctCardinality(Paths(rows));
    if |rows| != |REQUIRED_EVIDENCE| { return false; }
    if branch.Some? && m.branch != branch.value { return false; }
    if head.Some? && m.head != head.value { return false; }
    var i := 0;
    while i < |rows|
      invariant 0 <= i <= |rows|
      invariant forall k :: 0 <= k < i ==> RowMatches(h, dir, rows[k])
    {
      var row := rows[i];
      if row.path !in dir || !dir[row.path].File? { return false; }
      if |dir[row.path].content| != row.size { return false; }
      if DigestOf(h, dir[row.path].content) != row.sha256 { return false; }
      i := i + 1;
    }
    ok := true;
  }

  // ----- both together

  ghost predicate Built(h: Hash, dir: Directory, m: Manifest) {
    Distinct(Paths(m.artifacts)) && Elements(Paths(m.artifacts)) == Evidence(dir) && AllMatch(h, dir, m.artifacts)
  }

  /** Building and then validating an untouched directory succeeds exactly when its files are the
      required set. */
  lemma BuildThenValidate(h: Hash, dir: Directory, m: Manifest)
    requires Built(h, dir, m)
    ensures Accepts(h, dir, m, Some(m.branch), Some(m.head)) <==> Evidence(dir) == REQUIRED_EVIDENCE
  {
    hide REQUIRED_EVIDENCE;
  }

  predicate NoCollision(h: Hash, a: Item, b: Item) {
    a.File? && b.File? && DigestOf(h, a.content) == DigestOf(h, b.content) ==> a == b
  }

  /** A built manifest accepts a later directory exactly when every required file still has the very
      content it was built from, provided no two of the contents concerned share a digest. */
  lemma ManifestPinsContents(h: Hash, dir: Directory, m: Manifest, later: Directory)
    requires Built(h, dir, m) && Evidence(dir) == REQUIRED_EVIDENCE
    requires forall n :: n in REQUIRED_EVIDENCE && n in later ==> NoCollision(h, dir[n], later[n])
    ensures Accepts(h, later, m, None, None)
       <==> forall n :: n in REQUIRED_EVIDENCE ==> n in later && later[n] == dir[n]
  {
    hide REQUIRED_EVIDENCE, DigestOf;
    var paths := Paths(m.artifacts);
    if Accepts(h, later, m, None, None) {
      forall n | n in REQUIRED_EVIDENCE ensures n in later && later[n] == dir[n] {
        assert n in Elements(paths);
        var i :| 0 <= i < |paths| && paths[i] == n;
        assert RowMatches(h, later, m.artifacts[i]) && RowMatches(h, dir, m.artifacts[i]);
      }
    }
    if forall n :: n in REQUIRED_EVIDENCE ==> n in later && later[n] == dir[n] {
      forall i | 0 <= i < |m.artifacts| ensures RowMatches(h, later, m.artifacts[i]) {
        assert paths[i] in Elements(paths);
        assert RowMatches(h, dir, m.artifacts[i]);
      }
    }
  }
}
