/** Receipt files: the legacy hash chain verified backwards from one digest
    (scripts/acceptance_ci_legacy_environment.py, `_record` and `_verify_receipts`) and the fresh
    domain's list of per-file digests (scripts/acceptance_fresh_domain.py, same names). */
module Receipts {
  import opened Results

  type Content = string
  type Digest = string

  datatype Row = Row(kind: string, value: string, previous: Option<Digest>)

  // File names start with the receipt's number, so different receipts have different paths.
  datatype Path = Path(index: nat, kind: string)
  type Disk = map<Path, Content>

  // JSON and SHA-256: `previous` reads back the chained digest, None where parsing raises.
  datatype Codec = Codec(encode: Row -> Content, previous: Content -> Option<Option<Digest>>, hash: Content -> Digest)
  {
    ghost predicate Sound() {
      forall row :: previous(encode(row)) == Some(row.previous)
    }
  }

  // No two different contents among those recorded and those now on disk share a digest.
  ghost predicate CollisionFree(hash: Content -> Digest, written: seq<Content>, disk: Disk) {
    forall i, p :: 0 <= i < |written| && p in disk && hash(disk[p]) == hash(written[i]) ==> disk[p] == written[i]
  }

  // ----- what was recorded

  function Head(codec: Codec, written: seq<Content>): Option<Digest> {
    if written == [] then None else Some(codec.hash(written[|written| - 1]))
  }

  ghost predicate Chained(codec: Codec, written: seq<Content>) {
    forall i :: 0 <= i < |written| ==> codec.previous(written[i]) == Some(Head(codec, written[..i]))
  }

  ghost predicate Intact(records: seq<Path>, written: seq<Content>, disk: Disk)
    requires |records| == |written|
  {
    forall i :: 0 <= i < |records| ==> records[i] in disk && disk[records[i]] == written[i]
  }

  lemma ChainExtends(codec: Codec, written: seq<Content>, raw: Content)
    requires Chained(codec, written) && codec.previous(raw) == Some(Head(codec, written))
    ensures Chained(codec, written + [raw]) && Head(codec, written + [raw]) == Some(codec.hash(raw))
  {
    var next := written + [raw];
    forall i | 0 <= i < |next| ensures codec.previous(next[i]) == Some(Head(codec, next[..i])) {
      if i < |written| { assert next[..i] == written[..i]; } else { assert next[..i] == written; }
    }
  }

  // ----- the backward walk

  ghost predicate ChainAccepts(codec: Codec, records: seq<Path>, expected: Option<Digest>, disk: Disk) {
    if records == [] then expected == None
    else
      var path := records[|records| - 1];
      && path in disk && Some(codec.hash(disk[path])) == expected
      && codec.previous(disk[path]).Some?
      && ChainAccepts(codec, records[..|records| - 1], codec.previous(disk[path]).value, disk)
  }

  method WalkChain(codec: Codec, records: seq<Path>, head: Option<Digest>, disk: Disk) returns (ok: bool)
    ensures ok <==> ChainAccepts(codec, records, head, disk)
  {
    var expected := head;
    var i := |records|;
    assert records[..i] == records;
    while i > 0
      invariant 0 <= i <= |records|
      invariant ChainAccepts(codec, records, head, disk) <==> ChainAccepts(codec, records[..i], expected, disk)
    {
      var path := records[i - 1];
      assert records[..i][..i - 1] == records[..i - 1];
      assert records[..i][i - 1] == path;
      if path !in disk || Some(codec.hash(disk[path])) != expected { return false; }
      if codec.previous(disk[path]).None? { return false; }
      expected := codec.previous(disk[path]).value;
      i := i - 1;
    }
    assert records[..0] == [];
    ok := expected == None;
  }

  /** With no digest collision among the contents concerned, the walk from the one stored digest
      accepts exactly when every receipt file still holds the bytes that were recorded. */
  lemma {:induction false} ChainAcceptsExactlyIntact(codec: Codec, records: seq<Path>,
                                                     written: seq<Content>, disk: Disk)
    requires |records| == |written| && Chained(codec, written) && CollisionFree(codec.hash, written, disk)
    ensures ChainAccepts(codec, records, Head(codec, written), disk) <==> Intact(records, written, disk)
  {
    if records != [] {
      var n := |records| - 1;
      var path := records[n];
      if path in disk && codec.hash(disk[path]) == codec.hash(written[n]) {
        assert disk[path] == written[n];
        assert forall i :: 0 <= i < n ==> written[..n][..i] == written[..i];
        ChainAcceptsExactlyIntact(codec, records[..n], written[..n], disk);
        assert Intact(records, written, disk) <==> Intact(records[..n], written[..n], disk) by {
          if Intact(records[..n], written[..n], disk) {
            forall i | 0 <= i <= n ensures records[i] in disk && disk[records[i]] == written[i] {
              if i < n { assert records[..n][i] == records[i] && written[..n][i] == written[i]; }
            }
          }
          if Intact(records, written, disk) {
            forall i | 0 <= i < n ensures records[..n][i] in disk && disk[records[..n][i]] == written[..n][i] { }
          }
        }
      }
    }
  }

  // ----- the digest list

  datatype Receipt = Receipt(path: Path, digest: Digest)

  ghost predicate ListAccepts(codec: Codec, receipts: seq<Receipt>, disk: Disk) {
    && receipts != []
    && forall i :: 0 <= i < |receipts| ==>
         receipts[i].path in disk && codec.hash(disk[receipts[i].path]) == receipts[i].digest
  }

  method CheckList(codec: Codec, receipts: seq<Receipt>, disk: Disk) returns (ok: bool)
    ensures ok <==> ListAccepts(codec, receipts, disk)
  {
    if receipts == [] { return false; }
    var i := 0;
    while i < |receipts|
      invariant 0 <= i <= |receipts|
      invariant forall k :: 0 <= k < i ==>
        receipts[k].path in disk && codec.hash(disk[receipts[k].path]) == receipts[k].digest
    {
      if receipts[i].path !in disk || codec.hash(disk[receipts[i].path]) != receipts[i].digest { return false; }
      i := i + 1;
    }
    ok := true;
  }

  function Digested(codec: Codec, records: seq<Path>, written: seq<Content>): seq<Receipt>
    requires |records| == |written|
  {
    seq(|records|, i requires 0 <= i < |records| => Receipt(records[i], codec.hash(written[i])))
  }

  /** On the same records the one-digest chain and the digest list give the same verdict, except that
      an empty chain is accepted and an empty list is refused. */
  lemma VerifiersAgree(codec: Codec, records: seq<Path>, written: seq<Content>, disk: Disk)
    requires |records| == |written| && Chained(codec, written) && CollisionFree(codec.hash, written, disk)
    ensures records != [] ==>
      (ChainAccepts(codec, records, Head(codec, written), disk)
       <==> ListAccepts(codec, Digested(codec, records, written), disk))
    ensures records == [] ==>
      ChainAccepts(codec, records, Head(codec, written), disk) &&
      !ListAccepts(codec, Digested(codec, records, written), disk)
  {
    ChainAcceptsExactlyIntact(codec, records, written, disk);
    var list := Digested(codec, records, written);
    if records != [] && ListAccepts(codec, list, disk) {
      forall i | 0 <= i < |records| ensures records[i] in disk && disk[records[i]] == written[i] {
        assert list[i].path in disk && codec.hash(disk[list[i].path]) == list[i].digest;
      }
    }
  }

  // ----- recording

  class LegacyReceipts {
    const codec: Codec
    var records: seq<Path>
    var previous: Option<Digest>
    var disk: Disk
    ghost var written: seq<Content>

    ghost predicate Valid()
      reads this
    {
      && codec.Sound() && |records| == |written| && Chained(codec, written) && previous == Head(codec, written)
      && forall i :: 0 <= i < |records| ==> records[i].index == i
    }

    constructor (codec: Codec)
      requires codec.Sound()
      ensures Valid() && records == [] && disk == map[]
    {
      this.codec, records, previous, disk, written := codec, [], None, map[], [];
    }

    // `_record`: exclusive creation; the chain advances only after the whole file is written.
    method Record(kind: string, value: string, leaks: Content -> bool) returns (ok: bool)
      requires Valid()
      modifies this
      ensures Valid()
      ensures ok ==> written == old(written) + [codec.encode(Row(kind, value, old(previous)))]
      ensures ok ==> records == old(records) + [Path(|old(records)|, kind)] && !leaks(written[|written| - 1])
      ensures !ok ==> written == old(written) && records == old(records) && previous == old(previous)
      ensures forall p :: p in old(disk) ==> p in disk && disk[p] == old(disk)[p]
    {
      hide Chained;
      var raw := codec.encode(Row(kind, value, previous));
      if leaks(raw) { return false; }
      var path := Path(|records|, kind);
      if path in disk { return false; }
      var partial: bool, torn: Content := *, *;
      if partial { disk := disk[path := torn]; return false; }
      disk := disk[path := raw];
      previous := Some(codec.hash(raw));
      records := records + [path];
      ChainExtends(codec, written, raw);
      written := written + [raw];
      ok := true;
    }

    /** `_verify_receipts`, for any change made to the files since they were recorded. */
    method Verify() returns (ok: bool)
      requires Valid() && CollisionFree(codec.hash, written, disk)
      ensures ok <==> Intact(records, written, disk)
    {
      ok := WalkChain(codec, records, previous, disk);
      ChainAcceptsExactlyIntact(codec, records, written, disk);
    }
  }
}
