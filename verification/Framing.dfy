/** Newline-delimited private frames (scripts/acceptance_prepared_domain.py, `_send` and `_receive`). */
module Framing {
  import opened Results

  newtype byte = x: int | 0 <= x < 256
  type Bytes = seq<byte>

  const NEWLINE: byte := 10
  const LIMIT: nat := 16384

  function Concat(parts: seq<Bytes>): Bytes {
    if parts == [] then [] else Concat(parts[..|parts| - 1]) + parts[|parts| - 1]
  }

  // What a writer has put on a pipe: whole frames, then possibly the start of one.
  function Stream(frames: seq<Bytes>, tail: Bytes): Bytes {
    if frames == [] then tail else frames[0] + [NEWLINE] + Stream(frames[1..], tail)
  }

  ghost predicate LineFree(frames: seq<Bytes>, tail: Bytes) {
    NEWLINE !in tail && forall f :: f in frames ==> NEWLINE !in f
  }

  // ----- sending

  datatype Write = Blocked | Wrote(n: nat)

  function Capacity(writes: seq<Write>): nat {
    if writes == [] then 0
    else Capacity(writes[..|writes| - 1]) + (match writes[|writes| - 1] case Blocked => 0 case Wrote(n) => n)
  }

  lemma {:induction false} CapacityGrows(writes: seq<Write>, i: nat)
    requires i <= |writes|
    ensures Capacity(writes[..i]) <= Capacity(writes)
  {
    if i < |writes| {
      CapacityGrows(writes[..|writes| - 1], i);
      assert writes[..|writes| - 1][..i] == writes[..i];
    } else {
      assert writes[..i] == writes;
    }
  }

  /** `_send` against any pattern of partial and blocked writes until the deadline: what reached the
      pipe is a prefix of the one frame, all of it exactly on success; an oversized frame sends nothing. */
  method Send(body: Bytes, writes: seq<Write>) returns (sent: Bytes, ok: bool)
    ensures sent <= body + [NEWLINE]
    ensures ok ==> sent == body + [NEWLINE]
    ensures ok <==> |body| + 1 <= 16384 && Capacity(writes) >= |body| + 1
    ensures |body| + 1 > 16384 ==> sent == []
  {
    sent := [];
    var raw := body + [NEWLINE];
    if |raw| > LIMIT { return [], false; }
    var i := 0;
    while raw != [] && i < |writes|
      invariant 0 <= i <= |writes|
      invariant sent + raw == body + [NEWLINE]
      invariant if raw == [] then Capacity(writes) >= |body| + 1 else Capacity(writes[..i]) == |sent|
    {
      assert writes[..i + 1][..i] == writes[..i];
      match writes[i] {
        case Blocked =>
        case Wrote(n) =>
          var m := if n < |raw| then n else |raw|;
          if n >= |raw| { CapacityGrows(writes, i + 1); }
          sent, raw := sent + raw[..m], raw[m..];
      }
      i := i + 1;
    }
    assert writes[..|writes|] == writes;
    ok := raw == [];
  }

  // ----- receiving

  ghost predicate OneLine(raw: Bytes) {
    raw != [] && raw[|raw| - 1] == NEWLINE && NEWLINE !in raw[..|raw| - 1]
  }

  // The first k parts make up exactly one line within the limit.
  ghost predicate LineAfter(parts: seq<Bytes>, k: nat)
    requires k <= |parts|
  {
    OneLine(Concat(parts[..k])) && |Concat(parts[..k])| <= 16384
  }

  ghost predicate NoEof(parts: seq<Bytes>) { forall p :: p in parts ==> p != [] }

  lemma ConcatStep(parts: seq<Bytes>, k: nat)
    requires k < |parts|
    ensures Concat(parts[..k + 1]) == Concat(parts[..k]) + parts[k]
  {
    assert parts[..k + 1][..k] == parts[..k];
  }

  lemma {:induction false} ConcatPrefix(parts: seq<Bytes>, j: nat, k: nat)
    requires j <= k <= |parts|
    ensures Concat(parts[..j]) <= Concat(parts[..k])
  {
    if j < k {
      ConcatPrefix(parts, j, k - 1);
      ConcatStep(parts, k - 1);
    }
  }

  lemma NoLineYet(parts: seq<Bytes>, n: nat)
    requires n == |parts| && NEWLINE !in Concat(parts[..n])
    requires forall k :: 0 <= k < n ==> NEWLINE !in Concat(parts[..k])
    ensures forall k :: 0 <= k <= n ==> !LineAfter(parts, k)
  { }

  lemma EofEndsIt(parts: seq<Bytes>, n: nat)
    requires n < |parts| && parts[n] == [] && NEWLINE !in Concat(parts[..n])
    requires NoEof(parts) || (parts[|parts| - 1] == [] && NoEof(parts[..|parts| - 1]))
    requires forall k :: 0 <= k < n ==> NEWLINE !in Concat(parts[..k])
    ensures forall k :: 0 <= k <= |parts| ==> !LineAfter(parts, k)
  {
    assert parts[n] in parts;
    var before := parts[..|parts| - 1];
    forall m | 0 <= m < |parts| - 1 ensures parts[m] != [] { assert before[m] in before; }
    assert n == |parts| - 1;
    ConcatStep(parts, n);
    assert Concat(parts[..n + 1]) == Concat(parts[..n]);
  }

  lemma TooLong(parts: seq<Bytes>, n: nat)
    requires 0 < n <= |parts| && |Concat(parts[..n])| > LIMIT
    requires forall k :: 0 <= k < n ==> NEWLINE !in Concat(parts[..k])
    ensures forall k :: 0 <= k <= |parts| ==> !LineAfter(parts, k)
  {
    forall k | n <= k <= |parts| ensures !LineAfter(parts, k) { ConcatPrefix(parts, n, k); }
  }

  lemma NotOneLine(parts: seq<Bytes>, n: nat)
    requires n <= |parts| && NEWLINE in Concat(parts[..n]) && !OneLine(Concat(parts[..n]))
    requires forall k :: 0 <= k < n ==> NEWLINE !in Concat(parts[..k])
    ensures forall k :: 0 <= k <= |parts| ==> !LineAfter(parts, k)
  {
    var a := Concat(parts[..n]);
    var i :| 0 <= i < |a| && a[i] == NEWLINE;
    forall k | n <= k <= |parts| ensures !LineAfter(parts, k) {
      ConcatPrefix(parts, n, k);
      var b := Concat(parts[..k]);
      assert b[i] == NEWLINE;
      assert i < |b| - 1 ==> b[..|b| - 1][i] == NEWLINE;
      assert OneLine(b) ==> |a| == |b|;
      assert |a| == |b| ==> a == b;
    }
  }

  /** `_receive` against any splitting of the bytes into reads (parts), an empty part being end of
      file and running out of parts the deadline. It returns a line exactly when some whole number
      of reads ends at the first newline; otherwise it raises (None). */
  method Receive(parts: seq<Bytes>) returns (r: Option<Bytes>, used: nat)
    requires NoEof(parts) || (parts != [] && parts[|parts| - 1] == [] && NoEof(parts[..|parts| - 1]))
    ensures used <= |parts|
    ensures r.Some? ==> LineAfter(parts, used) && r.value + [NEWLINE] == Concat(parts[..used])
    ensures r.None? ==> forall k :: 0 <= k <= |parts| ==> !LineAfter(parts, k)
  {
    var raw: Bytes := [];
    used := 0;
    while NEWLINE !in raw
      invariant used <= |parts| && raw == Concat(parts[..used]) && |raw| <= LIMIT
      invariant forall k :: 0 <= k < used ==> NEWLINE !in Concat(parts[..k])
      invariant used > 0 ==> NoEof(parts[..used])
      decreases |parts| - used
    {
      if used == |parts| { NoLineYet(parts, used); return None, used; }
      var part := parts[used];
      ConcatStep(parts, used);
      if part == [] { EofEndsIt(parts, used); return None, used; }
      assert NoEof(parts[..used + 1]) by { assert parts[..used + 1] == parts[..used] + [part]; }
      used := used + 1;
      raw := raw + part;
      if |raw| > LIMIT { TooLong(parts, used); return None, used; }
    }
    if raw[|raw| - 1] == NEWLINE && NEWLINE !in raw[..|raw| - 1] {
      assert LineAfter(parts, used);
      return Some(raw[..|raw| - 1]), used;
    }
    NotOneLine(parts, used);
    return None, used;
  }

  // ----- frames

  lemma {:induction false} FirstNewline(a: Bytes, x: Bytes, b: Bytes, y: Bytes)
    requires NEWLINE !in a && NEWLINE !in b && a + [NEWLINE] + x == b + [NEWLINE] + y
    ensures a == b && x == y
  {
    var s, t := a + [NEWLINE] + x, b + [NEWLINE] + y;
    assert s[|a|] == NEWLINE && t[|b|] == NEWLINE;
    forall i | 0 <= i < |a| ensures s[i] != NEWLINE { assert s[i] == a[i]; }
    forall i | 0 <= i < |b| ensures t[i] != NEWLINE { assert t[i] == b[i]; }
    assert |a| == |b|;
    assert a == s[..|a|] && b == t[..|b|];
    assert x == s[|a| + 1..] && y == t[|b| + 1..];
  }

  lemma StreamLine(frames: seq<Bytes>, tail: Bytes, v: Bytes, rest: Bytes)
    requires LineFree(frames, tail) && NEWLINE !in v && Stream(frames, tail) == v + [NEWLINE] + rest
    ensures frames != [] && v == frames[0] && rest == Stream(frames[1..], tail)
  {
    assert (v + [NEWLINE] + rest)[|v|] == NEWLINE;
    assert frames == [] ==> Stream(frames, tail) == tail;
    assert frames != [];
    FirstNewline(frames[0], Stream(frames[1..], tail), v, rest);
  }

  /** Whatever was written and however it is split: a received value is exactly the first unread
      frame and the rest stays unread; and it is received exactly when a read ends at that frame. */
  lemma ReceivesFirstFrame(frames: seq<Bytes>, tail: Bytes, parts: seq<Bytes>, k: nat, rest: Bytes)
    requires LineFree(frames, tail) && k <= |parts| && Concat(parts[..k]) + rest == Stream(frames, tail)
    requires frames != [] ==> |frames[0]| + 1 <= LIMIT
    ensures LineAfter(parts, k) <==> frames != [] && |Concat(parts[..k])| == |frames[0]| + 1
    ensures LineAfter(parts, k) ==> Concat(parts[..k]) == frames[0] + [NEWLINE] && rest == Stream(frames[1..], tail)
  {
    var raw := Concat(parts[..k]);
    if LineAfter(parts, k) {
      var v := raw[..|raw| - 1];
      assert raw == v + [NEWLINE];
      StreamLine(frames, tail, v, rest);
    }
    if frames != [] && |raw| == |frames[0]| + 1 {
      assert frames[0] in frames;
      assert raw == (frames[0] + [NEWLINE] + Stream(frames[1..], tail))[..|frames[0]| + 1] == frames[0] + [NEWLINE];
      assert raw[..|raw| - 1] == frames[0];
    }
  }

  /** A frame that is alone on its pipe is received under every splitting into reads. */
  lemma LoneFrameIsReceived(f: Bytes, parts: seq<Bytes>)
    requires NEWLINE !in f && |f| + 1 <= LIMIT && Concat(parts) == Stream([f], [])
    ensures LineAfter(parts, |parts|) && Concat(parts[..|parts|]) == f + [NEWLINE]
  {
    assert parts[..|parts|] == parts && [f][1..] == [];
    assert Stream([f], []) == f + [NEWLINE] + [] == f + [NEWLINE];
    assert (f + [NEWLINE])[..|f|] == f;
  }

  // Two adjacent frames read at once are refused although both were sent whole.
  lemma AdjacentFramesCanBeRefused(a: Bytes, b: Bytes)
    requires NEWLINE !in a && NEWLINE !in b
    ensures forall k :: 0 <= k <= 1 ==> !LineAfter([Stream([a, b], [])], k)
  {
    var whole := Stream([a, b], []);
    assert Stream([b], []) == b + [NEWLINE] + Stream([b][1..], []) == b + [NEWLINE];
    assert [a, b][1..] == [b];
    assert whole == a + [NEWLINE] + (b + [NEWLINE]);
    assert [whole][..1] == [whole] && Concat([whole]) == Concat([whole][..0]) + whole == whole;
    assert whole[..|whole| - 1][|a|] == NEWLINE;
  }

  // ----- values

  ghost predicate Codec<V(!new)>(encode: V -> Bytes, decode: Bytes -> Option<V>) {
    forall v :: NEWLINE !in encode(v) && decode(encode(v)) == Some(v)
  }

  function Encoded<V>(encode: V -> Bytes, values: seq<V>): seq<Bytes> {
    seq(|values|, i requires 0 <= i < |values| => encode(values[i]))
  }

  /** A received value was sent as one whole frame: it is the first one not yet received. */
  lemma ReceivedWasSent<V(!new)>(encode: V -> Bytes, decode: Bytes -> Option<V>, values: seq<V>, tail: Bytes,
                                 parts: seq<Bytes>, k: nat, rest: Bytes)
    requires Codec(encode, decode) && NEWLINE !in tail && k <= |parts|
    requires Concat(parts[..k]) + rest == Stream(Encoded(encode, values), tail) && LineAfter(parts, k)
    ensures values != [] && decode(Concat(parts[..k])[..|Concat(parts[..k])| - 1]) == Some(values[0])
    ensures rest == Stream(Encoded(encode, values[1..]), tail)
  {
    var frames := Encoded(encode, values);
    var raw := Concat(parts[..k]);
    var v := raw[..|raw| - 1];
    assert raw == v + [NEWLINE];
    assert LineFree(frames, tail);
    StreamLine(frames, tail, v, rest);
    assert frames[1..] == Encoded(encode, values[1..]);
  }
}
