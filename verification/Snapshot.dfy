/** The canonical full-database observation taken over a paged SCAN
    (scripts/acceptance_fresh_domain.py, `_json_value` and `semantic_snapshot`). */
module Snapshot {
  import opened Orders

  // ----- client-side values and their canonical JSON form

  datatype Py =
    | PyStr(text: string)
    | PyBytes(hex: string)
    | PyNum(num: int)
    | PyDict(fields: seq<Field>)   // insertion order is the server's reply order
    | PyList(elems: seq<Py>)
  datatype Field = Field(name: Py, val: Py)

  datatype Json = JStr(text: string) | JHex(hex: string) | JNum(num: int) | JList(elems: seq<Json>)

  function JsonFields(le: (Json, Json) -> bool, fields: seq<Field>): (r: seq<Json>)
    ensures |r| == |fields|
    ensures forall i :: 0 <= i < |fields| ==> r[i] == JsonField(le, fields[i])
    decreases fields
  {
    if fields == [] then [] else [JsonField(le, fields[0])] + JsonFields(le, fields[1..])
  }

  function JsonElems(le: (Json, Json) -> bool, elems: seq<Py>): (r: seq<Json>)
    ensures |r| == |elems|
    ensures forall i :: 0 <= i < |elems| ==> r[i] == JsonValue(le, elems[i])
    decreases elems
  {
    if elems == [] then [] else [JsonValue(le, elems[0])] + JsonElems(le, elems[1..])
  }

  function JsonValue(le: (Json, Json) -> bool, v: Py): (r: Json)
    decreases v
  {
    match v
    case PyStr(s) => JStr(s)
    case PyBytes(h) => JHex(h)
    case PyNum(n) => JNum(n)
    case PyDict(fields) => JList(SortSeq(le, JsonFields(le, fields)))
    case PyList(elems) => JList(JsonElems(le, elems))
  }

  function JsonField(le: (Json, Json) -> bool, f: Field): (r: Json)
    decreases f
  {
    JList([JsonValue(le, f.name), JsonValue(le, f.val)])
  }

  // ----- what the server holds

  datatype Kind = KString | KHash | KSet | KZSet | KList | KStream | KOther
  datatype Pending = Pending(id: string, consumer: string, idle: nat, deliveries: nat)
  datatype Group = Group(name: string, consumers: nat, lastDelivered: string,
                         entriesRead: int, lag: int, pel: seq<Pending>)
  datatype StreamEntry = StreamEntry(id: string, body: map<string, string>)
  datatype Scored = Scored(member: string, score: int)
  datatype Value =
    | StrV(text: string)
    | HashV(hash: map<string, string>)
    | SetV(members: set<string>)
    | ZSetV(ranked: seq<Scored>)
    | ListV(items: seq<string>)
    | StreamV(entries: seq<StreamEntry>, groups: seq<Group>)
    | OtherV(typeName: string)
  datatype Entry = Entry(value: Value, expiry: int)   // expiry -1: persistent
  type Database = map<string, Entry>

  const PEL_LIMIT: nat := 100000

  function KindOf(v: Value): Kind {
    match v
    case StrV(_) => KString
    case HashV(_) => KHash
    case SetV(_) => KSet
    case ZSetV(_) => KZSet
    case ListV(_) => KList
    case StreamV(_, _) => KStream
    case OtherV(_) => KOther
  }

  // XPENDING returns at most PEL_LIMIT rows; a longer list is refused as incomplete.
  predicate Readable(v: Value) {
    !v.OtherV? && (v.StreamV? ==> forall g :: g in v.groups ==> |g.pel| <= PEL_LIMIT)
  }

  // ----- replies: hashes and sets come back in an arbitrary enumeration order

  datatype Order = Order(key: (string, string) -> bool, row: (Json, Json) -> bool)
  {
    ghost predicate Valid() { TotalOrder(key) && TotalOrder(row) }
  }
  datatype Listing = Listing(names: seq<string>, bodies: seq<seq<string>>)

  ghost predicate Enumerates(names: seq<string>, s: set<string>) {
    Distinct(names) && Elements(names) == s
  }

  ghost predicate Lists(v: Value, l: Listing) {
    match v
    case HashV(h) => Enumerates(l.names, h.Keys)
    case SetV(m) => Enumerates(l.names, m)
    case StreamV(entries, _) =>
      |l.bodies| == |entries| && forall i :: 0 <= i < |entries| ==> Enumerates(l.bodies[i], entries[i].body.Keys)
    case _ => true
  }

  function HashReplyOf(h: map<string, string>, names: seq<string>): (r: Py)
    requires Enumerates(names, h.Keys)
  {
    assert forall n :: n in names ==> n in Elements(names);
    PyDict(seq(|names|, i requires 0 <= i < |names| => Field(PyStr(names[i]), PyStr(h[names[i]]))))
  }

  function StringList(xs: seq<string>): Py {
    PyList(seq(|xs|, i requires 0 <= i < |xs| => PyStr(xs[i])))
  }

  const GROUP_FIELDS := ["name", "consumers", "pending", "last-delivered-id", "entries-read", "lag"]
  const PENDING_FIELDS := ["message_id", "consumer", "times_delivered"]

  function FixedDict(names: seq<string>, vals: seq<Py>): Py
    requires |names| == |vals|
  {
    PyDict(seq(|names|, i requires 0 <= i < |names| => Field(PyStr(names[i]), vals[i])))
  }

  function PendingValues(p: Pending): seq<Py> { [PyStr(p.id), PyStr(p.consumer), PyNum(p.deliveries)] }

  // The idle duration is dropped; identity, consumer and delivery count are kept.
  function PendingRow(p: Pending): Py {
    FixedDict(PENDING_FIELDS, PendingValues(p))
  }

  function GroupValues(g: Group): seq<Py> {
    [PyStr(g.name), PyNum(g.consumers), PyNum(|g.pel|), PyStr(g.lastDelivered), PyNum(g.entriesRead), PyNum(g.lag)]
  }

  function GroupInfo(g: Group): Py {
    FixedDict(GROUP_FIELDS, GroupValues(g))
  }

  function PendingRows(pel: seq<Pending>): seq<Py> {
    seq(|pel|, i requires 0 <= i < |pel| => PendingRow(pel[i]))
  }

  function GroupRow(g: Group): Py {
    PyList([GroupInfo(g), PyList(PendingRows(g.pel))])
  }

  function EntryRow(e: StreamEntry, names: seq<string>): Py
    requires Enumerates(names, e.body.Keys)
  {
    PyList([PyStr(e.id), HashReplyOf(e.body, names)])
  }

  function EntryRows(entries: seq<StreamEntry>, bodies: seq<seq<string>>): seq<Py>
    requires |bodies| == |entries| && forall i :: 0 <= i < |entries| ==> Enumerates(bodies[i], entries[i].body.Keys)
  {
    seq(|entries|, i requires 0 <= i < |entries| => EntryRow(entries[i], bodies[i]))
  }

  function GroupRows(groups: seq<Group>): seq<Py> {
    seq(|groups|, i requires 0 <= i < |groups| => GroupRow(groups[i]))
  }

  function StreamReply(entries: seq<StreamEntry>, groups: seq<Group>, bodies: seq<seq<string>>): Py
    requires |bodies| == |entries| && forall i :: 0 <= i < |entries| ==> Enumerates(bodies[i], entries[i].body.Keys)
  {
    PyList([PyList(EntryRows(entries, bodies)), PyList(GroupRows(groups))])
  }

  function ReplyOf(o: Order, v: Value, l: Listing): Py
    requires Readable(v) && Lists(v, l)
  {
    match v
    case StrV(s) => PyStr(s)
    case HashV(h) => HashReplyOf(h, l.names)
    case SetV(_) => StringList(SortSeq(o.key, l.names))
    case ZSetV(ranked) =>
      PyList(seq(|ranked|, i requires 0 <= i < |ranked| => PyList([PyStr(ranked[i].member), PyNum(ranked[i].score)])))
    case ListV(items) => StringList(items)
    case StreamV(entries, groups) => StreamReply(entries, groups, l.bodies)
  }

  // ----- equality up to PEL idle time

  function StripPending(p: Pending): Pending { p.(idle := 0) }

  function StripPel(pel: seq<Pending>): seq<Pending> {
    seq(|pel|, i requires 0 <= i < |pel| => StripPending(pel[i]))
  }

  function StripGroup(g: Group): Group {
    g.(pel := StripPel(g.pel))
  }

  function StripGroups(groups: seq<Group>): seq<Group> {
    seq(|groups|, i requires 0 <= i < |groups| => StripGroup(groups[i]))
  }

  function Strip(v: Value): Value {
    match v
    case StreamV(entries, groups) =>
      StreamV(entries, StripGroups(groups))
    case _ => v
  }

  // Equality field by field; only `idle` is left out.
  ghost predicate SamePending(p: Pending, q: Pending) {
    p.id == q.id && p.consumer == q.consumer && p.deliveries == q.deliveries
  }

  ghost predicate SameGroup(g: Group, h: Group) {
    && g.name == h.name && g.consumers == h.consumers && g.lastDelivered == h.lastDelivered
    && g.entriesRead == h.entriesRead && g.lag == h.lag
    && |g.pel| == |h.pel| && forall i :: 0 <= i < |g.pel| ==> SamePending(g.pel[i], h.pel[i])
  }

  ghost predicate SameValue(v: Value, w: Value) {
    if v.StreamV? && w.StreamV? then
      && v.entries == w.entries && |v.groups| == |w.groups|
      && forall i :: 0 <= i < |v.groups| ==> SameGroup(v.groups[i], w.groups[i])
    else v == w
  }

  lemma StripGroupExactly(g: Group, h: Group)
    ensures StripGroup(g) == StripGroup(h) <==> SameGroup(g, h)
  {
    var a, b := StripPel(g.pel), StripPel(h.pel);
    if StripGroup(g) == StripGroup(h) {
      forall i | 0 <= i < |g.pel| ensures SamePending(g.pel[i], h.pel[i]) { assert a[i] == b[i]; }
    }
    if SameGroup(g, h) {
      forall i | 0 <= i < |a| ensures a[i] == b[i] { assert SamePending(g.pel[i], h.pel[i]); }
      assert a == b;
    }
  }

  lemma StripExactly(v: Value, w: Value)
    ensures Strip(v) == Strip(w) <==> SameValue(v, w)
  {
    if v.StreamV? && w.StreamV? {
      hide StripGroup, SameGroup;
      var a, b := StripGroups(v.groups), StripGroups(w.groups);
      forall i | 0 <= i < |v.groups| && i < |w.groups|
        ensures a[i] == b[i] <==> SameGroup(v.groups[i], w.groups[i])
      {
        StripGroupExactly(v.groups[i], w.groups[i]);
      }
      if SameValue(v, w) { assert a == b; }
    }
  }

  ghost predicate SameDatabase(a: Database, b: Database) {
    && (forall k :: k in a <==> k in b)
    && forall k :: k in a ==> SameValue(a[k].value, b[k].value) && a[k].expiry == b[k].expiry
  }

  // ----- canonical dictionaries

  lemma {:induction false} DistinctMultiset<T>(xs: seq<T>)
    requires Distinct(xs)
    ensures forall x :: multiset(xs)[x] == if x in xs then 1 else 0
  {
    if xs != [] {
      var init := xs[..|xs| - 1];
      assert xs == init + [xs[|xs| - 1]];
      DistinctMultiset(init);
    }
  }

  lemma DistinctSameElements<T>(xs: seq<T>, ys: seq<T>)
    requires Distinct(xs) && Distinct(ys) && Elements(xs) == Elements(ys)
    ensures multiset(xs) == multiset(ys)
  {
    DistinctMultiset(xs);
    DistinctMultiset(ys);
    forall x ensures multiset(xs)[x] == multiset(ys)[x] {
      assert x in xs <==> x in Elements(xs);
      assert x in ys <==> x in Elements(ys);
    }
  }

  ghost predicate DictKeys(fields: seq<Field>) {
    && (forall i :: 0 <= i < |fields| ==> fields[i].name.PyStr?)
    && (forall i, j :: 0 <= i < j < |fields| ==> fields[i].name != fields[j].name)
  }

  lemma JsonFieldsDistinct(le: (Json, Json) -> bool, fields: seq<Field>)
    requires DictKeys(fields)
    ensures Distinct(JsonFields(le, fields))
  {
    var js := JsonFields(le, fields);
    forall i, j | 0 <= i < j < |js| ensures js[i] != js[j] {
      assert js[i] == JsonField(le, fields[i]) && js[j] == JsonField(le, fields[j]);
      assert js[i].elems[0] == JsonValue(le, fields[i].name) && js[j].elems[0] == JsonValue(le, fields[j].name);
    }
  }

  // A dictionary's canonical form depends on its bindings alone, and determines them.
  lemma DictCanonical(le: (Json, Json) -> bool, a: seq<Field>, b: seq<Field>)
    requires TotalOrder(le) && DictKeys(a) && DictKeys(b)
    ensures JsonValue(le, PyDict(a)) == JsonValue(le, PyDict(b))
       <==> Elements(JsonFields(le, a)) == Elements(JsonFields(le, b))
  {
    var ja, jb := JsonFields(le, a), JsonFields(le, b);
    var sa, sb := SortSeq(le, ja), SortSeq(le, jb);
    JsonFieldsDistinct(le, a);
    JsonFieldsDistinct(le, b);
    SortSeqSorted(le, ja);
    SortSeqSorted(le, jb);
    if sa == sb {
      forall x ensures x in Elements(ja) <==> x in Elements(jb) {
        SameMultisetSameMembers(ja, jb, x);
      }
    }
    if Elements(ja) == Elements(jb) {
      DistinctSameElements(ja, jb);
      SortedIsUnique(le, sa, sb);
    }
  }

  lemma HashReplyField(le: (Json, Json) -> bool, h: map<string, string>, names: seq<string>, i: nat)
    requires Enumerates(names, h.Keys) && i < |names|
    ensures names[i] in h
    ensures JsonFields(le, HashReplyOf(h, names).fields)[i] == JList([JStr(names[i]), JStr(h[names[i]])])
  {
    assert names[i] in Elements(names);
    var fields := HashReplyOf(h, names).fields;
    assert fields[i] == Field(PyStr(names[i]), PyStr(h[names[i]]));
    assert JsonField(le, fields[i]) == JList([JStr(names[i]), JStr(h[names[i]])]);
  }

  ghost function HashImage(h: map<string, string>): set<Json> {
    set k | k in h :: JList([JStr(k), JStr(h[k])])
  }

  lemma HashReplyFields(le: (Json, Json) -> bool, h: map<string, string>, names: seq<string>)
    requires Enumerates(names, h.Keys)
    ensures DictKeys(HashReplyOf(h, names).fields)
    ensures Elements(JsonFields(le, HashReplyOf(h, names).fields)) == HashImage(h)
  {
    var js := JsonFields(le, HashReplyOf(h, names).fields);
    forall x | x in Elements(js) ensures x in HashImage(h) {
      var i :| 0 <= i < |js| && js[i] == x;
      HashReplyField(le, h, names, i);
    }
    forall x | x in HashImage(h) ensures x in Elements(js) {
      var k :| k in h && x == JList([JStr(k), JStr(h[k])]);
      assert k in Elements(names);
      var i :| 0 <= i < |names| && names[i] == k;
      HashReplyField(le, h, names, i);
    }
  }

  lemma HashImageLookup(a: map<string, string>, b: map<string, string>, k: string)
    requires HashImage(a) == HashImage(b) && k in a
    ensures k in b && a[k] == b[k]
  {
    var x := JList([JStr(k), JStr(a[k])]);
    assert x in HashImage(b);
    var k' :| k' in b && x == JList([JStr(k'), JStr(b[k'])]);
    assert x.elems[0] == JStr(k') && x.elems[1] == JStr(b[k']);
  }

  lemma HashImageInjective(a: map<string, string>, b: map<string, string>)
    requires HashImage(a) == HashImage(b)
    ensures a == b
  {
    forall k | k in a ensures k in b && a[k] == b[k] { HashImageLookup(a, b, k); }
    forall k | k in b ensures k in a { HashImageLookup(b, a, k); }
  }

  lemma HashCanonical(le: (Json, Json) -> bool, a: map<string, string>, na: seq<string>,
                      b: map<string, string>, nb: seq<string>)
    requires TotalOrder(le) && Enumerates(na, a.Keys) && Enumerates(nb, b.Keys)
    ensures JsonValue(le, HashReplyOf(a, na)) == JsonValue(le, HashReplyOf(b, nb)) <==> a == b
  {
    HashReplyFields(le, a, na);
    HashReplyFields(le, b, nb);
    DictCanonical(le, HashReplyOf(a, na).fields, HashReplyOf(b, nb).fields);
    if HashImage(a) == HashImage(b) { HashImageInjective(a, b); }
  }

  function Pairs(names: seq<string>, vals: seq<Json>): seq<Json>
    requires |names| == |vals|
  {
    seq(|names|, i requires 0 <= i < |names| => JList([JStr(names[i]), vals[i]]))
  }

  lemma JListPair(a: Json, b: Json, c: Json, d: Json)
    ensures JList([a, b]) == JList([c, d]) <==> a == c && b == d
  {
    assert [a, b][0] == a && [a, b][1] == b && [c, d][0] == c && [c, d][1] == d;
  }

  lemma PairsDetermine(names: seq<string>, xs: seq<Json>, ys: seq<Json>)
    requires Distinct(names) && |names| == |xs| == |ys|
    requires Elements(Pairs(names, xs)) == Elements(Pairs(names, ys))
    ensures xs == ys
  {
    forall i | 0 <= i < |names| ensures xs[i] == ys[i] {
      assert Pairs(names, xs)[i] in Elements(Pairs(names, ys));
      var j :| 0 <= j < |names| && Pairs(names, ys)[j] == Pairs(names, xs)[i];
      JListPair(JStr(names[i]), xs[i], JStr(names[j]), ys[j]);
    }
  }

  lemma FixedDictFields(le: (Json, Json) -> bool, names: seq<string>, vals: seq<Py>)
    requires |names| == |vals|
    ensures JsonFields(le, FixedDict(names, vals).fields) == Pairs(names, JsonElems(le, vals))
  {
    var fields := FixedDict(names, vals).fields;
    forall i | 0 <= i < |names|
      ensures JsonFields(le, fields)[i] == Pairs(names, JsonElems(le, vals))[i]
    {
      assert fields[i] == Field(PyStr(names[i]), vals[i]);
      assert JsonField(le, fields[i]) == JList([JStr(names[i]), JsonValue(le, vals[i])]);
    }
  }

  lemma FixedDictCanonical(le: (Json, Json) -> bool, names: seq<string>, va: seq<Py>, vb: seq<Py>)
    requires TotalOrder(le) && Distinct(names) && |names| == |va| == |vb|
    ensures JsonValue(le, FixedDict(names, va)) == JsonValue(le, FixedDict(names, vb))
       <==> JsonElems(le, va) == JsonElems(le, vb)
  {
    FixedDictFields(le, names, va);
    FixedDictFields(le, names, vb);
    DictCanonical(le, FixedDict(names, va).fields, FixedDict(names, vb).fields);
    if Elements(Pairs(names, JsonElems(le, va))) == Elements(Pairs(names, JsonElems(le, vb))) {
      PairsDetermine(names, JsonElems(le, va), JsonElems(le, vb));
    }
  }

  // ----- canonical values

  lemma ListCanonical(le: (Json, Json) -> bool, a: seq<Py>, b: seq<Py>)
    ensures JsonValue(le, PyList(a)) == JsonValue(le, PyList(b))
       <==> |a| == |b| && forall i :: 0 <= i < |a| ==> JsonValue(le, a[i]) == JsonValue(le, b[i])
  {
    var ja, jb := JsonElems(le, a), JsonElems(le, b);
    if ja == jb {
      forall i | 0 <= i < |a| ensures JsonValue(le, a[i]) == JsonValue(le, b[i]) { assert ja[i] == jb[i]; }
    }
    if |a| == |b| && forall i :: 0 <= i < |a| ==> JsonValue(le, a[i]) == JsonValue(le, b[i]) {
      forall i | 0 <= i < |a| ensures ja[i] == jb[i] { }
      assert ja == jb;
    }
  }

  lemma StringListCanonical(le: (Json, Json) -> bool, a: seq<string>, b: seq<string>)
    ensures JsonValue(le, StringList(a)) == JsonValue(le, StringList(b)) <==> a == b
  {
    ListCanonical(le, StringList(a).elems, StringList(b).elems);
    if JsonValue(le, StringList(a)) == JsonValue(le, StringList(b)) {
      forall i | 0 <= i < |a| ensures a[i] == b[i] {
        assert JsonValue(le, StringList(a).elems[i]) == JsonValue(le, StringList(b).elems[i]);
      }
    }
  }

  lemma GroupValuesInjective(g: Group, h: Group)
    ensures GroupValues(g) == GroupValues(h) <==> g.(pel := []) == h.(pel := []) && |g.pel| == |h.pel|
  {
    var va, vb := GroupValues(g), GroupValues(h);
    if va == vb {
      assert va[0] == vb[0] && va[1] == vb[1] && va[2] == vb[2] && va[3] == vb[3] && va[4] == vb[4] && va[5] == vb[5];
    }
  }

  lemma PendingValuesInjective(p: Pending, q: Pending)
    ensures PendingValues(p) == PendingValues(q) <==> StripPending(p) == StripPending(q)
  {
    var va, vb := PendingValues(p), PendingValues(q);
    if va == vb { assert va[0] == vb[0] && va[1] == vb[1] && va[2] == vb[2]; }
  }

  predicate Scalar(v: Py) { v.PyStr? || v.PyNum? }

  // Strings and numbers are their own canonical form.
  lemma ScalarsCanonical(le: (Json, Json) -> bool, a: seq<Py>, b: seq<Py>)
    requires forall i :: 0 <= i < |a| ==> Scalar(a[i])
    requires forall i :: 0 <= i < |b| ==> Scalar(b[i])
    ensures JsonElems(le, a) == JsonElems(le, b) <==> a == b
  {
    if JsonElems(le, a) == JsonElems(le, b) {
      assert |a| == |b|;
      forall i | 0 <= i < |a| ensures a[i] == b[i] {
        assert JsonElems(le, a)[i] == JsonElems(le, b)[i];
      }
    }
  }

  lemma ScalarDictCanonical(le: (Json, Json) -> bool, names: seq<string>, va: seq<Py>, vb: seq<Py>)
    requires TotalOrder(le) && Distinct(names) && |names| == |va| == |vb|
    requires forall i :: 0 <= i < |names| ==> Scalar(va[i]) && Scalar(vb[i])
    ensures JsonValue(le, FixedDict(names, va)) == JsonValue(le, FixedDict(names, vb)) <==> va == vb
  {
    FixedDictCanonical(le, names, va, vb);
    ScalarsCanonical(le, va, vb);
  }

  lemma PendingCanonical(le: (Json, Json) -> bool, p: Pending, q: Pending)
    requires TotalOrder(le)
    ensures JsonValue(le, PendingRow(p)) == JsonValue(le, PendingRow(q)) <==> StripPending(p) == StripPending(q)
  {
    assert Distinct(PENDING_FIELDS);
    ScalarDictCanonical(le, PENDING_FIELDS, PendingValues(p), PendingValues(q));
    PendingValuesInjective(p, q);
  }

  lemma GroupFieldsDistinct()
    ensures Distinct(GROUP_FIELDS)
  {
    assert forall i :: 0 <= i < 6 ==> GROUP_FIELDS[i][0] == ['n', 'c', 'p', 'l', 'e', 'l'][i];
    assert |GROUP_FIELDS[3]| != |GROUP_FIELDS[5]|;
  }

  lemma GroupInfoCanonical(le: (Json, Json) -> bool, g: Group, h: Group)
    requires TotalOrder(le)
    ensures JsonValue(le, GroupInfo(g)) == JsonValue(le, GroupInfo(h))
       <==> g.(pel := []) == h.(pel := []) && |g.pel| == |h.pel|
  {
    GroupFieldsDistinct();
    ScalarDictCanonical(le, GROUP_FIELDS, GroupValues(g), GroupValues(h));
    GroupValuesInjective(g, h);
  }

  lemma PelCanonical(le: (Json, Json) -> bool, a: seq<Pending>, b: seq<Pending>)
    requires TotalOrder(le)
    ensures JsonValue(le, PyList(PendingRows(a))) == JsonValue(le, PyList(PendingRows(b)))
       <==> StripPel(a) == StripPel(b)
  {
    ListCanonical(le, PendingRows(a), PendingRows(b));
    forall i | 0 <= i < |a| && i < |b|
      ensures JsonValue(le, PendingRows(a)[i]) == JsonValue(le, PendingRows(b)[i])
         <==> StripPending(a[i]) == StripPending(b[i])
    {
      PendingCanonical(le, a[i], b[i]);
    }
    if StripPel(a) == StripPel(b) {
      forall i | 0 <= i < |a| ensures StripPending(a[i]) == StripPending(b[i]) {
        assert StripPel(a)[i] == StripPel(b)[i];
      }
    }
  }

  lemma PairJson(le: (Json, Json) -> bool, a: Py, b: Py)
    ensures JsonValue(le, PyList([a, b])) == JList([JsonValue(le, a), JsonValue(le, b)])
  {
    var js := JsonElems(le, [a, b]);
    assert |js| == 2 && js[0] == JsonValue(le, [a, b][0]) && js[1] == JsonValue(le, [a, b][1]);
    assert js == [JsonValue(le, a), JsonValue(le, b)];
  }

  lemma PairCanonical(le: (Json, Json) -> bool, a: Py, b: Py, c: Py, d: Py)
    ensures JsonValue(le, PyList([a, b])) == JsonValue(le, PyList([c, d]))
       <==> JsonValue(le, a) == JsonValue(le, c) && JsonValue(le, b) == JsonValue(le, d)
  {
    PairJson(le, a, b);
    PairJson(le, c, d);
    JListPair(JsonValue(le, a), JsonValue(le, b), JsonValue(le, c), JsonValue(le, d));
  }

  lemma GroupCanonical(le: (Json, Json) -> bool, g: Group, h: Group)
    requires TotalOrder(le)
    ensures JsonValue(le, GroupRow(g)) == JsonValue(le, GroupRow(h)) <==> StripGroup(g) == StripGroup(h)
  {
    PairCanonical(le, GroupInfo(g), PyList(PendingRows(g.pel)), GroupInfo(h), PyList(PendingRows(h.pel)));
    PelCanonical(le, g.pel, h.pel);
    GroupInfoCanonical(le, g, h);
    assert |StripPel(g.pel)| == |g.pel| && |StripPel(h.pel)| == |h.pel|;
  }

  lemma EntryCanonical(le: (Json, Json) -> bool, e: StreamEntry, ne: seq<string>, f: StreamEntry, nf: seq<string>)
    requires TotalOrder(le) && Enumerates(ne, e.body.Keys) && Enumerates(nf, f.body.Keys)
    ensures JsonValue(le, EntryRow(e, ne)) == JsonValue(le, EntryRow(f, nf)) <==> e == f
  {
    PairCanonical(le, PyStr(e.id), HashReplyOf(e.body, ne), PyStr(f.id), HashReplyOf(f.body, nf));
    HashCanonical(le, e.body, ne, f.body, nf);
  }

  lemma EntriesCanonical(le: (Json, Json) -> bool, a: seq<StreamEntry>, na: seq<seq<string>>,
                         b: seq<StreamEntry>, nb: seq<seq<string>>)
    requires TotalOrder(le)
    requires |na| == |a| && forall i :: 0 <= i < |a| ==> Enumerates(na[i], a[i].body.Keys)
    requires |nb| == |b| && forall i :: 0 <= i < |b| ==> Enumerates(nb[i], b[i].body.Keys)
    ensures JsonValue(le, PyList(EntryRows(a, na))) == JsonValue(le, PyList(EntryRows(b, nb))) <==> a == b
  {
    var ra, rb := EntryRows(a, na), EntryRows(b, nb);
    ListCanonical(le, ra, rb);
    forall i | 0 <= i < |a| && i < |b|
      ensures JsonValue(le, ra[i]) == JsonValue(le, rb[i]) <==> a[i] == b[i]
    {
      EntryCanonical(le, a[i], na[i], b[i], nb[i]);
    }
  }

  lemma GroupsCanonical(le: (Json, Json) -> bool, a: seq<Group>, b: seq<Group>)
    requires TotalOrder(le)
    ensures JsonValue(le, PyList(GroupRows(a))) == JsonValue(le, PyList(GroupRows(b)))
       <==> StripGroups(a) == StripGroups(b)
  {
    ListCanonical(le, GroupRows(a), GroupRows(b));
    forall i | 0 <= i < |a| && i < |b|
      ensures JsonValue(le, GroupRows(a)[i]) == JsonValue(le, GroupRows(b)[i]) <==> StripGroup(a[i]) == StripGroup(b[i])
    {
      GroupCanonical(le, a[i], b[i]);
    }
    if StripGroups(a) == StripGroups(b) {
      forall i | 0 <= i < |a| ensures StripGroup(a[i]) == StripGroup(b[i]) {
        assert StripGroups(a)[i] == StripGroups(b)[i];
      }
    }
  }

  lemma StreamCanonical(le: (Json, Json) -> bool, a: Value, la: Listing, b: Value, lb: Listing)
    requires TotalOrder(le) && a.StreamV? && b.StreamV? && Lists(a, la) && Lists(b, lb)
    ensures JsonValue(le, StreamReply(a.entries, a.groups, la.bodies))
       == JsonValue(le, StreamReply(b.entries, b.groups, lb.bodies))
       <==> Strip(a) == Strip(b)
  {
    PairCanonical(le, PyList(EntryRows(a.entries, la.bodies)), PyList(GroupRows(a.groups)),
                  PyList(EntryRows(b.entries, lb.bodies)), PyList(GroupRows(b.groups)));
    EntriesCanonical(le, a.entries, la.bodies, b.entries, lb.bodies);
    GroupsCanonical(le, a.groups, b.groups);
  }

  lemma SetCanonical(o: Order, a: set<string>, na: seq<string>, b: set<string>, nb: seq<string>)
    requires o.Valid() && Enumerates(na, a) && Enumerates(nb, b)
    ensures SortSeq(o.key, na) == SortSeq(o.key, nb) <==> a == b
  {
    if a == b {
      DistinctSameElements(na, nb);
      SortSeqSorted(o.key, na);
      SortSeqSorted(o.key, nb);
      SortedIsUnique(o.key, SortSeq(o.key, na), SortSeq(o.key, nb));
    }
    if SortSeq(o.key, na) == SortSeq(o.key, nb) {
      forall x ensures x in Elements(na) <==> x in Elements(nb) {
        SameMultisetSameMembers(na, nb, x);
      }
    }
  }

  lemma ZSetCanonical(le: (Json, Json) -> bool, a: seq<Scored>, b: seq<Scored>)
    ensures var ra := seq(|a|, i requires 0 <= i < |a| => PyList([PyStr(a[i].member), PyNum(a[i].score)]));
            var rb := seq(|b|, i requires 0 <= i < |b| => PyList([PyStr(b[i].member), PyNum(b[i].score)]));
            JsonValue(le, PyList(ra)) == JsonValue(le, PyList(rb)) <==> a == b
  {
    var ra := seq(|a|, i requires 0 <= i < |a| => PyList([PyStr(a[i].member), PyNum(a[i].score)]));
    var rb := seq(|b|, i requires 0 <= i < |b| => PyList([PyStr(b[i].member), PyNum(b[i].score)]));
    ListCanonical(le, ra, rb);
    forall i | 0 <= i < |a| && i < |b|
      ensures JsonValue(le, ra[i]) == JsonValue(le, rb[i]) <==> a[i] == b[i]
    {
      ListCanonical(le, ra[i].elems, rb[i].elems);
      if JsonValue(le, ra[i]) == JsonValue(le, rb[i]) {
        assert JsonValue(le, ra[i].elems[0]) == JsonValue(le, rb[i].elems[0]);
        assert JsonValue(le, ra[i].elems[1]) == JsonValue(le, rb[i].elems[1]);
      }
    }
  }

  // Equal kinds: the canonical forms agree exactly when the stored values do, idle time aside.
  lemma ValueCanonical(o: Order, a: Value, la: Listing, b: Value, lb: Listing)
    requires o.Valid() && KindOf(a) == KindOf(b)
    requires Readable(a) && Readable(b) && Lists(a, la) && Lists(b, lb)
    ensures JsonValue(o.row, ReplyOf(o, a, la)) == JsonValue(o.row, ReplyOf(o, b, lb)) <==> SameValue(a, b)
  {
    StripExactly(a, b);
    match a
    case StrV(_) =>
    case HashV(_) => HashCanonical(o.row, a.hash, la.names, b.hash, lb.names);
    case SetV(_) =>
      SetCanonical(o, a.members, la.names, b.members, lb.names);
      StringListCanonical(o.row, SortSeq(o.key, la.names), SortSeq(o.key, lb.names));
    case ZSetV(_) => ZSetCanonical(o.row, a.ranked, b.ranked);
    case ListV(_) => StringListCanonical(o.row, a.items, b.items);
    case StreamV(_, _) => StreamCanonical(o.row, a, la, b, lb);
  }

  // Without the kind, a mapping and the list of its pairs have one canonical form.
  lemma KindIsNeeded(le: (Json, Json) -> bool)
    ensures JsonValue(le, PyDict([Field(PyStr("a"), PyStr("b"))]))
         == JsonValue(le, PyList([PyList([PyStr("a"), PyStr("b")])]))
  {
    var pair := JList([JStr("a"), JStr("b")]);
    assert JsonElems(le, [PyStr("a"), PyStr("b")]) == [JStr("a"), JStr("b")];
    assert JsonFields(le, [Field(PyStr("a"), PyStr("b"))]) == [pair];
    assert SortSeq(le, [pair]) == [pair];
    assert JsonElems(le, [PyList([PyStr("a"), PyStr("b")])]) == [pair];
  }

  // ----- rows and whole snapshots

  datatype Row = Row(key: string, kind: Kind, value: Json, expiry: int)

  ghost predicate RowMatches(o: Order, e: Entry, row: Row) {
    && Readable(e.value) && row.kind == KindOf(e.value) && row.expiry == e.expiry
    && exists l :: Lists(e.value, l) && row.value == JsonValue(o.row, ReplyOf(o, e.value, l))
  }

  function RowKeys(rows: seq<Row>): seq<string> {
    seq(|rows|, i requires 0 <= i < |rows| => rows[i].key)
  }

  // What a successful snapshot of `db` is: one row per key, in key order.
  ghost predicate IsSnapshot(o: Order, db: Database, rows: seq<Row>) {
    && Distinct(RowKeys(rows)) && Sorted(o.key, RowKeys(rows)) && Elements(RowKeys(rows)) == db.Keys
    && forall i :: 0 <= i < |rows| ==> rows[i].key in db && RowMatches(o, db[rows[i].key], rows[i])
  }

  lemma RowsAgree(o: Order, e: Entry, r: Row, f: Entry, s: Row)
    requires o.Valid() && RowMatches(o, e, r) && RowMatches(o, f, s) && r.key == s.key
    ensures r == s <==> SameValue(e.value, f.value) && e.expiry == f.expiry
  {
    var le :| Lists(e.value, le) && r.value == JsonValue(o.row, ReplyOf(o, e.value, le));
    var lf :| Lists(f.value, lf) && s.value == JsonValue(o.row, ReplyOf(o, f.value, lf));
    if KindOf(e.value) == KindOf(f.value) { ValueCanonical(o, e.value, le, f.value, lf); }
  }

  lemma SameKeysSameOrder(o: Order, a: seq<string>, b: seq<string>)
    requires o.Valid() && Distinct(a) && Distinct(b) && Sorted(o.key, a) && Sorted(o.key, b)
    requires Elements(a) == Elements(b)
    ensures a == b
  {
    DistinctSameElements(a, b);
    SortedIsUnique(o.key, a, b);
  }

  /** Two snapshots are equal exactly when the databases have the same keys, kinds, values and
      expiries, apart from how long pending stream entries have been idle. */
  lemma SnapshotsEqualExactly(o: Order, a: Database, ra: seq<Row>, b: Database, rb: seq<Row>)
    requires o.Valid() && IsSnapshot(o, a, ra) && IsSnapshot(o, b, rb)
    ensures ra == rb <==> SameDatabase(a, b)
  {
    hide SameValue, RowMatches;
    var ka, kb := RowKeys(ra), RowKeys(rb);
    assert SameDatabase(a, b) ==> a.Keys == b.Keys;
    if a.Keys == b.Keys {
      SameKeysSameOrder(o, ka, kb);
      assert |ra| == |ka| && |rb| == |kb|;
      forall i | 0 <= i < |ra|
        ensures ra[i] == rb[i] <==>
          SameValue(a[ka[i]].value, b[ka[i]].value) && a[ka[i]].expiry == b[ka[i]].expiry
      {
        assert ka[i] == ra[i].key && kb[i] == rb[i].key;
        RowsAgree(o, a[ka[i]], ra[i], b[ka[i]], rb[i]);
      }
      if ra == rb {
        forall k | k in a ensures SameValue(a[k].value, b[k].value) && a[k].expiry == b[k].expiry {
          assert k in Elements(ka);
          var i :| 0 <= i < |ka| && ka[i] == k;
        }
      }
    }
  }

  // ----- the observation loop

  datatype Observation = Observation(pages: seq<seq<string>>, listings: map<string, Listing>)

  // What SCAN and the per-key reads may return on an unchanging database: any pages of existing
  // keys, with repeats and omissions, and any enumeration order for hashes, sets and stream bodies.
  ghost predicate Observes(db: Database, obs: Observation) {
    && (forall p, k :: p in obs.pages && k in p ==> k in db)
    && (forall k :: k in db ==> k in obs.listings && Lists(db[k].value, obs.listings[k]))
  }

  ghost predicate OnSomePage(pages: seq<seq<string>>, k: string) { exists p :: p in pages && k in p }

  // No consumer group of a stream has more pending entries than one reply can hold.
  ghost predicate PelsFit(v: Value) { v.StreamV? ==> forall g :: g in v.groups ==> |g.pel| <= 100000 }

  function PagedKeys(pages: seq<seq<string>>): set<string> {
    set p, k | p in pages && k in p :: k
  }

  method CollectKeys(pages: seq<seq<string>>) returns (keys: set<string>)
    ensures keys == PagedKeys(pages)
  {
    keys := {};
    var i := 0;
    while i < |pages|
      invariant 0 <= i <= |pages|
      invariant keys == PagedKeys(pages[..i])
    {
      assert pages[..i + 1] == pages[..i] + [pages[i]];
      keys := keys + (set k | k in pages[i]);
      i := i + 1;
    }
    assert pages[..|pages|] == pages;
  }

  method SortedKeys(key: (string, string) -> bool, keys: set<string>) returns (r: seq<string>)
    requires TotalOrder(key)
    ensures Distinct(r) && Sorted(key, r) && Elements(r) == keys
  {
    r := [];
    var rest := keys;
    while rest != {}
      invariant rest <= keys && Distinct(r) && Elements(r) == keys - rest
      decreases rest
    {
      var k :| k in rest;
      assert k !in Elements(r);
      assert Elements(r + [k]) == Elements(r) + {k};
      r, rest := r + [k], rest - {k};
    }
    var before := r;
    r := SortSeq(key, before);
    SortSeqSorted(key, before);
    assert Elements(r) == Elements(before) by {
      forall x ensures x in Elements(r) <==> x in Elements(before) { SameMultisetSameMembers(r, before, x); }
    }
    DistinctCardinality(before);
    DistinctCardinality(r);
  }

  function RowOf(o: Order, k: string, e: Entry, l: Listing): (row: Row)
    requires Readable(e.value) && Lists(e.value, l)
    ensures RowMatches(o, e, row)
  {
    Row(k, KindOf(e.value), JsonValue(o.row, ReplyOf(o, e.value, l)), e.expiry)
  }

  method SnapshotRows(o: Order, db: Database, obs: Observation) returns (rows: seq<Row>, ok: bool)
    requires o.Valid() && Observes(db, obs)
    ensures ok ==> IsSnapshot(o, db, rows)
    ensures ok <==> PagedKeys(obs.pages) == db.Keys && forall k :: k in db ==> Readable(db[k].value)
  {
    var keys := CollectKeys(obs.pages);
    var sorted := SortedKeys(o.key, keys);
    rows := [];
    var i := 0;
    while i < |sorted|
      invariant 0 <= i <= |sorted| && |rows| == i
      invariant RowKeys(rows) == sorted[..i]
      invariant forall j :: 0 <= j < i ==> rows[j].key in db && RowMatches(o, db[rows[j].key], rows[j])
    {
      var k := sorted[i];
      assert k in Elements(sorted);
      if !Readable(db[k].value) { return [], false; }
      rows := rows + [RowOf(o, k, db[k], obs.listings[k])];
      assert RowKeys(rows) == sorted[..i] + [k];
      i := i + 1;
    }
    assert sorted[..|sorted|] == sorted;
    SubsetOfEqualSize(keys, db.Keys);
    ok := |keys| == |db|;
    assert ok ==> forall k :: k in db ==> Readable(db[k].value) by {
      forall k | ok && k in db ensures Readable(db[k].value) {
        assert k in Elements(sorted);
        var j :| 0 <= j < |sorted| && sorted[j] == k;
        assert rows[j].key == RowKeys(rows)[j] == k;
      }
    }
    if !ok { rows := []; }
  }

  // What a snapshot needs: paging reached every key, no key has an unknown type, and no consumer group
  // has more pending entries than one reply holds.
  ghost predicate Complete(db: Database, obs: Observation) {
    forall k :: k in db ==> OnSomePage(obs.pages, k) && !db[k].value.OtherV? && PelsFit(db[k].value)
  }

  lemma CompleteExactly(db: Database, obs: Observation)
    requires Observes(db, obs)
    ensures Complete(db, obs) <==> PagedKeys(obs.pages) == db.Keys && forall k :: k in db ==> Readable(db[k].value)
  {
    hide Lists;
    forall k | k in db ensures k in PagedKeys(obs.pages) <==> OnSomePage(obs.pages, k) { }
    if Complete(db, obs) {
      forall k ensures k in PagedKeys(obs.pages) <==> k in db.Keys { }
    }
  }

  /** `semantic_snapshot`: `false` stands for the raised Hold. Success means the rows are the snapshot
      of the whole database, and it succeeds exactly when the observation was complete; neither paging,
      duplicates nor reply order show in the result. */
  method SemanticSnapshot(o: Order, db: Database, obs: Observation) returns (rows: seq<Row>, ok: bool)
    requires o.Valid() && Observes(db, obs)
    ensures ok ==> IsSnapshot(o, db, rows)
    ensures ok <==> Complete(db, obs)
  {
    hide IsSnapshot, Observes;
    rows, ok := SnapshotRows(o, db, obs);
    CompleteExactly(db, obs);
  }
}
