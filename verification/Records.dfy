/**
 hsp-core's records: their canonical values, their identities and the cursors
 that travel as encoded records.
 */
module Records {
  import opened Basics
  import opened TextOrder
  import opened Cbor

  type Metadata = map<Text, Text>

  datatype ChunkRef = ChunkRef(
    index: nat, cid: Text, offset: nat, logicalLen: nat, storedLen: nat, contentEncoding: Text)

  datatype Visibility = ServerVisible | EncryptedOnly | SplitVisibility

  datatype WrappedKey = WrappedKey(
    recipientKeyId: Text, wrappingSuite: Text, wrappedKey: Text, keyVersion: nat, encapsulatedKey: Option<Text>)

  datatype EncryptionDescriptor = EncryptionDescriptor(
    profileId: Text, keyPolicyId: Text, contentSuite: Text, wrappingSuite: Text, visibility: Visibility,
    wrappedKeys: seq<WrappedKey>, serverMetadata: Metadata, clientMetadata: Metadata)

  datatype Manifest = Manifest(
    version: nat, tenant: Text, logicalSize: nat, storedSize: nat, chunker: Text,
    chunkRefs: seq<ChunkRef>, contentType: Text, createdAt: nat, encryption: EncryptionDescriptor)

  datatype MutationKind = BindKind | UnbindKind | HardDeleteKind

  datatype MutationRecord = MutationRecord(
    version: nat, tenant: Text, namespace: Text, path: Text, kind: MutationKind,
    target: Option<Text>, ifRevision: Option<nat>, ttl: Option<nat>, metadata: Metadata, issuedAt: nat)

  datatype ListCursor = ListCursor(
    tenant: Text, namespace: Text, prefix: Option<Text>, snapshotRevision: nat, lastPath: Text)

  datatype EventCursor = EventCursor(tenant: Text, nextSeq: nat)

  // ------------------------------------------------ records with absent fields

  datatype Field = Field(key: nat, value: Option<Value>)

  /** The entries a BTreeMap holds after inserting the fields that are present. */
  function Present(fields: seq<Field>): seq<Entry> {
    if fields == [] then []
    else
      (if fields[0].value.Some? then [Entry(fields[0].key, fields[0].value.value)] else [])
      + Present(fields[1..])
  }

  ghost predicate FieldKeysAscend(fields: seq<Field>) {
    forall i, j :: 0 <= i < j < |fields| ==> fields[i].key < fields[j].key
  }

  lemma CountedKeys(fields: seq<Field>)
    requires forall i :: 0 <= i < |fields| ==> fields[i].key == i + 1
    ensures FieldKeysAscend(fields)
  {
  }

  /** The first entry with the given key, as the cursor decoders search for it. */
  function Lookup(entries: seq<Entry>, key: nat): Option<Value> {
    if entries == [] then None
    else if entries[0].key == key then Some(entries[0].value)
    else Lookup(entries[1..], key)
  }

  lemma {:induction false} PresentKeys(fields: seq<Field>, k: nat)
    requires forall i :: 0 <= i < |fields| ==> fields[i].key > k
    ensures forall i :: 0 <= i < |Present(fields)| ==> Present(fields)[i].key > k
    ensures Lookup(Present(fields), k) == None
  {
    if fields != [] {
      PresentKeys(fields[1..], k);
      var rest := Present(fields[1..]);
      if fields[0].value.Some? {
        assert ([Entry(fields[0].key, fields[0].value.value)] + rest)[1..] == rest;
      } else {
        assert [] + rest == rest;
      }
    }
  }

  /** Looking a field's key up gives the field back, present or absent. */
  lemma {:induction false} LookupPresent(fields: seq<Field>, i: nat)
    requires FieldKeysAscend(fields) && i < |fields|
    ensures Lookup(Present(fields), fields[i].key) == fields[i].value
  {
    var rest := Present(fields[1..]);
    if fields[0].value.Some? {
      assert Present(fields)[1..] == rest;
    } else {
      assert Present(fields) == rest;
    }
    if i == 0 {
      PresentKeys(fields[1..], fields[0].key);
    } else {
      LookupPresent(fields[1..], i - 1);
    }
  }

  lemma {:induction false} PresentValid(fields: seq<Field>)
    requires FieldKeysAscend(fields)
    requires forall i :: 0 <= i < |fields| ==>
               fields[i].key < U64 && (fields[i].value.Some? ==> Valid(fields[i].value.value))
    ensures KeysAscend(Present(fields)) && |Present(fields)| <= |fields|
    ensures forall i :: 0 <= i < |Present(fields)| ==> ValidEntry(Present(fields)[i])
  {
    if fields != [] {
      PresentValid(fields[1..]);
      PresentKeys(fields[1..], fields[0].key);
    }
  }

  /** Records with the same field keys and the same present entries are equal. */
  lemma PresentInjective(f: seq<Field>, g: seq<Field>)
    requires |f| == |g| && forall i :: 0 <= i < |f| ==> f[i].key == g[i].key
    requires FieldKeysAscend(f) && Present(f) == Present(g)
    ensures f == g
  {
    forall i | 0 <= i < |f| ensures f[i] == g[i] {
      LookupPresent(f, i);
      LookupPresent(g, i);
    }
  }

  // -------------------------------------------------------- canonical values

  function VisibilityText(v: Visibility): Text {
    match v
    case ServerVisible => Ascii("server_visible")
    case EncryptedOnly => Ascii("encrypted_only")
    case SplitVisibility => Ascii("split")
  }

  function KindText(k: MutationKind): Text {
    match k
    case BindKind => Ascii("bind")
    case UnbindKind => Ascii("unbind")
    case HardDeleteKind => Ascii("hard_delete")
  }

  lemma TextsDistinguish(v: Visibility, w: Visibility, k: MutationKind, l: MutationKind)
    ensures VisibilityText(v) == VisibilityText(w) ==> v == w
    ensures KindText(k) == KindText(l) ==> k == l
  {
    assert Ascii("server_visible")[0] == 115 && Ascii("encrypted_only")[0] == 101;
  }

  function PairValue(key: Text, value: Text): Value {
    Array([Str(key), Str(value)])
  }

  /** A metadata map becomes the array of its pairs in key order. */
  function MetadataValue(m: Metadata): Value {
    var keys := Sorted(m.Keys);
    Array(seq(|keys|, i requires 0 <= i < |keys| => assert keys[i] in keys; PairValue(keys[i], m[keys[i]])))
  }

  function ChunkRefValue(c: ChunkRef): Value {
    Map([Entry(1, Str(c.cid)), Entry(2, Unsigned(c.index)), Entry(3, Unsigned(c.offset)),
         Entry(4, Unsigned(c.logicalLen)), Entry(5, Unsigned(c.storedLen)), Entry(6, Str(c.contentEncoding))])
  }

  function TextField(t: Option<Text>): Option<Value> {
    if t.Some? then Some(Str(t.value)) else None
  }

  function NumberField(n: Option<nat>): Option<Value> {
    if n.Some? then Some(Unsigned(n.value)) else None
  }

  function WrappedKeyFields(w: WrappedKey): seq<Field> {
    [Field(1, Some(Str(w.recipientKeyId))), Field(2, Some(Str(w.wrappingSuite))),
     Field(3, Some(Str(w.wrappedKey))), Field(4, Some(Unsigned(w.keyVersion))),
     Field(5, TextField(w.encapsulatedKey))]
  }

  function WrappedKeyValue(w: WrappedKey): Value {
    Map(Present(WrappedKeyFields(w)))
  }

  function DescriptorValue(d: EncryptionDescriptor): Value {
    Map([Entry(1, Str(d.profileId)), Entry(2, Str(d.keyPolicyId)), Entry(3, Str(d.contentSuite)),
         Entry(4, Str(d.wrappingSuite)), Entry(5, Str(VisibilityText(d.visibility))),
         Entry(6, Array(seq(|d.wrappedKeys|, i requires 0 <= i < |d.wrappedKeys| => WrappedKeyValue(d.wrappedKeys[i])))),
         Entry(7, MetadataValue(d.serverMetadata)), Entry(8, MetadataValue(d.clientMetadata))])
  }

  function ManifestValue(m: Manifest): Value {
    Map([Entry(1, Unsigned(m.version)), Entry(2, Str(m.tenant)), Entry(3, Unsigned(m.logicalSize)),
         Entry(4, Unsigned(m.storedSize)), Entry(5, Str(m.chunker)),
         Entry(6, Array(seq(|m.chunkRefs|, i requires 0 <= i < |m.chunkRefs| => ChunkRefValue(m.chunkRefs[i])))),
         Entry(7, Str(m.contentType)), Entry(8, Unsigned(m.createdAt)),
         Entry(9, DescriptorValue(m.encryption))])
  }

  function MutationFields(r: MutationRecord): seq<Field> {
    [Field(1, Some(Unsigned(r.version))), Field(2, Some(Str(r.tenant))), Field(3, Some(Str(r.namespace))),
     Field(4, Some(Str(r.path))), Field(5, Some(Str(KindText(r.kind)))), Field(6, TextField(r.target)),
     Field(7, NumberField(r.ifRevision)), Field(8, NumberField(r.ttl)),
     Field(9, Some(MetadataValue(r.metadata))), Field(10, Some(Unsigned(r.issuedAt)))]
  }

  function MutationValue(r: MutationRecord): Value {
    Map(Present(MutationFields(r)))
  }

  function ListCursorFields(c: ListCursor): seq<Field> {
    [Field(1, Some(Str(c.tenant))), Field(2, Some(Str(c.namespace))), Field(3, TextField(c.prefix)),
     Field(4, Some(Unsigned(c.snapshotRevision))), Field(5, Some(Str(c.lastPath)))]
  }

  function ListCursorValue(c: ListCursor): Value {
    Map(Present(ListCursorFields(c)))
  }

  function EventCursorValue(c: EventCursor): Value {
    Map([Entry(1, Str(c.tenant)), Entry(2, Unsigned(c.nextSeq))])
  }

  // ---------------------------------------------------------------- injectivity

  lemma MetadataValueInjective(m: Metadata, n: Metadata)
    requires MetadataValue(m) == MetadataValue(n)
    ensures m == n
  {
    var km, kn := Sorted(m.Keys), Sorted(n.Keys);
    var vm, vn := MetadataValue(m).items, MetadataValue(n).items;
    assert |km| == |kn|;
    forall i | 0 <= i < |km| ensures km[i] == kn[i] && km[i] in m && kn[i] in n && m[km[i]] == n[kn[i]] {
      assert km[i] in km && kn[i] in kn;
      assert vm[i] == PairValue(km[i], m[km[i]]) && vn[i] == PairValue(kn[i], n[kn[i]]);
      assert vm[i].items[0] == vn[i].items[0] && vm[i].items[1] == vn[i].items[1];
    }
    assert km == kn;
    assert forall k :: k in m.Keys <==> k in km;
    forall k | k in m.Keys ensures k in n && m[k] == n[k] {
      var i :| 0 <= i < |km| && km[i] == k;
    }
  }

  lemma ChunkRefValueInjective(c: ChunkRef, d: ChunkRef)
    requires ChunkRefValue(c) == ChunkRefValue(d)
    ensures c == d
  {
    var x, y := ChunkRefValue(c).entries, ChunkRefValue(d).entries;
    assert forall i :: 0 <= i < 6 ==> x[i] == y[i];
    assert x[0] == y[0] && x[1] == y[1] && x[2] == y[2] && x[3] == y[3] && x[4] == y[4] && x[5] == y[5];
  }

  lemma OptionalFieldsInjective(s: Option<Text>, t: Option<Text>, m: Option<nat>, n: Option<nat>)
    ensures TextField(s) == TextField(t) ==> s == t
    ensures NumberField(m) == NumberField(n) ==> m == n
  {
  }

  lemma WrappedKeyValueInjective(w: WrappedKey, x: WrappedKey)
    requires WrappedKeyValue(w) == WrappedKeyValue(x)
    ensures w == x
  {
    var f, g := WrappedKeyFields(w), WrappedKeyFields(x);
    PresentInjective(f, g);
    assert f[0] == g[0] && f[1] == g[1] && f[2] == g[2] && f[3] == g[3] && f[4] == g[4];
    OptionalFieldsInjective(w.encapsulatedKey, x.encapsulatedKey, None, None);
  }

  lemma DescriptorValueInjective(d: EncryptionDescriptor, e: EncryptionDescriptor)
    requires DescriptorValue(d) == DescriptorValue(e)
    ensures d == e
  {
    var x, y := DescriptorValue(d).entries, DescriptorValue(e).entries;
    assert x[0] == y[0] && x[1] == y[1] && x[2] == y[2] && x[3] == y[3];
    assert x[4] == y[4] && x[5] == y[5] && x[6] == y[6] && x[7] == y[7];
    TextsDistinguish(d.visibility, e.visibility, BindKind, BindKind);
    MetadataValueInjective(d.serverMetadata, e.serverMetadata);
    MetadataValueInjective(d.clientMetadata, e.clientMetadata);
    var dk, ek := x[5].value.items, y[5].value.items;
    assert |d.wrappedKeys| == |e.wrappedKeys|;
    forall i | 0 <= i < |d.wrappedKeys| ensures d.wrappedKeys[i] == e.wrappedKeys[i] {
      assert dk[i] == ek[i];
      WrappedKeyValueInjective(d.wrappedKeys[i], e.wrappedKeys[i]);
    }
  }

  lemma ManifestValueInjective(m: Manifest, n: Manifest)
    requires ManifestValue(m) == ManifestValue(n)
    ensures m == n
  {
    var x, y := ManifestValue(m).entries, ManifestValue(n).entries;
    assert x[0] == y[0] && x[1] == y[1] && x[2] == y[2] && x[3] == y[3] && x[4] == y[4];
    assert x[5] == y[5] && x[6] == y[6] && x[7] == y[7] && x[8] == y[8];
    DescriptorValueInjective(m.encryption, n.encryption);
    var mc, nc := x[5].value.items, y[5].value.items;
    assert |m.chunkRefs| == |n.chunkRefs|;
    forall i | 0 <= i < |m.chunkRefs| ensures m.chunkRefs[i] == n.chunkRefs[i] {
      assert mc[i] == nc[i];
      ChunkRefValueInjective(m.chunkRefs[i], n.chunkRefs[i]);
    }
  }

  lemma MutationValueInjective(r: MutationRecord, s: MutationRecord)
    requires MutationValue(r) == MutationValue(s)
    ensures r == s
  {
    var f, g := MutationFields(r), MutationFields(s);
    CountedKeys(f);
    PresentInjective(f, g);
    assert f[0] == g[0] && f[1] == g[1] && f[2] == g[2] && f[3] == g[3] && f[4] == g[4];
    assert f[5] == g[5] && f[6] == g[6] && f[7] == g[7] && f[8] == g[8] && f[9] == g[9];
    TextsDistinguish(ServerVisible, ServerVisible, r.kind, s.kind);
    OptionalFieldsInjective(r.target, s.target, r.ifRevision, s.ifRevision);
    OptionalFieldsInjective(None, None, r.ttl, s.ttl);
    MetadataValueInjective(r.metadata, s.metadata);
  }

  // ------------------------------------------------------------ identities

  lemma MetadataValid(m: Metadata)
    requires |m| < U64 && forall k :: k in m ==> |k| < U64 && |m[k]| < U64
    ensures Valid(MetadataValue(m))
  {
    var keys := Sorted(m.Keys);
    SortedLength(m.Keys);
    forall i | 0 <= i < |keys| ensures Valid(MetadataValue(m).items[i]) {
      assert keys[i] in keys;
    }
  }

  predicate SmallMetadata(m: Metadata) {
    |m| < U64 && forall k :: k in m ==> |k| < U64 && |m[k]| < U64
  }

  predicate SmallChunkRef(c: ChunkRef) {
    c.index < U32 && |c.cid| < U64 && c.offset < U64 && c.logicalLen < U64 && c.storedLen < U64 &&
    |c.contentEncoding| < U64
  }

  predicate SmallWrappedKey(w: WrappedKey) {
    |w.recipientKeyId| < U64 && |w.wrappingSuite| < U64 && |w.wrappedKey| < U64 && w.keyVersion < U32 &&
    (w.encapsulatedKey.Some? ==> |w.encapsulatedKey.value| < U64)
  }

  predicate SmallDescriptor(d: EncryptionDescriptor) {
    |d.profileId| < U64 && |d.keyPolicyId| < U64 && |d.contentSuite| < U64 && |d.wrappingSuite| < U64 &&
    |d.wrappedKeys| < U64 && (forall i :: 0 <= i < |d.wrappedKeys| ==> SmallWrappedKey(d.wrappedKeys[i])) &&
    SmallMetadata(d.serverMetadata) && SmallMetadata(d.clientMetadata)
  }

  /** The bounds the Rust field types put on a manifest. */
  predicate SmallManifest(m: Manifest) {
    m.version < 256 && |m.tenant| < U64 && m.logicalSize < U64 && m.storedSize < U64 && |m.chunker| < U64 &&
    |m.chunkRefs| < U64 && (forall i :: 0 <= i < |m.chunkRefs| ==> SmallChunkRef(m.chunkRefs[i])) &&
    |m.contentType| < U64 && m.createdAt < U64 && SmallDescriptor(m.encryption)
  }

  lemma WrappedKeyValid(w: WrappedKey)
    requires SmallWrappedKey(w)
    ensures Valid(WrappedKeyValue(w))
  {
    PresentValid(WrappedKeyFields(w));
  }

  lemma ChunkRefValid(c: ChunkRef)
    requires SmallChunkRef(c)
    ensures Valid(ChunkRefValue(c))
  {
    var entries := ChunkRefValue(c).entries;
    forall i | 0 <= i < |entries| ensures ValidEntry(entries[i]) { }
  }

  lemma DescriptorValid(d: EncryptionDescriptor)
    requires SmallDescriptor(d)
    ensures Valid(DescriptorValue(d))
  {
    hide WrappedKeyValue, MetadataValue;
    MetadataValid(d.serverMetadata);
    MetadataValid(d.clientMetadata);
    var entries := DescriptorValue(d).entries;
    var keys := entries[5].value;
    forall i | 0 <= i < |d.wrappedKeys| ensures Valid(keys.items[i]) { WrappedKeyValid(d.wrappedKeys[i]); }
    assert Valid(keys);
    forall i | 0 <= i < |entries| ensures ValidEntry(entries[i]) { }
  }

  lemma ManifestValid(m: Manifest)
    requires SmallManifest(m)
    ensures Valid(ManifestValue(m))
  {
    hide DescriptorValue, ChunkRefValue;
    DescriptorValid(m.encryption);
    var entries := ManifestValue(m).entries;
    var refs := entries[5].value;
    forall i | 0 <= i < |m.chunkRefs| ensures Valid(refs.items[i]) {
      assert refs.items[i] == ChunkRefValue(m.chunkRefs[i]);
      ChunkRefValid(m.chunkRefs[i]);
    }
    assert Valid(refs);
    forall i | 0 <= i < |entries| ensures ValidEntry(entries[i]) { }
  }

  function ManifestBytes(m: Manifest): Text
    requires SmallManifest(m)
  {
    ManifestValid(m);
    Encoding(ManifestValue(m))
  }

  function ManifestCid(h: Hash, m: Manifest): Text
    requires SmallManifest(m)
  {
    h(ManifestBytes(m))
  }

  /** Distinct manifests have distinct canonical bytes. */
  lemma ManifestBytesInjective(m: Manifest, n: Manifest)
    requires SmallManifest(m) && SmallManifest(n)
    requires ManifestBytes(m) == ManifestBytes(n)
    ensures m == n
  {
    ManifestValid(m);
    ManifestValid(n);
    EncodingPrefixFree(ManifestValue(m), ManifestValue(n));
    ManifestValueInjective(m, n);
  }

  /** So, up to a hash collision, a manifest CID identifies the manifest. */
  lemma ManifestCidIdentifies(h: Hash, m: Manifest, n: Manifest)
    requires CollisionFree(h) && SmallManifest(m) && SmallManifest(n)
    ensures ManifestCid(h, m) == ManifestCid(h, n) <==> m == n
  {
    if ManifestCid(h, m) == ManifestCid(h, n) { ManifestBytesInjective(m, n); }
  }

  /** Likewise for signed namespace mutations, whose optional fields may be absent. */
  lemma MutationBytesInjective(r: MutationRecord, s: MutationRecord)
    requires Valid(MutationValue(r)) && Valid(MutationValue(s))
    requires Encoding(MutationValue(r)) == Encoding(MutationValue(s))
    ensures r == s
  {
    EncodingPrefixFree(MutationValue(r), MutationValue(s));
    MutationValueInjective(r, s);
  }

  // ---------------------------------------------------------------- cursors

  predicate SmallListCursor(c: ListCursor) {
    |c.tenant| < U64 && |c.namespace| < U64 && (c.prefix.Some? ==> |c.prefix.value| < U64) &&
    c.snapshotRevision < U64 && |c.lastPath| < U64
  }

  lemma ListCursorValid(c: ListCursor)
    requires SmallListCursor(c)
    ensures Valid(ListCursorValue(c))
  {
    PresentValid(ListCursorFields(c));
  }

  function EncodeListCursor(c: ListCursor): Text
    requires SmallListCursor(c)
  {
    ListCursorValid(c);
    Encoding(ListCursorValue(c))
  }

  function RequiredText(v: Option<Value>): Option<Text> {
    if v.Some? && v.value.Str? && v.value.text != [] then Some(v.value.text) else None
  }

  function RequiredNumber(v: Option<Value>): Option<nat> {
    if v.Some? && v.value.Unsigned? then Some(v.value.number) else None
  }

  /** Bytes after the first value are ignored, as the source's reader does. */
  function DecodeListCursor(s: Text): Option<ListCursor> {
    var r := ReadValue(s);
    if !r.Got? || !r.value.Map? then None else
      var m := r.value.entries;
      var tenant := RequiredText(Lookup(m, 1));
      var namespace := RequiredText(Lookup(m, 2));
      var prefix := Lookup(m, 3);
      var revision := RequiredNumber(Lookup(m, 4));
      var lastPath := RequiredText(Lookup(m, 5));
      if tenant.None? || namespace.None? || (prefix.Some? && !prefix.value.Str?) || revision.None? || lastPath.None?
      then None
      else Some(ListCursor(tenant.value, namespace.value,
                           if prefix.Some? then Some(prefix.value.text) else None,
                           revision.value, lastPath.value))
  }

  /** A list cursor comes back from its encoding exactly when its required texts are non-empty. */
  lemma ListCursorRoundTrip(c: ListCursor, trailing: Text)
    requires SmallListCursor(c)
    ensures DecodeListCursor(EncodeListCursor(c) + trailing) ==
            if c.tenant != [] && c.namespace != [] && c.lastPath != [] then Some(c) else None
  {
    ListCursorValid(c);
    ReaderExact(EncodeListCursor(c) + trailing, ListCursorValue(c), trailing);
    var f := ListCursorFields(c);
    CountedKeys(f);
    hide Encoding, ReadValue, Present, Valid;
    LookupPresent(f, 0);
    LookupPresent(f, 1);
    LookupPresent(f, 2);
    LookupPresent(f, 3);
    LookupPresent(f, 4);
    assert f[0].key == 1 && f[1].key == 2 && f[2].key == 3 && f[3].key == 4 && f[4].key == 5;
  }

  function EncodeEventCursor(c: EventCursor): Text
    requires |c.tenant| < U64 && c.nextSeq < U64
  {
    Encoding(EventCursorValue(c))
  }

  function DecodeEventCursor(s: Text): Option<EventCursor> {
    var r := ReadValue(s);
    if !r.Got? || !r.value.Map? then None else
      var tenant := RequiredText(Lookup(r.value.entries, 1));
      var next := RequiredNumber(Lookup(r.value.entries, 2));
      if tenant.None? || next.None? then None else Some(EventCursor(tenant.value, next.value))
  }

  lemma EventCursorRoundTrip(c: EventCursor, trailing: Text)
    requires |c.tenant| < U64 && c.nextSeq < U64
    ensures DecodeEventCursor(EncodeEventCursor(c) + trailing) == if c.tenant != [] then Some(c) else None
  {
    var v := EventCursorValue(c);
    assert ValidEntry(v.entries[0]) && ValidEntry(v.entries[1]) && Valid(v);
    ReaderExact(EncodeEventCursor(c) + trailing, v, trailing);
    var tail := v.entries[1..];
    assert tail == [Entry(2, Unsigned(c.nextSeq))];
    assert Lookup(tail, 2) == Some(Unsigned(c.nextSeq));
    assert Lookup(v.entries, 2) == Lookup(tail, 2) && Lookup(v.entries, 1) == Some(Str(c.tenant));
  }
}
