/**
 What the CDN answers when it asks the origin, by key or by CID, whole or by
 range, and for how long it then answers by itself.
 */
module CdnReads {
  import opened Basics
  import opened Records
  import opened Chunker
  import opened Reading
  import opened Service
  import opened ServiceInvariants
  import opened Distribution
  import opened Uploads
  import opened Objects
  import opened Cdn

  // ------------------------------------------------------------------- reading the origin

  /** The bytes that a range of an object stands for; all of them without a range. */
  predicate InRange(data: Text, range: Option<Range>) {
    range.Some? ==> range.value.start <= range.value.end < |data|
  }

  function Part(data: Text, range: Option<Range>): Text
    requires InRange(data, range)
  {
    if range.Some? then data[range.value.start..range.value.end + 1] else data
  }

  /** Immutable answers may be kept by anyone, answers by key only by their receiver. */
  function Lifetime(c: CdnEnv, immutable: bool): Text {
    if immutable then Ascii("public, max-age=") + Decimal(c.immutableTtl) + Ascii(", immutable")
    else Ascii("private, max-age=") + Decimal(c.namespaceTtl)
  }

  /** The CID names a stored manifest of these bytes. */
  ghost predicate ObjectIs(c: CdnEnv, s: Store, cid: Text, m: WireManifest, data: Text) {
    && cid in s.manifests && cid == ManifestCid(c.h, m)
    && m.chunkRefs == Refs(ChunkCiphertext(c.h, data)) && m.logicalSize == |data| > 0
  }

  /** A ciphertext read of the origin: the bytes, or the range of them, with the object's CID for an etag. */
  lemma OriginReads(
    c: CdnEnv, tenant: Text, s: Store, cid: Text, m: WireManifest, data: Text, range: Option<Range>, immutable: bool)
    requires StoreInv(EnvOf(c, tenant), s) && CollisionFree(c.h) && ObjectIs(c, s, cid, m, data)
    ensures ReadObject(c, s, cid, false, range, immutable) ==
            if InRange(data, range)
            then Ok(Origin(Part(data, range), m.contentType, cid, Lifetime(c, immutable), m.storedSize, range.Some?))
            else Err(InvalidRange)
  {
    hide StoreInv, CollisionFree, ManifestCid, SmallManifest, ChunkCiphertext, Refs, ReadRecord, Tiles, Body, Ascii, Decimal;
    var env := EnvOf(c, tenant);
    StoredRecord(env, s, cid);
    ManifestCidIdentifies(c.h, m, s.manifests[cid].manifest);
    SmallSize(m);
    if range.None? || range.value.start <= range.value.end {
      CommittedReadsBack(env, s, cid, m, data, range);
      assert data[0..|data|] == data;
    }
  }

  // --------------------------------------------------------------------- asking the origin

  /** The answer that a read of these bytes makes. */
  function Answer(data: Text, range: Option<Range>, m: Manifest, cid: Text, lifetime: Text, head: bool): Result<Response> {
    if InRange(data, range)
    then Ok(Response(if head then [] else Part(data, range), m.contentType, cid, lifetime, |Part(data, range)|, false))
    else Err(InvalidRange)
  }

  /** A request by key is always answered from the origin, with the object bound there now. */
  lemma KeyAnswered(
    c: CdnEnv, w: World, e: Happening, n: Text, p: Text, cid: Text, m: WireManifest, data: Text)
    requires e.KeyGet? && !e.plaintext && e.refusal.None? && Canonical(e.bucket, e.key) == Ok((n, p))
    requires var s := w.StoreOf(e.tenant);
             StoreInv(EnvOf(c, e.tenant), s) && BoundTo(s, n, p, cid) && ObjectIs(c, s, cid, m, data)
    requires CollisionFree(c.h)
    ensures KeyServed(c, w, e).1 == Answer(data, e.range, m, cid, Lifetime(c, false), e.head)
  {
    hide StoreInv, CollisionFree, ReadObject, ManifestCid, SmallManifest, Canonical, Lifetime, NamespaceKey, IsCacheable, Entry,
      ChunkCiphertext, Refs;
    OriginReads(c, e.tenant, w.StoreOf(e.tenant), cid, m, data, e.range, false);
  }

  /** Without an object there, or without permission, it is not answered. */
  lemma KeyUnanswered(c: CdnEnv, w: World, e: Happening)
    requires e.KeyGet?
    ensures e.refusal.Some? ==> KeyServed(c, w, e).1 == Err(e.refusal.value)
    ensures e.refusal.None? && Canonical(e.bucket, e.key).Ok? ==>
              var where := Canonical(e.bucket, e.key).value;
              var s := w.StoreOf(e.tenant);
              var bindings := NamespaceOf(s, where.0).bindings;
              where.1 !in bindings || bindings[where.1].tombstone || bindings[where.1].manifest.None?
              || bindings[where.1].manifest.value !in s.manifests ==>
                KeyServed(c, w, e).1 == Err(ObjectNotFound)
    ensures KeyServed(c, w, e).1.Ok? ==> !KeyServed(c, w, e).1.value.hit
  {
    hide Canonical, ReadObject, NamespaceKey, IsCacheable, NamespaceOf;
  }

  /** A request by CID that is no hit is answered from the origin, for a scoped caller only through its own binding. */
  lemma CidAnswered(c: CdnEnv, w: World, e: Happening, m: WireManifest, data: Text)
    requires e.CidGet? && !e.plaintext && e.refusal.None? && CollisionFree(c.h)
    requires !IsHit(w.cache, CidKey(e.tenant, e.cid, false), e.range.None?, e.now)
    requires var s := w.StoreOf(e.tenant);
             StoreInv(EnvOf(c, e.tenant), s) && ObjectIs(c, s, e.cid, m, data)
    requires e.binding.Some? ==>
               && Canonical(e.binding.value.0, e.binding.value.1).Ok?
               && var where := Canonical(e.binding.value.0, e.binding.value.1).value;
               BoundTo(w.StoreOf(e.tenant), where.0, where.1, e.cid)
    ensures CidServed(c, w, e).1 == Answer(data, e.range, m, e.cid, Lifetime(c, true), e.head)
  {
    hide StoreInv, CollisionFree, ReadObject, ManifestCid, SmallManifest, Canonical, Lifetime, CidKey, IsCacheable, Entry,
      ChunkCiphertext, Refs;
    OriginReads(c, e.tenant, w.StoreOf(e.tenant), e.cid, m, data, e.range, true);
  }

  /** A binding that names another object does not prove this CID. */
  lemma CidBindingChecked(c: CdnEnv, w: World, e: Happening, n: Text, p: Text, other: Text)
    requires e.CidGet? && e.refusal.None? && e.binding.Some? && other != e.cid
    requires !IsHit(w.cache, CidKey(e.tenant, e.cid, e.plaintext), e.range.None?, e.now)
    requires Canonical(e.binding.value.0, e.binding.value.1) == Ok((n, p)) && BoundTo(w.StoreOf(e.tenant), n, p, other)
    ensures CidServed(c, w, e).1 == Err(CidBindingMismatch)
  {
    hide Canonical, ReadObject, CidKey, IsCacheable;
  }

  // ------------------------------------------------------------------ answering by itself

  lemma {:induction false} DecimalDigits(n: nat, i: nat)
    requires i < |Decimal(n)|
    ensures 0x30 <= Decimal(n)[i] <= 0x39
  {
    if n >= 10 && i < |Decimal(n / 10)| { DecimalDigits(n / 10, i); }
  }

  /** A directive of one blank and then a letter other than N is not no-store. */
  lemma OtherDirective(d: Text)
    requires |d| >= 2 && d[0] == 32 && 0x61 <= d[1] <= 0x7A && d[1] != 0x6E
    ensures !IsNoStore(d)
  {
    var name := Ascii("no-store");
    assert name[0] == 0x6E && |name| == 8;
    forall i | 0 <= i && i + |name| <= |d| && Blank(d[..i]) && Blank(d[i + |name|..])
      ensures !SameIgnoringCase(d[i..i + |name|], name)
    {
      if i >= 2 {
        BlankLetter(d[..i]);
        assert false;
      }
      assert d[i..i + |name|][0] == d[i];
    }
  }

  lemma BlankLetter(t: Text)
    requires |t| >= 2 && t[0] == 32 && 0x61 <= t[1] <= 0x7A
    ensures !Blank(t)
  {
    var rest := t[1..];
    assert LeadingSpace(t) == 1 && rest[0] == t[1];
    assert LeadingSpace(rest) == 0;
  }

  /** The lifetime of immutable answers lets them be stored. */
  lemma ImmutableIsCacheable(c: CdnEnv)
    ensures IsCacheable(Lifetime(c, true))
  {
    hide IsNoStore, Directives, Decimal, Ascii;
    var age := Decimal(c.immutableTtl);
    forall i | 0 <= i < |age| ensures age[i] != COMMA { DecimalDigits(c.immutableTtl, i); }
    var a, b, d := Ascii("public"), Ascii(" max-age=") + age, Ascii(" immutable");
    LifetimeParts(age);
    DirectivesSplit(a, b + [COMMA] + d);
    DirectivesSplit(b, d);
    DirectivesWhole(d);
    assert Directives(Lifetime(c, true)) == [a, b, d];
    OtherDirective(b);
    OtherDirective(d);
    ShortDirective(a);
  }

  lemma LifetimeParts(age: Text)
    requires COMMA !in age
    ensures Ascii("public, max-age=") + age + Ascii(", immutable") ==
            Ascii("public") + [COMMA] + (Ascii(" max-age=") + age + [COMMA] + Ascii(" immutable"))
    ensures COMMA !in Ascii("public") && COMMA !in Ascii(" max-age=") + age && COMMA !in Ascii(" immutable")
    ensures var b, d := Ascii(" max-age=") + age, Ascii(" immutable");
            |b| >= 2 && b[0] == 32 && b[1] == 0x6D && |d| >= 2 && d[0] == 32 && d[1] == 0x69
  {
    hide Ascii;
    LiteralParts();
    var a, b, d := Ascii("public"), Ascii(" max-age="), Ascii(" immutable");
    assert (a + [COMMA] + b) + age + ([COMMA] + d) == a + [COMMA] + (b + age + [COMMA] + d);
  }

  lemma LiteralParts()
    ensures Ascii("public, max-age=") == Ascii("public") + [COMMA] + Ascii(" max-age=")
    ensures Ascii(", immutable") == [COMMA] + Ascii(" immutable")
    ensures COMMA !in Ascii("public") && COMMA !in Ascii(" max-age=") && COMMA !in Ascii(" immutable")
    ensures var b, d := Ascii(" max-age="), Ascii(" immutable");
            |b| >= 2 && b[0] == 32 && b[1] == 0x6D && |d| >= 2 && d[0] == 32 && d[1] == 0x69
  {
    hide Ascii;
    PublicText();
    MaxAgeText();
    ImmutableText();
    assert "public, max-age=" == ("public" + ",") + " max-age=";
    AsciiAppend("public" + ",", " max-age=");
    AsciiAppend("public", ",");
    assert ", immutable" == "," + " immutable";
    AsciiAppend(",", " immutable");
    CommaText();
  }

  lemma AsciiAppend(s: string, t: string)
    ensures Ascii(s + t) == Ascii(s) + Ascii(t)
  {
  }

  lemma CommaText()
    ensures Ascii(",") == [COMMA]
  {
  }

  lemma PublicText()
    ensures COMMA !in Ascii("public")
  {
    assert Ascii("public") == [0x70, 0x75, 0x62, 0x6C, 0x69, 0x63];
  }

  lemma MaxAgeText()
    ensures var b := Ascii(" max-age="); COMMA !in b && |b| == 9 && b[0] == 32 && b[1] == 0x6D
  {
    assert Ascii(" max-age=") == [0x20, 0x6D, 0x61, 0x78, 0x2D, 0x61, 0x67, 0x65, 0x3D];
  }

  lemma ImmutableText()
    ensures var d := Ascii(" immutable"); COMMA !in d && |d| == 10 && d[0] == 32 && d[1] == 0x69
  {
    assert Ascii(" immutable") == [0x20, 0x69, 0x6D, 0x6D, 0x75, 0x74, 0x61, 0x62, 0x6C, 0x65];
  }

  lemma ShortDirective(d: Text)
    requires |d| < 8
    ensures !IsNoStore(d)
  {
  }

  /**
   A whole answer by CID is then given without the origin for exactly the
   configured time, to everyone who asks for the tenant's object as a whole.
   */
  lemma AnsweredForItsLifetime(c: CdnEnv, w: World, e: Happening, m: WireManifest, data: Text, e': Happening)
    requires e.CidGet? && !e.plaintext && e.range.None? && e.refusal.None? && e.binding.None? && CollisionFree(c.h)
    requires !IsHit(w.cache, CidKey(e.tenant, e.cid, false), true, e.now)
    requires var s := w.StoreOf(e.tenant); StoreInv(EnvOf(c, e.tenant), s) && ObjectIs(c, s, e.cid, m, data)
    requires e'.CidGet? && e'.tenant == e.tenant && e'.cid == e.cid && !e'.plaintext && e'.range.None?
    ensures var answer := CidServed(c, Next(c, w, e), e').1;
            (answer.Ok? && answer.value.hit) <==> e'.now <= SatAdd(e.now, c.immutableTtl * 1000)
    ensures e'.now <= SatAdd(e.now, c.immutableTtl * 1000) ==>
              CidServed(c, Next(c, w, e), e').1 ==
              Ok(Response(if e'.head then [] else data, m.contentType, e.cid, Lifetime(c, true), m.storedSize, true))
  {
    hide StoreInv, CollisionFree, ReadObject, ManifestCid, SmallManifest, Lifetime, CidKey, IsCacheable, Canonical,
      ChunkCiphertext, Refs;
    OriginReads(c, e.tenant, w.StoreOf(e.tenant), e.cid, m, data, None, true);
    ImmutableIsCacheable(c);
  }
}
