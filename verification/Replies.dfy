/**
 What the mutating requests answer and write, said field by field, and that a
 request repeated with its token and idempotency key is answered as before.
 */
module Replies {
  import opened Basics
  import opened Paths
  import opened Records
  import opened Namespaces
  import opened Policy
  import opened Service
  import opened ServiceInvariants
  import opened ServiceTheorems
  import opened Access
  import Events

  // ---------------------------------------------------------------------- blank texts

  /** The characters that Unicode calls white space. */
  predicate WhiteSpace(c: nat) {
    || 9 <= c <= 13 || c == 0x20 || c == 0x85 || c == 0xA0 || c == 0x1680 || 0x2000 <= c <= 0x200A
    || c == 0x2028 || c == 0x2029 || c == 0x202F || c == 0x205F || c == 0x3000
  }

  /** UTF-8, for code points of up to three bytes. */
  function Utf8(c: nat): Text
    requires c < 0x10000
  {
    if c < 0x80 then [c] else if c < 0x800 then [0xC0 + c / 64, 0x80 + c % 64]
    else [0xE0 + c / 4096, 0x80 + c / 64 % 64, 0x80 + c % 64]
  }

  function Utf8Text(cs: seq<nat>): Text
    requires forall i :: 0 <= i < |cs| ==> WhiteSpace(cs[i])
  {
    if cs == [] then [] else assert WhiteSpace(cs[0]); Utf8(cs[0]) + Utf8Text(cs[1..])
  }

  lemma SpaceInFront(c: nat, rest: Text)
    requires WhiteSpace(c)
    ensures LeadingSpace(Utf8(c) + rest) == |Utf8(c)|
  {
    var t := Utf8(c) + rest;
    if c >= 0x800 { assert t[..3] == Utf8(c) && t[0] == Utf8(c)[0] && t[1] == Utf8(c)[1] && t[2] == Utf8(c)[2]; }
  }

  lemma FrontIsSpace(t: Text) returns (c: nat)
    requires LeadingSpace(t) > 0
    ensures WhiteSpace(c) && t[..LeadingSpace(t)] == Utf8(c)
  {
    var n := LeadingSpace(t);
    if n == 1 {
      c := t[0];
    } else if n == 2 {
      c := t[1];
    } else {
      var a: int, b: int, d: int := t[0], t[1], t[2];
      c := 4096 * (a - 0xE0) + 64 * (b - 0x80) + (d - 0x80);
    }
  }

  /** A text is blank exactly when it is made of white space. */
  lemma {:induction false} BlankIsSpaces(t: Text) returns (cs: seq<nat>)
    requires Blank(t)
    ensures (forall i :: 0 <= i < |cs| ==> WhiteSpace(cs[i])) && t == Utf8Text(cs)
    decreases |t|
  {
    if t == [] {
      cs := [];
    } else {
      var n := LeadingSpace(t);
      var c := FrontIsSpace(t);
      var rest := BlankIsSpaces(t[n..]);
      cs := [c] + rest;
      assert cs[1..] == rest && t == t[..n] + t[n..];
    }
  }

  lemma {:induction false} SpacesAreBlank(cs: seq<nat>)
    requires forall i :: 0 <= i < |cs| ==> WhiteSpace(cs[i])
    ensures Blank(Utf8Text(cs))
  {
    if cs != [] {
      var rest := Utf8Text(cs[1..]);
      SpacesAreBlank(cs[1..]);
      SpaceInFront(cs[0], rest);
      var t := Utf8(cs[0]) + rest;
      assert t[|Utf8(cs[0])|..] == rest;
    }
  }

  // -------------------------------------------------------------------- bind, unbind

  /** The signed record says what the request says, for this place. */
  predicate SignedFor(env: Env, r: BindRequest, n: Text, p: Text, m: MutationRecord) {
    && env.verify(r.signedRecord) == Some(m) && m.tenant == env.tenant && m.namespace == n && m.path == p
    && m.kind == BindKind && m.target == Some(r.target) && m.ifRevision == r.ifRevision && m.ttl == r.ttl
    && m.metadata == r.metadata && !Blank(n) && !Blank(p) && r.target != []
  }

  lemma VerifyBindIff(env: Env, r: BindRequest, n: Text, p: Text, m: MutationRecord)
    ensures VerifyBind(env, r, n, p) == Ok(m) <==> SignedFor(env, r, n, p, m)
  {
    hide Blank;
  }

  /** The precondition that a bind states about the path's binding. */
  predicate MayBind(bindings: map<Text, Binding>, p: Text, ifRevision: Option<nat>, ifAbsent: bool) {
    && (ifRevision.Some? || ifAbsent)
    && (ifAbsent ==> p !in bindings || bindings[p].tombstone)
    && (ifRevision.Some? ==> if p in bindings then bindings[p].revision == ifRevision.value else ifRevision.value == 0)
  }

  lemma BindRefusalIff(ns: Namespace, p: Text, ifRevision: Option<nat>, ifAbsent: bool)
    ensures BindRefusal(ns, p, ifRevision, ifAbsent) == None <==> MayBind(ns.bindings, p, ifRevision, ifAbsent)
  {
  }

  /** A bind's place is ready exactly when names, record and precondition are in order. */
  lemma BindReadyIff(env: Env, namespaces: map<Text, Namespace>, r: BindRequest)
    ensures BindReady(env, namespaces, r) <==>
            && CanonicalPath(r.namespace).Good? && CanonicalPath(r.path).Good?
            && var n, p := CanonicalPath(r.namespace).value, CanonicalPath(r.path).value;
            && (exists m :: SignedFor(env, r, n, p, m))
            && MayBind(if n in namespaces then namespaces[n].bindings else map[], p, r.ifRevision, r.ifAbsent)
  {
    hide CanonicalPath, Blank, VerifyBind, BindRefusal, SignedFor, MayBind;
    if CanonicalPath(r.namespace).Good? && CanonicalPath(r.path).Good? {
      var n, p := CanonicalPath(r.namespace).value, CanonicalPath(r.path).value;
      var ns := if n in namespaces then namespaces[n] else Namespaces.EMPTY;
      BindRefusalIff(ns, p, r.ifRevision, r.ifAbsent);
      forall m ensures VerifyBind(env, r, n, p) == Ok(m) <==> SignedFor(env, r, n, p, m) { VerifyBindIff(env, r, n, p, m); }
    }
  }

  /** One path of one namespace has been given this binding and nothing else has changed. */
  ghost predicate OnlyPath(s: Store, s': Store, n: Text, p: Text) {
    && n in s'.namespaces
    && (forall k :: k != n ==> (k in s'.namespaces <==> k in s.namespaces))
    && (forall k :: k != n && k in s.namespaces ==> s'.namespaces[k] == s.namespaces[k])
    && var old_, new_ := NamespaceOf(s, n).bindings, s'.namespaces[n].bindings;
    && (forall q :: q != p ==> (q in new_ <==> q in old_))
    && (forall q :: q != p && q in old_ ==> new_[q] == old_[q])
  }

  /** The path has what was asked, under the revision and the event that the reply names. */
  ghost predicate BoundAs(
    s: Store, s': Store, reply: Result<BindReply>, r: BindRequest, n: Text, p: Text, recordCid: Text, now: nat)
  {
    && reply.Ok? && OnlyPath(s, s', n, p) && p in s'.namespaces[n].bindings
    && reply.value == BindReply(NamespaceOf(s, n).nextRevision, recordCid, s.log.next)
    && s'.namespaces[n].bindings[p] ==
       Binding(p, Some(r.target), Some(r.target), reply.value.revision, recordCid, r.metadata, false)
    && s'.namespaces[n].revision == reply.value.revision
    && s.log.next in s'.log.records
    && s'.log.records[s.log.next] ==
       Events.EventRecord(s.log.next, now, Events.NamespaceBound, Some(n), Some(p), Some(r.target),
                          Some(reply.value.revision), r.metadata)
  }

  lemma AuthorizedBindWrites(
    env: Env, s: Store, verdict: Verdict, r: BindRequest, n: Text, p: Text, m: MutationRecord, now: nat, direct: bool)
    requires BindAuthorized(env, s, verdict, r, n, p, m, now, direct).0.namespaces != s.namespaces
    ensures var (s', reply) := BindAuthorized(env, s, verdict, r, n, p, m, now, direct);
            BoundAs(s, s', reply, r, n, p, RecordCid(env.h, m), now)
  {
    hide BindRefusal, RecordCid;
  }

  lemma BoundAsSame(
    s: Store, a: Store, s': Store, reply: Result<BindReply>, r: BindRequest, n: Text, p: Text, recordCid: Text, now: nat)
    requires BoundAs(a, s', reply, r, n, p, recordCid, now) && a.namespaces == s.namespaces && a.log == s.log
    ensures BoundAs(s, s', reply, r, n, p, recordCid, now)
  {
  }

  /**
   A bind that takes effect gives exactly its path exactly what was asked and
   signed, under the next revision, which its reply names, and announces it
   under the number its reply names.
   */
  lemma BindWrites(env: Env, s: Store, seen: Cache, auth: Auth, r: BindRequest, now: nat, direct: bool)
    returns (m: MutationRecord)
    requires StoreInv(env, s) && BindStep(env, s, seen, auth, r, now, direct).store.namespaces != s.namespaces
    ensures Canonical(r.namespace, r.path).Ok?
    ensures var t := BindStep(env, s, seen, auth, r, now, direct);
            var where := Canonical(r.namespace, r.path).value;
            && SignedFor(env, r, where.0, where.1, m)
            && BoundAs(s, t.store, t.reply, r, where.0, where.1, RecordCid(env.h, m), now)
            && t.reply.value.revision == NamespaceOf(s, where.0).revision + 1
  {
    hide StoreInv, Authorize, Canonical, VerifyBind, BindAuthorized, RecordCid, Quiet, Inv, SignedFor, MutationMeta, OnlyPath;
    var where := Canonical(r.namespace, r.path);
    if where.Ok? {
      var (n, p) := where.value;
      var meta := MutationMeta(env, BindOp, n, p, r.idempotencyKey);
      AuthorizeQuiet(s, seen, auth, meta, now);
      var a := Authorize(s, seen, auth, meta, now);
      QuietParts(s, a.store);
      NamespaceOfInv(env, s, n);
      NextIsSuccessor(n, NamespaceOf(s, n));
      if VerifyBind(env, r, n, p).Ok? && a.reply.Ok? {
        m := VerifyBind(env, r, n, p).value;
        VerifyBindIff(env, r, n, p, m);
        GrantedLogsNothing(s, seen, auth, meta, now);
        AuthorizedBindWrites(env, a.store, a.reply.value, r, n, p, m, now, direct);
        var (s', reply) := BindAuthorized(env, a.store, a.reply.value, r, n, p, m, now, direct);
        BoundAsSame(s, a.store, s', reply, r, n, p, RecordCid(env.h, m), now);
      }
    }
  }

  lemma NextIsSuccessor(n: Text, ns: Namespace)
    requires Inv(n, ns)
    ensures ns.nextRevision == ns.revision + 1
  {
  }

  predicate UnbindSignedFor(env: Env, r: UnbindRequest, n: Text, p: Text, m: MutationRecord) {
    && env.verify(r.signedRecord) == Some(m) && m.tenant == env.tenant && m.namespace == n && m.path == p
    && m.kind == (if r.hardDelete then HardDeleteKind else UnbindKind) && m.ifRevision == Some(r.ifRevision)
    && !Blank(n) && !Blank(p)
  }

  lemma VerifyUnbindIff(env: Env, r: UnbindRequest, n: Text, p: Text, m: MutationRecord)
    ensures VerifyUnbind(env, r, n, p) == Ok(m) <==> UnbindSignedFor(env, r, n, p, m)
  {
    hide Blank;
  }

  /**
   An unbind that takes effect leaves a tombstone at exactly its path, or with
   hard_delete nothing, under the next revision; it had named the binding's
   revision, and a hard delete needs admin.repair.
   */
  lemma UnbindWrites(env: Env, s: Store, seen: Cache, auth: Auth, r: UnbindRequest, now: nat)
    returns (m: MutationRecord)
    requires StoreInv(env, s) && UnbindStep(env, s, seen, auth, r, now).store.namespaces != s.namespaces
    ensures Canonical(r.namespace, r.path).Ok?
    ensures var t := UnbindStep(env, s, seen, auth, r, now);
            var where := Canonical(r.namespace, r.path).value;
            var n, p := where.0, where.1;
            && UnbindSignedFor(env, r, n, p, m) && t.reply.Ok? && OnlyPath(s, t.store, n, p)
            && (r.hardDelete ==> AdminRepair in auth.claims.ops)
            && p in NamespaceOf(s, n).bindings && NamespaceOf(s, n).bindings[p].revision == r.ifRevision
            && (r.hardDelete ==> p !in t.store.namespaces[n].bindings)
            && (!r.hardDelete ==>
                  && p in t.store.namespaces[n].bindings
                  && t.store.namespaces[n].bindings[p] ==
                     Binding(p, None, None, t.reply.value.revision, t.reply.value.recordCid, map[], true))
            && t.reply.value.revision == NamespaceOf(s, n).revision + 1 == t.store.namespaces[n].revision
            && t.reply.value.tombstone == !r.hardDelete && t.reply.value.recordCid == RecordCid(env.h, m)
            && t.reply.value.eventNumber == s.log.next && s.log.next in t.store.log.records
            && t.store.log.records[s.log.next] ==
               Events.EventRecord(s.log.next, now,
                                  if r.hardDelete then Events.NamespaceUnbound else Events.NamespaceTombstoned,
                                  Some(n), Some(p), None, Some(t.reply.value.revision), map[])
  {
    hide StoreInv, Authorize, Canonical, VerifyUnbind, RecordCid, Quiet, Inv, UnbindSignedFor, MutationMeta;
    var where := Canonical(r.namespace, r.path);
    if where.Ok? {
      var (n, p) := where.value;
      var meta := MutationMeta(env, UnbindOp, n, p, r.idempotencyKey);
      AuthorizeQuiet(s, seen, auth, meta, now);
      var a := Authorize(s, seen, auth, meta, now);
      QuietParts(s, a.store);
      if a.reply.Ok? { GrantedLogsNothing(s, seen, auth, meta, now); }
      NamespaceOfInv(env, s, n);
      NextIsSuccessor(n, NamespaceOf(s, n));
      if VerifyUnbind(env, r, n, p).Ok? {
        m := VerifyUnbind(env, r, n, p).value;
        VerifyUnbindIff(env, r, n, p, m);
      }
    }
  }

  // --------------------------------------------------------------------------- uploads

  /** What put_init asks of a manifest and of the request around it. */
  predicate Uploadable(env: Env, r: InitRequest) {
    var m, e := r.manifest, r.manifest.encryption;
    && m.chunkRefs != [] && m.storedSize > 0 && m.logicalSize > 0
    && !Blank(e.contentSuite) && !Blank(e.wrappingSuite) && e.wrappedKeys != []
    && m.tenant == env.tenant && e.keyPolicyId == r.keyPolicyId && e.profileId == r.profileId
    && e.visibility == r.visibility
  }

  lemma InitInvalidIff(env: Env, r: InitRequest)
    ensures InitInvalid(env, r) == None <==> Uploadable(env, r)
  {
    hide Blank, SmallManifest;
  }

  /** The missing chunks a put_init reports are exactly those not stored. */
  lemma {:induction false} MissingExact(chunks: map<Text, Text>, refs: seq<ChunkRef>, x: nat)
    ensures x in Missing(chunks, refs) <==>
            exists i :: 0 <= i < |refs| && refs[i].index == x && refs[i].cid !in chunks
  {
    if refs != [] {
      var rest := refs[1..];
      MissingExact(chunks, rest, x);
      assert forall i :: 1 <= i < |refs| ==> refs[i] == rest[i - 1];
      assert forall i :: 0 <= i < |rest| ==> rest[i] == refs[i + 1];
    }
  }

  ghost predicate Rising(xs: seq<nat>) { forall i, j :: 0 <= i < j < |xs| ==> xs[i] < xs[j] }

  /** And they are reported in the manifest's order. */
  lemma {:induction false} MissingInOrder(chunks: map<Text, Text>, refs: seq<ChunkRef>)
    requires forall i, j :: 0 <= i < j < |refs| ==> refs[i].index < refs[j].index
    ensures Rising(Missing(chunks, refs))
  {
    if refs != [] {
      var rest := refs[1..];
      MissingInOrder(chunks, rest);
      var m := Missing(chunks, rest);
      forall i | 0 <= i < |m| ensures refs[0].index < m[i] {
        assert m[i] in m;
        MissingExact(chunks, rest, m[i]);
        var k :| 0 <= k < |rest| && rest[k].index == m[i] && rest[k].cid !in chunks;
        assert rest[k] == refs[k + 1];
      }
      assert Missing(chunks, refs) == (if refs[0].cid in chunks then [] else [refs[0].index]) + m;
    }
  }

  /** An upload that is not a retry opens a session for exactly the manifest and bind of the request. */
  lemma InitOpens(env: Env, s: Store, seen: Cache, auth: Auth, r: InitRequest, now: nat)
    requires InitStep(env, s, seen, auth, r, now).reply.Ok?
    requires Authorize(s, seen, auth, InitMeta(env, r), now).reply != Ok(Retry)
    ensures Uploadable(env, r)
    ensures var t := InitStep(env, s, seen, auth, r, now);
            var cid := ManifestCid(env.h, r.manifest);
            var id := Ascii("session-") + cid;
            && t.reply.value == InitReply(id, Missing(s.chunks, r.manifest.chunkRefs), cid, now + 900000)
            && id in t.store.sessions
            && t.store.sessions[id] == Session(r.manifest, cid, r.storageClass, r.atomicBind, {}, false)
  {
    hide Authorize, InitInvalid, ManifestCid, Missing, SmallManifest, Quiet, Ascii, Uploadable;
    InitInvalidIff(env, r);
    AuthorizeQuiet(s, seen, auth, InitMeta(env, r), now);
    QuietParts(s, Authorize(s, seen, auth, InitMeta(env, r), now).store);
  }

  /** The first reference with that index. */
  ghost predicate FirstWith(refs: seq<ChunkRef>, index: nat, c: ChunkRef) {
    exists i :: 0 <= i < |refs| && refs[i] == c && c.index == index && forall j :: 0 <= j < i ==> refs[j].index != index
  }

  lemma {:induction false} FindRefIff(refs: seq<ChunkRef>, index: nat, c: ChunkRef)
    ensures FindRef(refs, index) == Some(c) <==> FirstWith(refs, index, c)
  {
    if refs != [] {
      var rest := refs[1..];
      FindRefIff(rest, index, c);
      assert forall i :: 0 <= i < |rest| ==> rest[i] == refs[i + 1];
      if refs[0].index == index {
        if refs[0] == c { assert FirstWith(refs, index, c); }
      } else {
        if FirstWith(rest, index, c) {
          var i :| 0 <= i < |rest| && rest[i] == c && c.index == index && forall j :: 0 <= j < i ==> rest[j].index != index;
          assert refs[i + 1] == c && forall j :: 0 <= j < i + 1 ==> refs[j].index != index;
        }
        if FirstWith(refs, index, c) {
          var i :| 0 <= i < |refs| && refs[i] == c && c.index == index && forall j :: 0 <= j < i ==> refs[j].index != index;
          assert rest[i - 1] == c && forall j :: 0 <= j < i - 1 ==> rest[j].index != index;
        }
      }
    }
  }

  /** What put_chunk asks: the bytes are what the session's manifest says they are, at most 4 MiB. */
  ghost predicate ChunkFits(s: Store, h: Hash, r: ChunkRequest, bytes: Text) {
    && h(bytes) == r.cid && r.sessionId in s.sessions && !s.sessions[r.sessionId].committed
    && r.length == |bytes| <= 4194304
    && exists c :: FirstWith(s.sessions[r.sessionId].manifest.chunkRefs, r.index, c) &&
         c.cid == r.cid && c.offset == r.offset && c.storedLen == r.length
  }

  lemma ChunkInvalidIff(s: Store, h: Hash, r: ChunkRequest, bytes: Text)
    ensures ChunkInvalid(s, h, r, bytes) == None <==> ChunkFits(s, h, r, bytes)
  {
    hide FindRef, FirstWith, SmallManifest;
    if r.sessionId in s.sessions {
      var refs := s.sessions[r.sessionId].manifest.chunkRefs;
      forall c ensures FindRef(refs, r.index) == Some(c) <==> FirstWith(refs, r.index, c) { FindRefIff(refs, r.index, c); }
    }
  }

  /** A chunk that is accepted is stored under its hash, and the reply says whether it was there before. */
  lemma ChunkWrites(env: Env, s: Store, seen: Cache, auth: Auth, r: ChunkRequest, bytes: Text, now: nat)
    requires ChunkStep(env, s, seen, auth, r, bytes, now).reply.Ok?
    ensures ChunkFits(s, env.h, r, bytes)
    ensures var t := ChunkStep(env, s, seen, auth, r, bytes, now);
            && t.reply.value == ChunkReply(r.cid !in s.chunks, r.cid in s.chunks)
            && t.store.chunks == (if r.cid in s.chunks then s.chunks else s.chunks[r.cid := bytes])
            && r.sessionId in s.sessions
            && t.store.sessions == s.sessions[r.sessionId :=
                 s.sessions[r.sessionId].(uploaded := s.sessions[r.sessionId].uploaded + {r.index})]
            && t.store.manifests == s.manifests && t.store.namespaces == s.namespaces
  {
    hide Authorize, ChunkInvalid, ChunkFits, SmallManifest, Quiet, ChunkMeta;
    ChunkInvalidIff(s, env.h, r, bytes);
    ChunkSession(s, env.h, r, bytes);
    var meta := ChunkMeta(env, r, s.sessions[r.sessionId], |bytes|);
    AuthorizeQuiet(s, seen, auth, meta, now);
    QuietParts(s, Authorize(s, seen, auth, meta, now).store);
  }

  /** A commit that takes effect stores the session's manifest and closes the session; its event is the one it names. */
  lemma CommitWrites(env: Env, s: Store, seen: Cache, auth: Auth, r: CommitRequest, now: nat)
    requires CommitStores(env, s, seen, auth, r, now) && CommitStep(env, s, seen, auth, r, now).reply.Ok?
    ensures var t := CommitStep(env, s, seen, auth, r, now);
            var session := s.sessions[r.sessionId];
            var number := t.reply.value.eventNumber;
            && t.reply.value.objectCid == r.manifestCid && r.manifestCid in t.store.manifests
            && t.store.manifests[r.manifestCid] ==
               ManifestRecord(session.manifest, r.manifestCid, r.manifestCid, session.storageClass, now)
            && r.sessionId in t.store.sessions && t.store.sessions[r.sessionId] == session.(committed := true)
            && number in t.store.log.records
            && t.store.log.records[number] ==
               Events.EventRecord(number, now, Events.ObjectCommitted,
                                  if session.atomicBind.Some? then Some(session.atomicBind.value.namespace) else None,
                                  if session.atomicBind.Some? then Some(session.atomicBind.value.path) else None,
                                  Some(r.manifestCid), None, map[])
  {
    hide Authorize, CommitMeta, Quiet, CommitStep, Permitted, VerdictFor, BindAccepted, AllPresent, BindFails, CommitStored,
      SmallManifest, RollsBack;
    CommitStepStores(env, s, seen, auth, r, now);
    var session := s.sessions[r.sessionId];
    var a := Authorize(s, seen, auth, CommitMeta(env, r, session), now);
    CommitStoredWrites(env, a.store, a.seen, auth, r, session, now);
  }

  lemma CommitStoredWrites(env: Env, s: Store, seen: Cache, auth: Auth, r: CommitRequest, session: Session, now: nat)
    requires CommitStored(env, s, seen, auth, r, session, now).reply.Ok?
    ensures var t := CommitStored(env, s, seen, auth, r, session, now);
            var cid, number := session.manifestCid, t.reply.value.eventNumber;
            && t.reply.value.objectCid == cid && cid in t.store.manifests
            && t.store.manifests[cid] == ManifestRecord(session.manifest, cid, cid, session.storageClass, now)
            && r.sessionId in t.store.sessions && t.store.sessions[r.sessionId] == session.(committed := true)
            && number in t.store.log.records
            && t.store.log.records[number] ==
               Events.EventRecord(number, now, Events.ObjectCommitted,
                                  if session.atomicBind.Some? then Some(session.atomicBind.value.namespace) else None,
                                  if session.atomicBind.Some? then Some(session.atomicBind.value.path) else None,
                                  Some(cid), None, map[])
  {
    hide BindStep, CommitBind, SmallManifest, BindHappened;
    var cid := session.manifestCid;
    var stored := s.(manifests := s.manifests[cid := ManifestRecord(session.manifest, cid, cid, session.storageClass, now)]);
    if session.atomicBind.Some? {
      BindStepShape(env, stored, seen, auth, CommitBind(session.atomicBind.value, r, cid), now, false);
    }
  }

  // --------------------------------------------------------------------------- retries

  /** The token's record of this mutation holds its idempotency key, in store and cache. */
  ghost predicate OnRecord(replay: Cache, seen: Cache, auth: Auth, meta: Meta) {
    && auth.claims.jti.Some?
    && var key := ReplayKey(meta.tenant, auth.claims.jti.value, meta.operation, meta.subject);
    && key in replay && meta.idempotencyKey == Some(replay[key]) && key in seen && seen[key] == replay[key]
  }

  lemma GrantOnRecord(s: Store, seen: Cache, auth: Auth, meta: Meta, now: nat)
    requires Backed(s.replay, seen) && IsMutation(meta.operation) && meta.idempotencyKey.Some?
    requires Authorize(s, seen, auth, meta, now).reply.Ok?
    ensures var a := Authorize(s, seen, auth, meta, now); OnRecord(a.store.replay, a.seen, auth, meta)
  {
    hide ReplayKey, SegmentPrefixMatches, DenialLogged;
  }

  lemma OnRecordRetries(s: Store, seen: Cache, auth: Auth, meta: Meta, now: nat)
    requires OnRecord(s.replay, seen, auth, meta) && IsMutation(meta.operation) && Allowed(auth, meta, now)
    ensures Authorize(s, seen, auth, meta, now) == Step(s, seen, Ok(Retry))
  {
    hide ReplayKey, PolicyDenial, Allowed, Authorize;
    PolicyAllowsIff(auth, meta, now);
    AllowedRetry(s, seen, auth, meta, now);
  }

  lemma OnRecordLater(replay: Cache, seen: Cache, replay': Cache, seen': Cache, auth: Auth, meta: Meta)
    requires OnRecord(replay, seen, auth, meta) && Within(replay, replay') && Within(seen, seen')
    ensures OnRecord(replay', seen', auth, meta)
  {
    hide ReplayKey;
  }

  /** A bind that was answered is answered the same when it is sent again, and then changes nothing. */
  lemma BindAgain(env: Env, s: Store, seen: Cache, auth: Auth, r: BindRequest, now: nat, later: nat)
    requires Backed(s.replay, seen) && BindStep(env, s, seen, auth, r, now, true).reply.Ok?
    requires Canonical(r.namespace, r.path).Ok?
    requires var where := Canonical(r.namespace, r.path).value;
             Allowed(auth, MutationMeta(env, BindOp, where.0, where.1, r.idempotencyKey), later)
    ensures var t := BindStep(env, s, seen, auth, r, now, true);
            BindStep(env, t.store, t.seen, auth, r, later, true) == t
  {
    hide Backed, Authorize, Canonical, VerifyBind, BindRefusal, BindApplied, RecordCid, NamespaceOf, Allowed, OnRecord;
    var (n, p) := Canonical(r.namespace, r.path).value;
    var meta := MutationMeta(env, BindOp, n, p, r.idempotencyKey);
    GrantOnRecord(s, seen, auth, meta, now);
    var a := Authorize(s, seen, auth, meta, now);
    var record := VerifyBind(env, r, n, p).value;
    BindAppliedReplay(env, a.store, r, n, p, record, now);
    var t := BindStep(env, s, seen, auth, r, now, true);
    OnRecordRetries(t.store, t.seen, auth, meta, later);
  }

  lemma BindAppliedReplay(env: Env, s: Store, r: BindRequest, n: Text, p: Text, m: MutationRecord, now: nat)
    ensures var s' := BindApplied(env, s, r, n, p, m, now); s'.replay == s.replay && s'.bindReplies == s.bindReplies
  {
    hide Bind, NamespaceOf, Event;
  }

  /** So is an unbind. */
  lemma UnbindAgain(env: Env, s: Store, seen: Cache, auth: Auth, r: UnbindRequest, now: nat, later: nat)
    requires Backed(s.replay, seen) && UnbindStep(env, s, seen, auth, r, now).reply.Ok?
    requires Canonical(r.namespace, r.path).Ok?
    requires var where := Canonical(r.namespace, r.path).value;
             Allowed(auth, MutationMeta(env, UnbindOp, where.0, where.1, r.idempotencyKey), later)
    ensures var t := UnbindStep(env, s, seen, auth, r, now);
            UnbindStep(env, t.store, t.seen, auth, r, later) == t
  {
    hide Backed, Authorize, Canonical, VerifyUnbind, UnbindRefusal, UnbindApplied, RecordCid, NamespaceOf, Allowed, OnRecord;
    var (n, p) := Canonical(r.namespace, r.path).value;
    var meta := MutationMeta(env, UnbindOp, n, p, r.idempotencyKey);
    GrantOnRecord(s, seen, auth, meta, now);
    var a := Authorize(s, seen, auth, meta, now);
    UnbindAppliedReplay(env, a.store, r, n, p, VerifyUnbind(env, r, n, p).value, now);
    var t := UnbindStep(env, s, seen, auth, r, now);
    OnRecordRetries(t.store, t.seen, auth, meta, later);
  }

  lemma UnbindAppliedReplay(env: Env, s: Store, r: UnbindRequest, n: Text, p: Text, m: MutationRecord, now: nat)
    ensures var s' := UnbindApplied(env, s, r, n, p, m, now); s'.replay == s.replay && s'.unbindReplies == s.unbindReplies
  {
    hide Unbind, NamespaceOf, Event;
  }

  /** So is a put_init, */
  lemma InitAgain(env: Env, s: Store, seen: Cache, auth: Auth, r: InitRequest, now: nat, later: nat)
    requires Backed(s.replay, seen) && InitStep(env, s, seen, auth, r, now).reply.Ok?
    requires Allowed(auth, InitMeta(env, r), later)
    ensures var t := InitStep(env, s, seen, auth, r, now);
            InitStep(env, t.store, t.seen, auth, r, later) == t
  {
    hide Backed, Authorize, InitInvalid, ManifestCid, SessionId, Missing, SmallManifest, Allowed, OnRecord;
    GrantOnRecord(s, seen, auth, InitMeta(env, r), now);
    var t := InitStep(env, s, seen, auth, r, now);
    OnRecordRetries(t.store, t.seen, auth, InitMeta(env, r), later);
  }

  /** and a put_commit, whose own bind is then not tried again. */
  lemma CommitAgain(env: Env, s: Store, seen: Cache, auth: Auth, r: CommitRequest, now: nat, later: nat)
    requires StoreInv(env, s) && Backed(s.replay, seen) && CommitStep(env, s, seen, auth, r, now).reply.Ok?
    requires r.sessionId in s.sessions && Allowed(auth, CommitMeta(env, r, s.sessions[r.sessionId]), later)
    ensures var t := CommitStep(env, s, seen, auth, r, now);
            CommitStep(env, t.store, t.seen, auth, r, later) == t
  {
    hide StoreInv, Backed, Authorize, AllPresent, CommitStored, SmallManifest, Allowed, OnRecord, Within, Quiet;
    var session := s.sessions[r.sessionId];
    var meta := CommitMeta(env, r, session);
    GrantOnRecord(s, seen, auth, meta, now);
    var a := Authorize(s, seen, auth, meta, now);
    AuthorizeQuiet(s, seen, auth, meta, now);
    QuietParts(s, a.store);
    var t := CommitStep(env, s, seen, auth, r, now);
    if !(a.reply.value == Retry && env.h(r.idempotencyKey) in a.store.commitReplies) {
      assert t == CommitStored(env, a.store, a.seen, auth, r, session, now);
      CommitStoredReplies(env, a.store, a.seen, auth, r, session, now);
      OnRecordLater(a.store.replay, a.seen, t.store.replay, t.seen, auth, meta);
      assert CommitMeta(env, r, session.(committed := true)) == meta;
    }
    assert t.store.sessions[r.sessionId].manifestCid == r.manifestCid;
    OnRecordRetries(t.store, t.seen, auth, meta, later);
  }

  /** What a commit leaves for its retry: the reply, the closed session, and all earlier records. */
  lemma CommitStoredReplies(env: Env, s: Store, seen: Cache, auth: Auth, r: CommitRequest, session: Session, now: nat)
    requires CommitStored(env, s, seen, auth, r, session, now).reply.Ok?
    ensures var t := CommitStored(env, s, seen, auth, r, session, now);
            && env.h(r.idempotencyKey) in t.store.commitReplies
            && t.store.commitReplies[env.h(r.idempotencyKey)] == t.reply.value
            && r.sessionId in t.store.sessions && t.store.sessions[r.sessionId] == session.(committed := true)
            && Within(s.replay, t.store.replay) && Within(seen, t.seen)
  {
    hide BindStep, CommitBind, SmallManifest, Within;
    var cid := session.manifestCid;
    var stored := s.(manifests := s.manifests[cid := ManifestRecord(session.manifest, cid, cid, session.storageClass, now)]);
    WithinItself(s.replay);
    WithinItself(seen);
    if session.atomicBind.Some? {
      BindRecordsGrow(env, stored, seen, auth, CommitBind(session.atomicBind.value, r, cid), now, false);
    }
  }

  lemma WithinItself(m: Cache)
    ensures Within(m, m)
  {
  }

  lemma BindRecordsGrow(env: Env, s: Store, seen: Cache, auth: Auth, r: BindRequest, now: nat, direct: bool)
    ensures var t := BindStep(env, s, seen, auth, r, now, direct);
            Within(s.replay, t.store.replay) && Within(seen, t.seen)
  {
    hide Authorize, Canonical, VerifyBind, BindRefusal, BindApplied, RecordCid, NamespaceOf, Within;
    WithinItself(s.replay);
    WithinItself(seen);
    var where := Canonical(r.namespace, r.path);
    if where.Ok? {
      var (n, p) := where.value;
      var meta := MutationMeta(env, BindOp, n, p, r.idempotencyKey);
      AuthorizeRecordsGrow(s, seen, auth, meta, now);
      if VerifyBind(env, r, n, p).Ok? {
        BindAppliedReplay(env, Authorize(s, seen, auth, meta, now).store, r, n, p, VerifyBind(env, r, n, p).value, now);
      }
    }
  }

  lemma AuthorizeRecordsGrow(s: Store, seen: Cache, auth: Auth, meta: Meta, now: nat)
    ensures var a := Authorize(s, seen, auth, meta, now); Within(s.replay, a.store.replay) && Within(seen, a.seen)
  {
    hide PolicyDenial, ReplayKey, DenialLogged;
    DenialReplayKept(s, meta, now);
    if auth.claims.jti.Some? {
      var key := ReplayKey(meta.tenant, auth.claims.jti.value, meta.operation, meta.subject);
      DenialReplayKept(s.(replay := DurableAfter(seen, s.replay, key, meta.idempotencyKey)), meta, now);
    }
  }

  /** A chunk carries no idempotency key: sent again with the same token it is refused. */
  lemma ChunkAgainRefused(env: Env, s: Store, seen: Cache, auth: Auth, r: ChunkRequest, bytes: Text, now: nat, later: nat)
    requires Backed(s.replay, seen) && ChunkStep(env, s, seen, auth, r, bytes, now).reply.Ok?
    ensures var t := ChunkStep(env, s, seen, auth, r, bytes, now);
            ChunkStep(env, t.store, t.seen, auth, r, bytes, later).reply.Err?
  {
    hide Backed, Authorize, ChunkInvalid, SmallManifest, ReplayKey, Decimal;
    ChunkSession(s, env.h, r, bytes);
    var meta := ChunkMeta(env, r, s.sessions[r.sessionId], |bytes|);
    AuthorizeVerdict(s, seen, auth, meta, now);
    var t := ChunkStep(env, s, seen, auth, r, bytes, now);
    if ChunkInvalid(t.store, env.h, r, bytes).None? {
      ChunkSession(t.store, env.h, r, bytes);
      AuthorizeIff(t.store, t.seen, auth, ChunkMeta(env, r, t.store.sessions[r.sessionId], |bytes|), later);
    }
  }
}
