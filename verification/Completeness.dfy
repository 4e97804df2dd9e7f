/**
 That an upload goes through: with an unrestricted, unused token nothing stands
 between a valid object and its being stored and bound; and which tokens can
 never upload at all.
 */
module Completeness {
  import opened Basics
  import opened Paths
  import opened Records
  import opened Chunker
  import opened Namespaces
  import opened Policy
  import opened Service
  import opened ServiceInvariants
  import opened ServiceTheorems
  import opened Distribution
  import opened Uploads
  import opened Objects

  // --------------------------------------------------------------------- tokens

  /** A valid token of the tenant with read and write scope and no restriction. */
  predicate Unrestricted(env: Env, auth: Auth, now: nat) {
    var c := auth.claims;
    && now <= c.expiresAt && (c.notBefore.Some? ==> c.notBefore.value <= now) && c.tenant == env.tenant
    && ReadScope in c.ops && WriteScope in c.ops && auth.channelBound && c.jti.Some?
    && c.namespacePrefix.None? && c.pathPrefix.None? && c.maxObjectSize.None? && c.storageClasses == []
    && c.keyPolicyId.None? && c.visibility.None?
  }

  function UploadOps(): set<Operation> { {PutInitOp, PutChunkOp, PutCommitOp, BindOp} }

  lemma UnrestrictedAllowed(env: Env, auth: Auth, meta: Meta, now: nat)
    requires Unrestricted(env, auth, now) && meta.tenant == env.tenant
    requires meta.operation == ResolveOp || meta.operation in UploadOps()
    requires NeedsObjectCrypto(meta.operation) ==> meta.keyPolicyId.Some? && meta.profileId.Some?
    ensures PolicyDenial(auth, meta, now) == None
  {
    hide SegmentPrefixMatches;
    var c := auth.claims;
    var scope := if meta.operation == ResolveOp then ReadScope else WriteScope;
    assert ScopeAllows(scope, meta.operation);
    var i :| 0 <= i < |c.ops| && c.ops[i] == scope;
    assert ScopeAllows(c.ops[i], meta.operation);
  }

  // ---------------------------------------------------------------- replay keys

  function OpLength(op: Operation): nat
    requires IsMutation(op)
  {
    match op
    case PutInitOp => 8
    case PutChunkOp => 9
    case PutCommitOp => 10
    case BindOp => 4
    case _ => 6
  }

  lemma OpNames(op: Operation)
    requires IsMutation(op)
    ensures |OperationName(op)| == OpLength(op) && BAR !in OperationName(op)
  {
    forall i | 0 <= i < |OperationName(op)| ensures OperationName(op)[i] != BAR { }
  }

  /** What precedes the first bar is determined by the text. */
  lemma FirstBar(a: Text, b: Text, x: Text, y: Text)
    requires a + [BAR] + b == x + [BAR] + y && BAR !in a && BAR !in x
    ensures a == x && b == y
  {
    var s := a + [BAR] + b;
    assert s[|a|] == BAR && s[|x|] == BAR;
    assert forall i :: 0 <= i < |a| ==> s[i] == a[i];
    assert forall i :: 0 <= i < |x| ==> s[i] == x[i];
    assert s[..|a|] == a && s[..|x|] == x;
    assert s[|a| + 1..] == b && s[|x| + 1..] == y;
  }

  /** Replay keys tell operation and subject apart, and tokens whose ids hold no bar. */
  lemma ReplayKeyInjective(
    tenant: Text, jti: Text, op: Operation, subject: Text, jti': Text, op': Operation, subject': Text)
    requires IsMutation(op) && IsMutation(op') && (jti == jti' || (BAR !in jti && BAR !in jti'))
    requires ReplayKey(tenant, jti, op, subject) == ReplayKey(tenant, jti', op', subject')
    ensures jti == jti' && op == op' && subject == subject'
  {
    hide OperationName, ReplayKey;
    KeyParts(tenant, jti, op, subject);
    KeyParts(tenant, jti', op', subject');
    var a, x := OperationName(op) + [BAR] + subject, OperationName(op') + [BAR] + subject';
    if jti == jti' {
      assert (jti + [BAR] + a)[|jti| + 1..] == a && (jti + [BAR] + x)[|jti| + 1..] == x;
    } else {
      FirstBar(jti, a, jti', x);
    }
    SameOperation(op, subject, op', subject');
  }

  lemma KeyParts(tenant: Text, jti: Text, op: Operation, subject: Text)
    ensures |ReplayKey(tenant, jti, op, subject)| > |tenant|
    ensures ReplayKey(tenant, jti, op, subject)[|tenant| + 1..] == jti + [BAR] + (OperationName(op) + [BAR] + subject)
  {
    hide OperationName;
    var rest := jti + [BAR] + (OperationName(op) + [BAR] + subject);
    assert ReplayKey(tenant, jti, op, subject) == tenant + [BAR] + rest;
  }

  lemma SameOperation(op: Operation, subject: Text, op': Operation, subject': Text)
    requires IsMutation(op) && IsMutation(op')
    requires OperationName(op) + [BAR] + subject == OperationName(op') + [BAR] + subject'
    ensures op == op' && subject == subject'
  {
    hide OperationName;
    OpNames(op);
    OpNames(op');
    FirstBar(OperationName(op), subject, OperationName(op'), subject');
  }

  function ChunkSubject(id: Text, j: nat): Text { id + [COLON] + Decimal(j) }

  lemma {:induction false} DecimalInjective(i: nat, j: nat)
    requires Decimal(i) == Decimal(j)
    ensures i == j
  {
    DecimalLength(i);
    DecimalLength(j);
    if i >= 10 && j >= 10 {
      var a, b := Decimal(i / 10), Decimal(j / 10);
      var x, y := [0x30 + i % 10], [0x30 + j % 10];
      assert (a + x)[..|a|] == a && (b + y)[..|b|] == b && (a + x)[|a|] == x[0] && (b + y)[|b|] == y[0];
      DecimalInjective(i / 10, j / 10);
    }
  }

  lemma DecimalLength(i: nat)
    ensures if i < 10 then |Decimal(i)| == 1 else |Decimal(i)| >= 2
  {
    if i >= 100 { DecimalLength(i / 10); }
  }

  lemma ChunkSubjectInjective(id: Text, i: nat, j: nat)
    requires ChunkSubject(id, i) == ChunkSubject(id, j)
    ensures i == j
  {
    hide Decimal;
    assert ChunkSubject(id, i)[|id| + 1..] == Decimal(i) && ChunkSubject(id, j)[|id| + 1..] == Decimal(j);
    DecimalInjective(i, j);
  }

  /** How far the token has been used up by an upload. */
  datatype Progress = Unused | Chunks(sent: nat) | Committing

  predicate MaySpend(p: Progress, id: Text, op: Operation, subject: Text) {
    match p
    case Unused => false
    case Chunks(n) => op == PutInitOp || (op == PutChunkOp && exists j: nat :: j < n && subject == ChunkSubject(id, j))
    case Committing => op != BindOp
  }

  ghost predicate SpentAtMost(env: Env, s: Store, jti: Text, id: Text, p: Progress) {
    forall op, subject :: op in UploadOps() && ReplayKey(env.tenant, jti, op, subject) in s.replay ==> MaySpend(p, id, op, subject)
  }

  /** An allowed mutation that the token has not made is authorised as fresh. */
  lemma AuthorizedFresh(env: Env, s: Store, seen: Cache, auth: Auth, meta: Meta, now: nat)
    requires Backed(s.replay, seen) && Unrestricted(env, auth, now) && meta.tenant == env.tenant
    requires meta.operation in UploadOps()
    requires NeedsObjectCrypto(meta.operation) ==> meta.keyPolicyId.Some? && meta.profileId.Some?
    requires ReplayKey(env.tenant, auth.claims.jti.value, meta.operation, meta.subject) !in s.replay
    ensures var a := Authorize(s, seen, auth, meta, now);
            a.reply == Ok(Fresh) &&
            a.store == s.(replay := s.replay[ReplayKey(env.tenant, auth.claims.jti.value, meta.operation, meta.subject) :=
                                               meta.idempotencyKey.GetOr([])])
  {
    hide PolicyDenial, ReplayKey, Authorize;
    UnrestrictedAllowed(env, auth, meta, now);
    AllowedFresh(s, seen, auth, meta, now);
  }

  lemma AllowedFresh(s: Store, seen: Cache, auth: Auth, meta: Meta, now: nat)
    requires Backed(s.replay, seen) && PolicyDenial(auth, meta, now) == None
    requires IsMutation(meta.operation) && auth.claims.jti.Some?
    requires ReplayKey(meta.tenant, auth.claims.jti.value, meta.operation, meta.subject) !in s.replay
    ensures var key := ReplayKey(meta.tenant, auth.claims.jti.value, meta.operation, meta.subject);
            Authorize(s, seen, auth, meta, now) ==
            Step(s.(replay := s.replay[key := meta.idempotencyKey.GetOr([])]), seen[key := meta.idempotencyKey.GetOr([])],
                 Ok(Fresh))
  {
    hide PolicyDenial, ReplayKey;
  }

  lemma SpendStep(env: Env, s: Store, jti: Text, id: Text, p: Progress, op: Operation, subject: Text, idem: Text, q: Progress)
    requires SpentAtMost(env, s, jti, id, p) && op in UploadOps() && MaySpend(q, id, op, subject)
    requires forall o, t :: MaySpend(p, id, o, t) ==> MaySpend(q, id, o, t)
    ensures SpentAtMost(env, s.(replay := s.replay[ReplayKey(env.tenant, jti, op, subject) := idem]), jti, id, q)
  {
    hide ReplayKey, MaySpend;
    var s' := s.(replay := s.replay[ReplayKey(env.tenant, jti, op, subject) := idem]);
    forall o, t | o in UploadOps() && ReplayKey(env.tenant, jti, o, t) in s'.replay ensures MaySpend(q, id, o, t) {
      if ReplayKey(env.tenant, jti, o, t) == ReplayKey(env.tenant, jti, op, subject) {
        ReplayKeyInjective(env.tenant, jti, o, t, jti, op, subject);
      }
    }
  }

  // -------------------------------------------------------------------- the steps

  lemma InitGoesThrough(env: Env, s: Store, seen: Cache, auth: Auth, r: InitRequest, now: nat)
    requires Backed(s.replay, seen) && Unrestricted(env, auth, now) && InitInvalid(env, r) == None
    requires SpentAtMost(env, s, auth.claims.jti.value, SessionId(ManifestCid(env.h, r.manifest)), Unused)
    ensures var t := InitStep(env, s, seen, auth, r, now);
            var id := SessionId(ManifestCid(env.h, r.manifest));
            t.reply.Ok? && SpentAtMost(env, t.store, auth.claims.jti.value, id, Chunks(0))
  {
    hide InitInvalid, ManifestCid, SessionId, Missing, Authorize, ReplayKey, SmallManifest, SpentAtMost;
    var jti, cid := auth.claims.jti.value, ManifestCid(env.h, r.manifest);
    UnspentKey(env, s, jti, SessionId(cid), Unused, PutInitOp, cid);
    AuthorizedFresh(env, s, seen, auth, InitMeta(env, r), now);
    SpendStep(env, s, jti, SessionId(cid), Unused, PutInitOp, cid, r.idempotencyKey, Chunks(0));
    var a := Authorize(s, seen, auth, InitMeta(env, r), now);
    SameSpent(env, a.store, InitStep(env, s, seen, auth, r, now).store, jti, SessionId(cid), Chunks(0));
  }

  lemma UnspentKey(env: Env, s: Store, jti: Text, id: Text, p: Progress, op: Operation, subject: Text)
    requires SpentAtMost(env, s, jti, id, p) && op in UploadOps() && !MaySpend(p, id, op, subject)
    ensures ReplayKey(env.tenant, jti, op, subject) !in s.replay
  {
    hide ReplayKey, MaySpend;
  }

  lemma SameSpent(env: Env, s: Store, s': Store, jti: Text, id: Text, p: Progress)
    requires SpentAtMost(env, s, jti, id, p) && s'.replay == s.replay
    ensures SpentAtMost(env, s', jti, id, p)
  {
    hide ReplayKey, MaySpend;
  }

  /** An accepted chunk with an unused key is stored. */
  lemma ChunkGoesThrough(env: Env, s: Store, seen: Cache, auth: Auth, r: ChunkRequest, bytes: Text, now: nat)
    requires Backed(s.replay, seen) && Unrestricted(env, auth, now) && ChunkInvalid(s, env.h, r, bytes) == None
    requires SpentAtMost(env, s, auth.claims.jti.value, r.sessionId, Chunks(r.index))
    ensures var t := ChunkStep(env, s, seen, auth, r, bytes, now);
            && t.reply.Ok? && SpentAtMost(env, t.store, auth.claims.jti.value, r.sessionId, Chunks(r.index + 1))
            && r.cid in t.store.chunks && s.chunks.Keys <= t.store.chunks.Keys
  {
    hide ChunkInvalid, Authorize, ReplayKey, SmallManifest, SpentAtMost, Decimal;
    ChunkSession(s, env.h, r, bytes);
    var jti, subject := auth.claims.jti.value, ChunkSubject(r.sessionId, r.index);
    var meta := ChunkMeta(env, r, s.sessions[r.sessionId], |bytes|);
    NotYetSent(r.sessionId, r.index);
    UnspentKey(env, s, jti, r.sessionId, Chunks(r.index), PutChunkOp, subject);
    AuthorizedFresh(env, s, seen, auth, meta, now);
    SpendMore(r.sessionId, r.index);
    SpendStep(env, s, jti, r.sessionId, Chunks(r.index), PutChunkOp, subject, [], Chunks(r.index + 1));
    var a := Authorize(s, seen, auth, meta, now);
    SameSpent(env, a.store, ChunkStep(env, s, seen, auth, r, bytes, now).store, jti, r.sessionId, Chunks(r.index + 1));
  }

  lemma NotYetSent(id: Text, n: nat)
    ensures !MaySpend(Chunks(n), id, PutChunkOp, ChunkSubject(id, n))
  {
    hide ChunkSubject;
    forall j: nat | j < n ensures ChunkSubject(id, n) != ChunkSubject(id, j) {
      if ChunkSubject(id, n) == ChunkSubject(id, j) { ChunkSubjectInjective(id, n, j); }
    }
  }

  lemma SpendMore(id: Text, n: nat)
    ensures MaySpend(Chunks(n + 1), id, PutChunkOp, ChunkSubject(id, n))
    ensures forall o, t :: MaySpend(Chunks(n), id, o, t) ==> MaySpend(Chunks(n + 1), id, o, t)
  {
    hide ChunkSubject;
  }

  predicate SentUpTo(chunks: map<Text, Text>, refs: seq<ChunkRef>, i: nat) {
    i <= |refs| && forall j :: 0 <= j < i ==> refs[j].cid in chunks
  }

  lemma SentOneMore(chunks: map<Text, Text>, chunks': map<Text, Text>, refs: seq<ChunkRef>, i: nat)
    requires SentUpTo(chunks, refs, i) && i < |refs| && chunks.Keys <= chunks'.Keys && refs[i].cid in chunks'
    ensures SentUpTo(chunks', refs, i + 1)
  {
  }

  lemma SentAll(chunks: map<Text, Text>, refs: seq<ChunkRef>)
    requires SentUpTo(chunks, refs, |refs|)
    ensures AllPresent(chunks, refs)
  {
  }

  lemma RefsLength(staged: seq<Staged>)
    ensures |Refs(staged)| == |staged|
  {
  }

  /** The loop sends every chunk, and then all of them are stored. */
  lemma {:induction false} ChunksGoThrough(
    env: Env, s0: Store, s: Store, seen: Cache, auth: Auth, i: nat, now: nat, cid: Text, m: WireManifest, bind: AtomicBind,
    data: Text)
    requires i <= Count(|data|) <= U32 && SessionIs(s, cid, m, bind) && Kept(env, s0, s, seen)
    requires m.chunkRefs == Refs(ChunkCiphertext(env.h, data)) && Unrestricted(env, auth, now)
    requires SpentAtMost(env, s, auth.claims.jti.value, SessionId(cid), Chunks(i))
    requires SentUpTo(s.chunks, m.chunkRefs, i)
    ensures var t := UploadChunks(env, s, seen, auth, SessionId(cid), ChunkCiphertext(env.h, data), i, now);
            && t.reply.Ok? && AllPresent(t.store.chunks, m.chunkRefs)
            && SpentAtMost(env, t.store, auth.claims.jti.value, SessionId(cid), Chunks(Count(|data|)))
    decreases Count(|data|) - i
  {
    hide SessionIs, Kept, ChunkCiphertext, Count, SessionId, Unrestricted, SpentAtMost, ChunkStep, SmallManifest, Slice,
      Refs, SentUpTo, AllPresent, ChunkInvalid;
    var staged := ChunkCiphertext(env.h, data);
    RefsLength(staged);
    if i == |staged| {
      SentAll(s.chunks, m.chunkRefs);
    } else {
      ChunkAt(env.h, data, i);
      var c := staged[i].chunk;
      var r := ChunkRequest(SessionId(cid), c.index, c.cid, c.offset, c.storedLen);
      DescriptorAccepted(env, s, cid, m, bind, data, i);
      KeptBacked(env, s0, s, seen);
      ChunkGoesThrough(env, s, seen, auth, r, staged[i].bytes, now);
      ChunkKeepsSession(env, s, seen, auth, r, staged[i].bytes, now, cid, m, bind);
      ChunkStepKeeps(env, s0, s, seen, auth, r, staged[i].bytes, now);
      var t := ChunkStep(env, s, seen, auth, r, staged[i].bytes, now);
      SentOneMore(s.chunks, t.store.chunks, m.chunkRefs, i);
      ChunksGoThrough(env, s0, t.store, t.seen, auth, i + 1, now, cid, m, bind, data);
    }
  }

  /** The bind inside the commit: signed for this place and in step with what the resolve saw. */
  lemma BindGoesThrough(env: Env, s: Store, seen: Cache, auth: Auth, r: BindRequest, id: Text, now: nat)
    requires Backed(s.replay, seen) && Unrestricted(env, auth, now) && r.target in s.manifests
    requires BindReady(env, s.namespaces, r) && SpentAtMost(env, s, auth.claims.jti.value, id, Committing)
    ensures BindStep(env, s, seen, auth, r, now, false).reply.Ok?
  {
    hide Canonical, VerifyBind, BindRefusal, Authorize, ReplayKey, Unrestricted, BindApplied, RecordCid, SpentAtMost;
    JtiPresent(env, auth, now);
    var (name, path) := Canonical(r.namespace, r.path).value;
    UnspentKey(env, s, auth.claims.jti.value, id, Committing, BindOp, name + [COLON] + path);
    AuthorizedFresh(env, s, seen, auth, MutationMeta(env, BindOp, name, path, r.idempotencyKey), now);
  }

  lemma JtiPresent(env: Env, auth: Auth, now: nat)
    requires Unrestricted(env, auth, now)
    ensures auth.claims.jti.Some?
  {
  }

  /** The commit of a complete session goes through with its bind. */
  lemma CommitGoesThrough(
    env: Env, s: Store, seen: Cache, auth: Auth, r: CommitRequest, now: nat, m: WireManifest, bind: AtomicBind, n: nat)
    requires StoreInv(env, s) && Backed(s.replay, seen) && Unrestricted(env, auth, now)
    requires var cid := ManifestCid(env.h, m);
             && SessionIs(s, cid, m, bind) && r.sessionId == SessionId(cid) && r.manifestCid == cid
             && AllPresent(s.chunks, m.chunkRefs)
             && SpentAtMost(env, s, auth.claims.jti.value, SessionId(cid), Chunks(n))
             && BindReady(env, s.namespaces, CommitBind(bind, r, cid))
    ensures CommitStep(env, s, seen, auth, r, now).reply.Ok?
  {
    hide ManifestCid, SessionId, AllPresent, SpentAtMost, CommitBind, BindReady, StoreInv, Unrestricted, Authorize,
      ReplayKey, BindStep, SmallManifest, CommitFinished;
    JtiPresent(env, auth, now);
    var jti, id, cid := auth.claims.jti.value, r.sessionId, r.manifestCid;
    var session := s.sessions[id];
    var meta := CommitMeta(env, r, session);
    UnspentKey(env, s, jti, id, Chunks(n), PutCommitOp, id);
    AuthorizedFresh(env, s, seen, auth, meta, now);
    SpendStep(env, s, jti, id, Chunks(n), PutCommitOp, id, r.idempotencyKey, Committing);
    var a := Authorize(s, seen, auth, meta, now);
    KeptStart(env, s, seen);
    AuthorizeKeeps(env, s, s, seen, auth, meta, now);
    KeptBacked(env, s, a.store, a.seen);
    var stored := a.store.(manifests := a.store.manifests[cid := ManifestRecord(m, cid, cid, session.storageClass, now)]);
    TargetOf(bind, r, cid);
    SameSpent(env, a.store, stored, jti, id, Committing);
    BindGoesThrough(env, stored, a.seen, auth, CommitBind(bind, r, cid), id, now);
  }

  // -------------------------------------------------------------------- the upload

  lemma UploadGoesThrough(
    env: Env, s: Store, seen: Cache, auth: Auth, m: WireManifest, spec: Spec, bind: AtomicBind, data: Text, initKey: Text,
    commitKey: Text, now: nat)
    requires StoreInv(env, s) && Backed(s.replay, seen) && Unrestricted(env, auth, now)
    requires Count(|data|) <= U32 && m.chunkRefs == Refs(ChunkCiphertext(env.h, data))
    requires InitInvalid(env, InitRequest(m, initKey, spec.profileId, spec.keyPolicyId, spec.visibility,
                                          StorageClass(spec), Some(bind))) == None
    requires SpentAtMost(env, s, auth.claims.jti.value, SessionId(ManifestCid(env.h, m)), Unused)
    requires BindReady(env, s.namespaces, UploadBind(env, m, bind, commitKey))
    ensures Upload(env, s, seen, auth, m, spec, bind, ChunkCiphertext(env.h, data), initKey, commitKey, now).reply.Ok?
  {
    hide InitStep, UploadChunks, CommitStep, ManifestCid, SessionId, StorageClass, SmallManifest, Unrestricted, StoreInv,
      Backed, SpentAtMost, BindReady, InitInvalid, ChunkCiphertext, Count, Refs, Kept, SessionIs, AllPresent;
    var cid := ManifestCid(env.h, m);
    var id := SessionId(cid);
    var q := InitRequest(m, initKey, spec.profileId, spec.keyPolicyId, spec.visibility, StorageClass(spec), Some(bind));
    JtiPresent(env, auth, now);
    UnusedIsFresh(env, s, auth, cid);
    InitGoesThrough(env, s, seen, auth, q, now);
    InitFresh(env, s, seen, auth, q, now, bind);
    KeptStart(env, s, seen);
    InitStepKeeps(env, s, s, seen, auth, q, now);
    InitStepParts(env, s, seen, auth, q, now);
    var init := InitStep(env, s, seen, auth, q, now);
    NothingSent(init.store.chunks, m.chunkRefs);
    ChunksGoThrough(env, s, init.store, init.seen, auth, 0, now, cid, m, bind, data);
    UploadKeepsSession(env, s, init.store, init.seen, auth, id, ChunkCiphertext(env.h, data), 0, now, cid, m, bind);
    var up := UploadChunks(env, init.store, init.seen, auth, id, ChunkCiphertext(env.h, data), 0, now);
    KeptBacked(env, s, up.store, up.seen);
    CommitGoesThrough(env, up.store, up.seen, auth, CommitRequest(id, cid, commitKey), now, m, bind, Count(|data|));
  }

  lemma NothingSent(chunks: map<Text, Text>, refs: seq<ChunkRef>)
    ensures SentUpTo(chunks, refs, 0)
  {
  }

  lemma UnusedIsFresh(env: Env, s: Store, auth: Auth, cid: Text)
    requires auth.claims.jti.Some? && SpentAtMost(env, s, auth.claims.jti.value, SessionId(cid), Unused)
    ensures FreshInit(env, s, auth, cid) && FreshCommit(env, s, auth, cid)
  {
    hide ReplayKey, SessionId;
  }

  /** The token's id occurs in no replay record of an upload. */
  ghost predicate NeverUsed(env: Env, s: Store, jti: Text) {
    forall op, subject :: op in UploadOps() ==> ReplayKey(env.tenant, jti, op, subject) !in s.replay
  }

  /** What the caller sees at a key: the live binding, if any. */
  function LiveBinding(s: Store, bucket: Text, key: Text): Option<Binding> {
    var bindings := NamespaceOf(s, bucket).bindings;
    if key in bindings && !bindings[key].tombstone then Some(bindings[key]) else None
  }

  lemma ResolveSees(env: Env, s: Store, seen: Cache, auth: Auth, bucket: Text, key: Text, now: nat)
    requires PolicyDenial(auth, ResolveMeta(env, bucket, key), now) == None && Canonical(bucket, key) == Ok((bucket, key))
    ensures var e := ResolveStep(env, s, seen, auth, bucket, key, None, None, now);
            e.store == s && e.seen == seen && Existing(e) == LiveBinding(s, bucket, key)
  {
    hide Canonical, PolicyDenial, ReplayKey;
  }

  /** The bind built from what the resolve saw is ready when the commit comes to it. */
  lemma ObjectBindReady(
    env: DistEnv, s: Store, bucket: Text, key: Text, m: WireManifest, spec: Spec, commitKey: Text, now: nat)
    requires Trusted(env) && Canonical(bucket, key) == Ok((bucket, key)) && !Blank(bucket) && !Blank(key)
    requires ManifestCid(env.alpha.h, m) != []
    ensures BindReady(env.alpha, s.namespaces,
                      ObjectBind(env, bucket, key, m, RevisionOf(LiveBinding(s, bucket, key)), spec, commitKey, now))
  {
    hide Canonical, Blank, ManifestCid, SessionId, SmallManifest;
    var revision := RevisionOf(LiveBinding(s, bucket, key));
    var record := BindRecord(env.alpha.tenant, bucket, key, ManifestCid(env.alpha.h, m), revision, spec.serverMetadata, now);
    assert env.alpha.verify(env.sign(record)) == Some(record);
  }

  /**
   Storing a valid object at a canonical key succeeds for an unrestricted token
   that has not been used, unless the key is live and locked.
   */
  lemma StoreGoesThrough(
    env: DistEnv, s: Store, seen: Cache, locks: map<Text, Lock>, auth: Auth, bucket: Text, key: Text, spec: Spec,
    payload: Text, initKey: Text, commitKey: Text, now: nat)
    requires Trusted(env) && StoreInv(env.alpha, s) && Backed(s.replay, seen) && Unrestricted(env.alpha, auth, now)
    requires NeverUsed(env.alpha, s, auth.claims.jti.value)
    requires Canonical(bucket, key) == Ok((bucket, key)) && !Blank(bucket) && !Blank(key)
    requires var m := PayloadManifest(env.alpha, payload, spec, now);
             SmallManifest(m) && ManifestInvalid(m) == None && ManifestCid(env.alpha.h, m) != []
    requires Count(|payload|) <= U32
    ensures StoreObject(env, s, seen, locks, auth, bucket, key, spec, ChunkCiphertext(env.alpha.h, payload), |payload|,
                        initKey, commitKey, now).reply.Ok? <==>
            (LiveBinding(s, bucket, key).Some? ==> LockRefusal(locks, LockKey(bucket, key), auth, now) == None)
  {
    hide Trusted, StoreInv, Backed, Unrestricted, NeverUsed, Canonical, Blank, ManifestInvalid, SmallManifest, ManifestCid,
      Count, Upload, LockRefusal, LockKey, ResolveStep, ChunkCiphertext, Refs, LiveBinding, Existing, BuildManifest, BindReady,
      SpentAtMost, SessionId;
    UnrestrictedAllowed(env.alpha, auth, ResolveMeta(env.alpha, bucket, key), now);
    ResolveSees(env.alpha, s, seen, auth, bucket, key, now);
    var m: WireManifest := PayloadManifest(env.alpha, payload, spec, now);
    PayloadManifestParts(env.alpha, payload, spec, now);
    var revision := RevisionOf(LiveBinding(s, bucket, key));
    var bind := AtomicBindFor(env, bucket, key, ManifestCid(env.alpha.h, m), revision, spec.serverMetadata, now);
    ObjectBindReady(env, s, bucket, key, m, spec, commitKey, now);
    PayloadInitValid(env.alpha, payload, spec, now, initKey, bind);
    JtiPresent(env.alpha, auth, now);
    NeverUsedUnspent(env.alpha, s, auth.claims.jti.value, SessionId(ManifestCid(env.alpha.h, m)));
    UploadGoesThrough(env.alpha, s, seen, auth, m, spec, bind, payload, initKey, commitKey, now);
  }

  lemma NeverUsedUnspent(env: Env, s: Store, jti: Text, id: Text)
    requires NeverUsed(env, s, jti)
    ensures SpentAtMost(env, s, jti, id, Unused)
  {
    hide ReplayKey;
  }

  lemma PayloadInitValid(env: Env, payload: Text, spec: Spec, now: nat, initKey: Text, bind: AtomicBind)
    requires var m := PayloadManifest(env, payload, spec, now); SmallManifest(m) && ManifestInvalid(m) == None
    ensures InitInvalid(env, InitRequest(PayloadManifest(env, payload, spec, now), initKey, spec.profileId, spec.keyPolicyId,
                                         spec.visibility, StorageClass(spec), Some(bind))) == None
  {
    hide SmallManifest, ManifestInvalid, ChunkCiphertext, Refs, StorageClass;
  }

  // -------------------------------------------------------- tokens that cannot upload

  /** put_chunk names no path and no namespace, so a token scoped to either can never send a chunk. */
  lemma ScopedTokenSendsNoChunk(env: Env, s: Store, seen: Cache, auth: Auth, r: ChunkRequest, bytes: Text, now: nat)
    requires auth.claims.pathPrefix.Some? || auth.claims.namespacePrefix.Some?
    ensures ChunkStep(env, s, seen, auth, r, bytes, now).reply.Err?
  {
    hide ChunkInvalid, SegmentPrefixMatches, ReplayKey, DenialLogged, Decimal, SmallManifest;
    if ChunkInvalid(s, env.h, r, bytes).None? { ChunkSession(s, env.h, r, bytes); }
  }

  /** So it can never put an object. */
  lemma ScopedTokenPutsNothing(
    env: DistEnv, s: Store, seen: Cache, buckets: set<Text>, locks: map<Text, Lock>, auth: Auth, bucket: Text, key: Text,
    spec: Spec, idempotencyKey: Text, payload: Text, now: nat)
    requires auth.claims.pathPrefix.Some? || auth.claims.namespacePrefix.Some?
    ensures PutObject(env, s, seen, buckets, locks, auth, bucket, key, spec, idempotencyKey, payload, now).reply.Err?
  {
    hide RequireBucket, ObjectKey, ScopeRefusal, ResolveStep, InitStep, CommitStep, ChunkStep, LockRefusal, LockKey,
      ManifestInvalid, SmallManifest, BuildManifest, ManifestCid, Refs, AtomicBindFor, ChunkCiphertext, StorageClass;
    if payload != [] { ChunksExist(payload); }
    forall s: Store, seen: Cache, r: ChunkRequest, bytes: Text
      ensures ChunkStep(env.alpha, s, seen, auth, r, bytes, now).reply.Err?
    {
      ScopedTokenSendsNoChunk(env.alpha, s, seen, auth, r, bytes, now);
    }
  }

  lemma ChunksExist(payload: Text)
    requires payload != []
    ensures Count(|payload|) > 0
  {
  }
}
