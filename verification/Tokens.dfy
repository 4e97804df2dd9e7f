/**
 Token ids over runs of uploads. When every token id belongs to one token, an
 id that has initialised a manifest has also spent the key of its first chunk,
 or can send no chunk at all; so a second upload of that manifest stops there,
 and only first uploads ever commit.
 */
module Tokens {
  import opened Basics
  import opened Paths
  import opened Records
  import opened Chunker
  import opened Namespaces
  import opened Policy
  import opened Service
  import opened ServiceInvariants
  import opened ServiceTheorems
  import opened Distribution
  import opened Uploads
  import opened Objects
  import opened Completeness

  /** Which token an id belongs to. */
  type Owner = Text -> Claims

  predicate Scoped(c: Claims) { c.pathPrefix.Some? || c.namespacePrefix.Some? }

  /** The caller presents the token that its id belongs to; ids hold no bar. */
  predicate OwnToken(auth: Auth, owner: Owner) {
    auth.claims.jti.Some? ==> BAR !in auth.claims.jti.value && owner(auth.claims.jti.value) == auth.claims
  }

  predicate InitSpent(env: Env, replay: Cache, jti: Text, cid: Text) {
    ReplayKey(env.tenant, jti, PutInitOp, cid) in replay
  }

  predicate FirstChunkSpent(env: Env, replay: Cache, jti: Text, cid: Text) {
    ReplayKey(env.tenant, jti, PutChunkOp, ChunkSubject(SessionId(cid), 0)) in replay
  }

  predicate CommitSpent(env: Env, replay: Cache, jti: Text, cid: Text) {
    ReplayKey(env.tenant, jti, PutCommitOp, SessionId(cid)) in replay
  }

  ghost predicate TokensOk(env: Env, replay: Cache, owner: Owner) {
    forall jti, cid :: BAR !in jti ==>
      && (InitSpent(env, replay, jti, cid) ==> Scoped(owner(jti)) || FirstChunkSpent(env, replay, jti, cid))
      && (CommitSpent(env, replay, jti, cid) ==> InitSpent(env, replay, jti, cid))
  }

  // -------------------------------------------------------------- which keys are new

  /** What an upload of this manifest may record; without a manifest, neither init nor commit. */
  predicate MayRecord(op: Operation, subject: Text, cid: Option<Text>) {
    match op
    case PutInitOp => cid == Some(subject)
    case PutCommitOp => cid.Some? && subject == SessionId(cid.value)
    case _ => IsMutation(op)
  }

  ghost predicate NewKeys(env: Env, replay: Cache, replay': Cache, auth: Auth, cid: Option<Text>) {
    forall k :: k in replay' ==>
      k in replay ||
      (auth.claims.jti.Some? &&
       exists op, subject :: MayRecord(op, subject, cid) && k == ReplayKey(env.tenant, auth.claims.jti.value, op, subject))
  }

  lemma NewKeysThen(env: Env, a: Cache, b: Cache, c: Cache, auth: Auth, cid: Option<Text>)
    requires NewKeys(env, a, b, auth, cid) && NewKeys(env, b, c, auth, cid)
    ensures NewKeys(env, a, c, auth, cid)
  {
    hide ReplayKey, MayRecord;
  }

  lemma NoNewKeys(env: Env, a: Cache, auth: Auth, cid: Option<Text>)
    ensures NewKeys(env, a, a, auth, cid)
  {
  }

  lemma AuthorizeKeys(env: Env, s: Store, seen: Cache, auth: Auth, meta: Meta, now: nat, cid: Option<Text>)
    requires meta.tenant == env.tenant && MayRecord(meta.operation, meta.subject, cid)
    ensures NewKeys(env, s.replay, Authorize(s, seen, auth, meta, now).store.replay, auth, cid)
  {
    hide Authorize, ReplayKey, MayRecord;
    AuthorizeReplay(s, seen, auth, meta, now);
  }

  lemma SessionIdInjective(a: Text, b: Text)
    requires SessionId(a) == SessionId(b)
    ensures a == b
  {
    var n := |Ascii("session-")|;
    assert SessionId(a)[n..] == a && SessionId(b)[n..] == b;
  }

  /** A key of an id without a bar that is new belongs to the caller's upload. */
  lemma NewKeyIsOwn(
    env: Env, replay: Cache, replay': Cache, auth: Auth, cid: Option<Text>, jti: Text, op: Operation, subject: Text)
    requires NewKeys(env, replay, replay', auth, cid) && IsMutation(op) && BAR !in jti
    requires auth.claims.jti.Some? ==> BAR !in auth.claims.jti.value
    requires ReplayKey(env.tenant, jti, op, subject) in replay' && ReplayKey(env.tenant, jti, op, subject) !in replay
    ensures auth.claims.jti == Some(jti) && MayRecord(op, subject, cid)
  {
    hide ReplayKey;
    var op', subject' :| MayRecord(op', subject', cid) &&
      ReplayKey(env.tenant, jti, op, subject) == ReplayKey(env.tenant, auth.claims.jti.value, op', subject');
    ReplayKeyInjective(env.tenant, jti, op, subject, auth.claims.jti.value, op', subject');
  }

  /** What an operation must leave behind for the invariant to last. */
  lemma TokensKept(env: Env, replay: Cache, replay': Cache, auth: Auth, cid: Option<Text>, owner: Owner)
    requires TokensOk(env, replay, owner) && OwnToken(auth, owner) && replay.Keys <= replay'.Keys
    requires NewKeys(env, replay, replay', auth, cid)
    requires cid.Some? && auth.claims.jti.Some? && InitSpent(env, replay', auth.claims.jti.value, cid.value) ==>
               Scoped(auth.claims) || FirstChunkSpent(env, replay', auth.claims.jti.value, cid.value)
    requires cid.Some? && auth.claims.jti.Some? && CommitSpent(env, replay', auth.claims.jti.value, cid.value) ==>
               InitSpent(env, replay', auth.claims.jti.value, cid.value)
    ensures TokensOk(env, replay', owner)
  {
    hide ReplayKey, NewKeys, SessionId, ChunkSubject;
    forall jti, c | BAR !in jti
      ensures InitSpent(env, replay', jti, c) ==> Scoped(owner(jti)) || FirstChunkSpent(env, replay', jti, c)
      ensures CommitSpent(env, replay', jti, c) ==> InitSpent(env, replay', jti, c)
    {
      assert InitSpent(env, replay, jti, c) ==> Scoped(owner(jti)) || FirstChunkSpent(env, replay, jti, c);
      assert CommitSpent(env, replay, jti, c) ==> InitSpent(env, replay, jti, c);
      if InitSpent(env, replay', jti, c) && !InitSpent(env, replay, jti, c) {
        NewKeyIsOwn(env, replay, replay', auth, cid, jti, PutInitOp, c);
      }
      if CommitSpent(env, replay', jti, c) && !CommitSpent(env, replay, jti, c) {
        NewKeyIsOwn(env, replay, replay', auth, cid, jti, PutCommitOp, SessionId(c));
        SessionIdInjective(c, cid.value);
      }
    }
  }

  // ------------------------------------------------------------- keys of each step

  lemma BindKeys(env: Env, s: Store, seen: Cache, auth: Auth, r: BindRequest, now: nat, direct: bool, cid: Option<Text>)
    ensures NewKeys(env, s.replay, BindStep(env, s, seen, auth, r, now, direct).store.replay, auth, cid)
  {
    hide Authorize, Canonical, VerifyBind, BindAuthorized, NewKeys;
    NoNewKeys(env, s.replay, auth, cid);
    var where := Canonical(r.namespace, r.path);
    if where.Ok? {
      var (name, path) := where.value;
      var meta := MutationMeta(env, BindOp, name, path, r.idempotencyKey);
      AuthorizeKeys(env, s, seen, auth, meta, now, cid);
      var a := Authorize(s, seen, auth, meta, now);
      var record := VerifyBind(env, r, name, path);
      if record.Ok? && a.reply.Ok? {
        BoundReplay(env, a.store, a.reply.value, r, name, path, record.value, now, direct);
      }
    }
  }

  lemma BoundReplay(
    env: Env, s: Store, verdict: Verdict, r: BindRequest, name: Text, path: Text, record: MutationRecord, now: nat,
    direct: bool)
    ensures BindAuthorized(env, s, verdict, r, name, path, record, now, direct).0.replay == s.replay
  {
    hide BindRefusal, BindApplied, RecordCid, NamespaceOf;
    AppliedReplay(env, s, r, name, path, record, now);
  }

  lemma AppliedReplay(env: Env, s: Store, r: BindRequest, name: Text, path: Text, record: MutationRecord, now: nat)
    ensures BindApplied(env, s, r, name, path, record, now).replay == s.replay
  {
    hide Bind, NamespaceOf, Event;
  }

  lemma UnbindKeys(env: Env, s: Store, seen: Cache, auth: Auth, r: UnbindRequest, now: nat, cid: Option<Text>)
    ensures NewKeys(env, s.replay, UnbindStep(env, s, seen, auth, r, now).store.replay, auth, cid)
  {
    hide Authorize, Canonical, VerifyUnbind, UnbindAuthorized, NewKeys;
    NoNewKeys(env, s.replay, auth, cid);
    var where := Canonical(r.namespace, r.path);
    if where.Ok? {
      var (name, path) := where.value;
      var meta := MutationMeta(env, UnbindOp, name, path, r.idempotencyKey);
      AuthorizeKeys(env, s, seen, auth, meta, now, cid);
      var a := Authorize(s, seen, auth, meta, now);
      var record := VerifyUnbind(env, r, name, path);
      if record.Ok? && a.reply.Ok? {
        UnboundReplay(env, a.store, a.reply.value, r, name, path, record.value, now);
      }
    }
  }

  lemma UnboundReplay(
    env: Env, s: Store, verdict: Verdict, r: UnbindRequest, name: Text, path: Text, record: MutationRecord, now: nat)
    ensures UnbindAuthorized(env, s, verdict, r, name, path, record, now).0.replay == s.replay
  {
    hide UnbindRefusal, Unbind, RecordCid, NamespaceOf, Event;
  }

  lemma InitKeys(env: Env, s: Store, seen: Cache, auth: Auth, r: InitRequest, now: nat)
    ensures NewKeys(env, s.replay, InitStep(env, s, seen, auth, r, now).store.replay, auth,
                    Some(ManifestCid(env.h, r.manifest)))
  {
    hide Authorize, InitInvalid, ManifestCid, SessionId, Missing, NewKeys, SmallManifest;
    NoNewKeys(env, s.replay, auth, Some(ManifestCid(env.h, r.manifest)));
    AuthorizeKeys(env, s, seen, auth, InitMeta(env, r), now, Some(ManifestCid(env.h, r.manifest)));
  }

  lemma ChunkKeys(env: Env, s: Store, seen: Cache, auth: Auth, r: ChunkRequest, bytes: Text, now: nat, cid: Option<Text>)
    ensures NewKeys(env, s.replay, ChunkStep(env, s, seen, auth, r, bytes, now).store.replay, auth, cid)
  {
    hide Authorize, ChunkInvalid, NewKeys, Decimal, SmallManifest;
    NoNewKeys(env, s.replay, auth, cid);
    if ChunkInvalid(s, env.h, r, bytes).None? {
      ChunkSession(s, env.h, r, bytes);
      AuthorizeKeys(env, s, seen, auth, ChunkMeta(env, r, s.sessions[r.sessionId], |bytes|), now, cid);
    }
  }

  /** A commit gets to its authorisation only in the session of its own manifest. */
  lemma CommitSession(env: Env, s: Store, r: CommitRequest)
    requires StoreInv(env, s) && r.sessionId in s.sessions && s.sessions[r.sessionId].manifestCid == r.manifestCid
    ensures r.sessionId == SessionId(r.manifestCid)
  {
    hide ChunksOk, ManifestsOk, NamespacesOk, SessionId, ManifestCid;
  }

  lemma CommitKeys(env: Env, s: Store, seen: Cache, auth: Auth, r: CommitRequest, now: nat)
    requires StoreInv(env, s)
    ensures NewKeys(env, s.replay, CommitStep(env, s, seen, auth, r, now).store.replay, auth, Some(r.manifestCid))
  {
    hide Authorize, StoreInv, NewKeys, AllPresent, CommitStored, SmallManifest, SessionId;
    var cid := Some(r.manifestCid);
    NoNewKeys(env, s.replay, auth, cid);
    if r.sessionId in s.sessions && s.sessions[r.sessionId].manifestCid == r.manifestCid {
      CommitSession(env, s, r);
      var session := s.sessions[r.sessionId];
      AuthorizeKeys(env, s, seen, auth, CommitMeta(env, r, session), now, cid);
      var a := Authorize(s, seen, auth, CommitMeta(env, r, session), now);
      CommitStoredKeys(env, a.store, a.seen, auth, r, session, now);
      NewKeysThen(env, s.replay, a.store.replay, CommitStored(env, a.store, a.seen, auth, r, session, now).store.replay,
                  auth, cid);
    }
  }

  lemma CommitStoredKeys(env: Env, s: Store, seen: Cache, auth: Auth, r: CommitRequest, session: Session, now: nat)
    ensures NewKeys(env, s.replay, CommitStored(env, s, seen, auth, r, session, now).store.replay, auth, Some(r.manifestCid))
  {
    hide BindStep, CommitBind, CommitFinished, NewKeys, SmallManifest;
    NoNewKeys(env, s.replay, auth, Some(r.manifestCid));
    var cid := session.manifestCid;
    var stored := s.(manifests := s.manifests[cid := ManifestRecord(session.manifest, cid, cid, session.storageClass, now)]);
    CommitFinishedParts(env, stored, r, session, now);
    if session.atomicBind.Some? {
      var request := CommitBind(session.atomicBind.value, r, cid);
      BindKeys(env, stored, seen, auth, request, now, false, Some(r.manifestCid));
      CommitFinishedParts(env, BindStep(env, stored, seen, auth, request, now, false).store, r, session, now);
    }
  }

  /** The chunk loop: it keeps the store sound, changes no namespace and records chunk keys only. */
  lemma {:induction false} ChunkLoop(
    env: Env, s0: Store, s: Store, seen: Cache, auth: Auth, id: Text, staged: seq<Staged>, i: nat, now: nat,
    cid: Option<Text>)
    requires i <= |staged| && Kept(env, s0, s, seen)
    ensures var t := UploadChunks(env, s, seen, auth, id, staged, i, now);
            && Kept(env, s0, t.store, t.seen) && t.store.namespaces == s.namespaces
            && t.store.manifests == s.manifests && NewKeys(env, s.replay, t.store.replay, auth, cid)
    decreases |staged| - i
  {
    hide ChunkStep, Kept, NewKeys;
    if i == |staged| {
      NoNewKeys(env, s.replay, auth, cid);
    } else {
      var c := staged[i].chunk;
      var r := ChunkRequest(id, c.index, c.cid, c.offset, c.storedLen);
      var t := ChunkStep(env, s, seen, auth, r, staged[i].bytes, now);
      ChunkStepKeeps(env, s0, s, seen, auth, r, staged[i].bytes, now);
      ChunkStepParts(env, s, seen, auth, r, staged[i].bytes, now);
      ChunkKeys(env, s, seen, auth, r, staged[i].bytes, now, cid);
      if t.reply.Ok? {
        ChunkLoop(env, s0, t.store, t.seen, auth, id, staged, i + 1, now, cid);
        var u := UploadChunks(env, t.store, t.seen, auth, id, staged, i + 1, now);
        NewKeysThen(env, s.replay, t.store.replay, u.store.replay, auth, cid);
      }
    }
  }

  // ------------------------------------------------------------------ the first chunk

  lemma AuthorizeRecords(s: Store, seen: Cache, auth: Auth, meta: Meta, now: nat)
    requires Backed(s.replay, seen) && IsMutation(meta.operation) && PolicyDenial(auth, meta, now) == None
    requires auth.claims.jti.Some?
    ensures ReplayKey(meta.tenant, auth.claims.jti.value, meta.operation, meta.subject) in
            Authorize(s, seen, auth, meta, now).store.replay
  {
    hide PolicyDenial, ReplayKey, DenialLogged;
    var key := ReplayKey(meta.tenant, auth.claims.jti.value, meta.operation, meta.subject);
    DenialReplayKept(s.(replay := DurableAfter(seen, s.replay, key, meta.idempotencyKey)), meta, now);
  }

  lemma RefusedRecordsNothing(s: Store, seen: Cache, auth: Auth, meta: Meta, now: nat)
    requires Authorize(s, seen, auth, meta, now).reply.Err?
    ensures Authorize(s, seen, auth, meta, now).store.replay == s.replay
  {
    hide PolicyDenial, ReplayKey, DenialLogged;
    DenialReplayKept(s, meta, now);
  }

  /** A token without a prefix that may initialise an upload may send its chunks. */
  lemma InitAllowsChunk(env: Env, auth: Auth, r: InitRequest, c: ChunkRequest, session: Session, size: nat, now: nat)
    requires PolicyDenial(auth, InitMeta(env, r), now) == None && !Scoped(auth.claims)
    requires session.manifest == r.manifest && session.storageClass == r.storageClass
    requires r.manifest.encryption.keyPolicyId == r.keyPolicyId && size <= r.manifest.storedSize
    ensures PolicyDenial(auth, ChunkMeta(env, c, session, size), now) == None
  {
    hide SegmentPrefixMatches, ManifestCid, SmallManifest, Decimal;
    var i :| 0 <= i < |auth.claims.ops| && ScopeAllows(auth.claims.ops[i], PutInitOp);
    assert ScopeAllows(auth.claims.ops[i], PutChunkOp);
  }

  /** Right after a fresh init, the first chunk is in order. */
  lemma FirstAccepted(env: Env, s: Store, cid: Text, m: WireManifest, bind: AtomicBind, data: Text)
    requires SessionIs(s, cid, m, bind) && m.chunkRefs == Refs(ChunkCiphertext(env.h, data)) && data != []
    ensures Count(|data|) > 0
    ensures var c := ChunkCiphertext(env.h, data)[0];
            && c.chunk.index == 0 && |c.bytes| <= |data|
            && ChunkInvalid(s, env.h, ChunkRequest(SessionId(cid), 0, c.chunk.cid, c.chunk.offset, c.chunk.storedLen),
                            c.bytes) == None
  {
    hide SessionId, SmallManifest;
    FirstRef(env.h, data);
    hide ChunkCiphertext, Refs, Count, Slice;
  }

  lemma FirstRef(h: Hash, data: Text)
    requires data != []
    ensures Count(|data|) > 0
    ensures var c := ChunkCiphertext(h, data)[0];
            && c == Staged(FixedChunkRef(h, 0, 0, c.bytes), c.bytes) && |c.bytes| <= Min(|data|, SIZE)
            && FindRef(Refs(ChunkCiphertext(h, data)), 0) == Some(c.chunk)
  {
    hide Slice;
    assert 0 % U32 == 0;
  }

  lemma FreshSession(env: Env, s: Store, seen: Cache, auth: Auth, r: InitRequest, now: nat)
    requires Backed(s.replay, seen) && InitStep(env, s, seen, auth, r, now).reply.Ok?
    requires auth.claims.jti.Some? ==> !InitSpent(env, s.replay, auth.claims.jti.value, ManifestCid(env.h, r.manifest))
    ensures auth.claims.jti.Some? && InitInvalid(env, r) == None && PolicyDenial(auth, InitMeta(env, r), now) == None
    ensures var cid := ManifestCid(env.h, r.manifest);
            var t := InitStep(env, s, seen, auth, r, now);
            && t.reply.value.sessionId == SessionId(cid) && SessionId(cid) in t.store.sessions
            && t.store.sessions[SessionId(cid)] == Session(r.manifest, cid, r.storageClass, r.atomicBind, {}, false)
            && InitSpent(env, t.store.replay, auth.claims.jti.value, cid)
  {
    hide Authorize, InitInvalid, ManifestCid, SessionId, Missing, ReplayKey, SmallManifest, PolicyDenial;
    AuthorizeVerdict(s, seen, auth, InitMeta(env, r), now);
    AuthorizeIff(s, seen, auth, InitMeta(env, r), now);
  }

  /** After a fresh init the first chunk spends its key, unless the token is scoped. */
  lemma FirstChunkSpends(
    env: Env, s: Store, seen: Cache, auth: Auth, r: InitRequest, bind: AtomicBind, data: Text, now: nat)
    requires StoreInv(env, s) && Backed(s.replay, seen) && InitStep(env, s, seen, auth, r, now).reply.Ok?
    requires auth.claims.jti.Some? ==> !InitSpent(env, s.replay, auth.claims.jti.value, ManifestCid(env.h, r.manifest))
    requires r.manifest.chunkRefs == Refs(ChunkCiphertext(env.h, data)) && data != [] && r.manifest.storedSize == |data|
    requires r.atomicBind == Some(bind)
    ensures auth.claims.jti.Some? && Count(|data|) > 0
    ensures var cid := ManifestCid(env.h, r.manifest);
            var init := InitStep(env, s, seen, auth, r, now);
            var c := ChunkCiphertext(env.h, data)[0];
            var t := ChunkStep(env, init.store, init.seen, auth,
                               ChunkRequest(SessionId(cid), c.chunk.index, c.chunk.cid, c.chunk.offset, c.chunk.storedLen),
                               c.bytes, now);
            Scoped(auth.claims) || FirstChunkSpent(env, t.store.replay, auth.claims.jti.value, cid)
  {
    hide InitStep, Authorize, InitInvalid, ManifestCid, SessionId, ReplayKey, SmallManifest, PolicyDenial, StoreInv, Backed,
      ChunkCiphertext, Refs, Count, ChunkInvalid, Scoped, Kept, Decimal;
    var cid := ManifestCid(env.h, r.manifest);
    var init := InitStep(env, s, seen, auth, r, now);
    FreshSession(env, s, seen, auth, r, now);
    KeptStart(env, s, seen);
    InitStepKeeps(env, s, s, seen, auth, r, now);
    KeptBacked(env, s, init.store, init.seen);
    FirstAccepted(env, init.store, cid, r.manifest, bind, data);
    if !Scoped(auth.claims) {
      var c := ChunkCiphertext(env.h, data)[0];
      var q := ChunkRequest(SessionId(cid), c.chunk.index, c.chunk.cid, c.chunk.offset, c.chunk.storedLen);
      var session := init.store.sessions[SessionId(cid)];
      assert r.manifest.encryption.keyPolicyId == r.keyPolicyId by { InitPolicyId(env, r); }
      InitAllowsChunk(env, auth, r, q, session, |c.bytes|, now);
      AuthorizeRecords(init.store, init.seen, auth, ChunkMeta(env, q, session, |c.bytes|), now);
    }
  }

  lemma InitPolicyId(env: Env, r: InitRequest)
    requires InitInvalid(env, r) == None
    ensures r.manifest.encryption.keyPolicyId == r.keyPolicyId
  {
    hide ManifestInvalid, SmallManifest;
  }

  // ---------------------------------------------------------------------- the upload

  /** What an upload sends, as a value. */
  predicate Sends(env: Env, m: WireManifest, data: Text) {
    m.chunkRefs == Refs(ChunkCiphertext(env.h, data)) && m.storedSize == |data| > 0
  }

  function UploadInit(m: WireManifest, spec: Spec, bind: AtomicBind, initKey: Text): InitRequest {
    InitRequest(m, initKey, spec.profileId, spec.keyPolicyId, spec.visibility, StorageClass(spec), Some(bind))
  }

  /** Whatever the upload does, its keys are its own and the records only grow. */
  lemma UploadKeys(
    env: Env, s: Store, seen: Cache, auth: Auth, m: WireManifest, spec: Spec, bind: AtomicBind, staged: seq<Staged>,
    initKey: Text, commitKey: Text, now: nat)
    requires StoreInv(env, s) && Backed(s.replay, seen)
    ensures var t := Upload(env, s, seen, auth, m, spec, bind, staged, initKey, commitKey, now);
            && NewKeys(env, s.replay, t.store.replay, auth, Some(ManifestCid(env.h, m)))
            && Kept(env, s, t.store, t.seen)
  {
    hide InitStep, UploadChunks, CommitStep, ManifestCid, StoreInv, Backed, Kept, NewKeys, StorageClass, SmallManifest;
    var cid := ManifestCid(env.h, m);
    var q := UploadInit(m, spec, bind, initKey);
    KeptStart(env, s, seen);
    InitStepKeeps(env, s, s, seen, auth, q, now);
    InitKeys(env, s, seen, auth, q, now);
    var init := InitStep(env, s, seen, auth, q, now);
    if init.reply.Ok? {
      var id := init.reply.value.sessionId;
      ChunkLoop(env, s, init.store, init.seen, auth, id, staged, 0, now, Some(cid));
      var up := UploadChunks(env, init.store, init.seen, auth, id, staged, 0, now);
      NewKeysThen(env, s.replay, init.store.replay, up.store.replay, auth, Some(cid));
      KeptBacked(env, s, up.store, up.seen);
      var r := CommitRequest(id, cid, commitKey);
      CommitKeys(env, up.store, up.seen, auth, r, now);
      CommitStepKeeps(env, s, up.store, up.seen, auth, r, now);
      NewKeysThen(env, s.replay, up.store.replay, CommitStep(env, up.store, up.seen, auth, r, now).store.replay, auth,
                  Some(cid));
    }
  }

  lemma KeptKeys(env: Env, s: Store, s': Store, seen: Cache)
    requires Kept(env, s, s', seen)
    ensures s.replay.Keys <= s'.replay.Keys
  {
    hide StoreInv, JournalsGrow;
  }

  /** Past a fresh init the first chunk's key is spent for good. */
  lemma LoopSpends(
    env: Env, s: Store, seen: Cache, auth: Auth, r: InitRequest, bind: AtomicBind, data: Text, now: nat)
    requires StoreInv(env, s) && Backed(s.replay, seen) && InitStep(env, s, seen, auth, r, now).reply.Ok?
    requires auth.claims.jti.Some? ==> !InitSpent(env, s.replay, auth.claims.jti.value, ManifestCid(env.h, r.manifest))
    requires Sends(env, r.manifest, data) && r.atomicBind == Some(bind)
    ensures var init := InitStep(env, s, seen, auth, r, now);
            var up := UploadChunks(env, init.store, init.seen, auth, init.reply.value.sessionId,
                                   ChunkCiphertext(env.h, data), 0, now);
            && auth.claims.jti.Some?
            && (Scoped(auth.claims) ||
                FirstChunkSpent(env, up.store.replay, auth.claims.jti.value, ManifestCid(env.h, r.manifest)))
  {
    hide InitStep, ManifestCid, StoreInv, Backed, Kept, NewKeys, SmallManifest, ChunkStep, ChunkCiphertext, Refs, Scoped,
      SessionId, ReplayKey, InitInvalid, PolicyDenial, Count;
    FreshSession(env, s, seen, auth, r, now);
    FirstChunkSpends(env, s, seen, auth, r, bind, data, now);
    var init := InitStep(env, s, seen, auth, r, now);
    KeptStart(env, s, seen);
    InitStepKeeps(env, s, s, seen, auth, r, now);
    var staged := ChunkCiphertext(env.h, data);
    var id, c := init.reply.value.sessionId, staged[0].chunk;
    var q := ChunkRequest(id, c.index, c.cid, c.offset, c.storedLen);
    ChunkStepKeeps(env, s, init.store, init.seen, auth, q, staged[0].bytes, now);
    var t := ChunkStep(env, init.store, init.seen, auth, q, staged[0].bytes, now);
    KeptBacked(env, s, t.store, t.seen);
    KeptStart(env, t.store, t.seen);
    if t.reply.Ok? {
      ChunkLoop(env, t.store, t.store, t.seen, auth, id, staged, 1, now, None);
      var up := UploadChunks(env, t.store, t.seen, auth, id, staged, 1, now);
      KeptKeys(env, t.store, up.store, up.seen);
    }
  }

  /** A first upload of its manifest leaves the invariant. */
  lemma FirstUploadKeepsTokens(
    env: Env, s: Store, seen: Cache, auth: Auth, m: WireManifest, spec: Spec, bind: AtomicBind, data: Text,
    initKey: Text, commitKey: Text, now: nat, owner: Owner)
    requires StoreInv(env, s) && Backed(s.replay, seen) && TokensOk(env, s.replay, owner) && OwnToken(auth, owner)
    requires Sends(env, m, data)
    requires auth.claims.jti.Some? ==> !InitSpent(env, s.replay, auth.claims.jti.value, ManifestCid(env.h, m))
    ensures TokensOk(env, Upload(env, s, seen, auth, m, spec, bind, ChunkCiphertext(env.h, data), initKey, commitKey,
                                 now).store.replay, owner)
  {
    hide InitStep, UploadChunks, CommitStep, ManifestCid, StoreInv, Backed, Kept, NewKeys, StorageClass, SmallManifest,
      ChunkCiphertext, Sends, InitSpent, FirstChunkSpent, CommitSpent, Scoped, TokensOk, InitInvalid, PolicyDenial;
    var cid := ManifestCid(env.h, m);
    var staged := ChunkCiphertext(env.h, data);
    var q := UploadInit(m, spec, bind, initKey);
    var t := Upload(env, s, seen, auth, m, spec, bind, staged, initKey, commitKey, now);
    UploadKeys(env, s, seen, auth, m, spec, bind, staged, initKey, commitKey, now);
    KeptKeys(env, s, t.store, t.seen);
    var init := InitStep(env, s, seen, auth, q, now);
    if init.reply.Err? {
      InitRefused(env, s, seen, auth, q, now);
    } else {
      FreshSession(env, s, seen, auth, q, now);
      LoopSpends(env, s, seen, auth, q, bind, data, now);
      var id := init.reply.value.sessionId;
      KeptStart(env, s, seen);
      InitStepKeeps(env, s, s, seen, auth, q, now);
      KeptBacked(env, s, init.store, init.seen);
      KeptStart(env, init.store, init.seen);
      ChunkLoop(env, init.store, init.store, init.seen, auth, id, staged, 0, now, Some(cid));
      var up := UploadChunks(env, init.store, init.seen, auth, id, staged, 0, now);
      KeptKeys(env, init.store, up.store, up.seen);
      KeptBacked(env, init.store, up.store, up.seen);
      KeptStart(env, up.store, up.seen);
      CommitStepKeeps(env, up.store, up.store, up.seen, auth, CommitRequest(id, cid, commitKey), now);
      var done := CommitStep(env, up.store, up.seen, auth, CommitRequest(id, cid, commitKey), now);
      KeptKeys(env, up.store, done.store, done.seen);
      SpentStays(env, init.store.replay, up.store.replay, auth.claims.jti.value, cid);
      SpentStays(env, up.store.replay, done.store.replay, auth.claims.jti.value, cid);
    }
    if auth.claims.jti.Some? { TokensOfCaller(env, s.replay, auth, cid, owner); }
    TokensKept(env, s.replay, t.store.replay, auth, Some(cid), owner);
  }

  /** In the state before, the caller's id satisfies the invariant too. */
  lemma TokensOfCaller(env: Env, replay: Cache, auth: Auth, cid: Text, owner: Owner)
    requires TokensOk(env, replay, owner) && OwnToken(auth, owner) && auth.claims.jti.Some?
    ensures InitSpent(env, replay, auth.claims.jti.value, cid) ==>
              Scoped(auth.claims) || FirstChunkSpent(env, replay, auth.claims.jti.value, cid)
    ensures CommitSpent(env, replay, auth.claims.jti.value, cid) ==> InitSpent(env, replay, auth.claims.jti.value, cid)
  {
  }

  lemma SpentStays(env: Env, replay: Cache, replay': Cache, jti: Text, cid: Text)
    requires replay.Keys <= replay'.Keys
    ensures InitSpent(env, replay, jti, cid) ==> InitSpent(env, replay', jti, cid)
    ensures FirstChunkSpent(env, replay, jti, cid) ==> FirstChunkSpent(env, replay', jti, cid)
  {
    hide ReplayKey, ChunkSubject, SessionId;
  }

  lemma InitRefused(env: Env, s: Store, seen: Cache, auth: Auth, r: InitRequest, now: nat)
    requires InitStep(env, s, seen, auth, r, now).reply.Err?
    ensures InitStep(env, s, seen, auth, r, now).store.replay == s.replay
  {
    hide Authorize, InitInvalid, ManifestCid, SessionId, Missing, SmallManifest;
    if Authorize(s, seen, auth, InitMeta(env, r), now).reply.Err? {
      RefusedRecordsNothing(s, seen, auth, InitMeta(env, r), now);
    }
  }

  /** A token that has spent the first chunk's key, or is scoped, gets no chunk into the manifest's session. */
  lemma FirstChunkRefused(
    env: Env, s: Store, seen: Cache, auth: Auth, cid: Text, c: ChunkRef, bytes: Text, now: nat)
    requires auth.claims.jti.Some? && c.index == 0
    requires Scoped(auth.claims) || FirstChunkSpent(env, s.replay, auth.claims.jti.value, cid)
    ensures ChunkStep(env, s, seen, auth, ChunkRequest(SessionId(cid), c.index, c.cid, c.offset, c.storedLen), bytes,
                      now).reply.Err?
  {
    hide ChunkInvalid, Authorize, ReplayKey, SmallManifest, PolicyDenial, Decimal, SessionId;
    var r := ChunkRequest(SessionId(cid), c.index, c.cid, c.offset, c.storedLen);
    if Scoped(auth.claims) {
      ScopedTokenSendsNoChunk(env, s, seen, auth, r, bytes, now);
    } else if ChunkInvalid(s, env.h, r, bytes).None? {
      ChunkSession(s, env.h, r, bytes);
      AuthorizeIff(s, seen, auth, ChunkMeta(env, r, s.sessions[r.sessionId], |bytes|), now);
    }
  }

  /** A second upload of a manifest by the token of the same id fails and changes no namespace. */
  lemma SecondUploadFails(
    env: Env, s: Store, seen: Cache, auth: Auth, m: WireManifest, spec: Spec, bind: AtomicBind, data: Text,
    initKey: Text, commitKey: Text, now: nat)
    requires StoreInv(env, s) && Backed(s.replay, seen) && auth.claims.jti.Some?
    requires Sends(env, m, data)
    requires var cid := ManifestCid(env.h, m);
             Scoped(auth.claims) || FirstChunkSpent(env, s.replay, auth.claims.jti.value, cid)
    ensures var t := Upload(env, s, seen, auth, m, spec, bind, ChunkCiphertext(env.h, data), initKey, commitKey, now);
            t.reply.Err? && t.store.namespaces == s.namespaces
  {
    hide InitStep, CommitStep, ManifestCid, StoreInv, Backed, Kept, NewKeys, StorageClass, SmallManifest,
      ChunkCiphertext, InitSpent, FirstChunkSpent, Scoped, SessionId, ChunkStep, UploadChunks, Refs;
    var cid := ManifestCid(env.h, m);
    var staged := ChunkCiphertext(env.h, data);
    var q := UploadInit(m, spec, bind, initKey);
    var init := InitStep(env, s, seen, auth, q, now);
    KeptStart(env, s, seen);
    InitStepKeeps(env, s, s, seen, auth, q, now);
    InitStepParts(env, s, seen, auth, q, now);
    if init.reply.Ok? {
      var id := init.reply.value.sessionId;
      ChunkLoop(env, s, init.store, init.seen, auth, id, staged, 0, now, None);
      var up := UploadChunks(env, init.store, init.seen, auth, id, staged, 0, now);
      KeptBacked(env, s, up.store, up.seen);
      if id == SessionId(cid) {
        KeptKeys(env, s, init.store, init.seen);
        SpentStays(env, s.replay, init.store.replay, auth.claims.jti.value, cid);
        FirstRef(env.h, data);
        FirstChunkRefused(env, init.store, init.seen, auth, cid, staged[0].chunk, staged[0].bytes, now);
        LoopStopsAtFirst(env, init.store, init.seen, auth, id, staged, now);
      } else if up.reply.Ok? {
        OtherSession(env, up.store, up.seen, auth, CommitRequest(id, cid, commitKey), now);
      }
    }
  }

  lemma LoopStopsAtFirst(env: Env, s: Store, seen: Cache, auth: Auth, id: Text, staged: seq<Staged>, now: nat)
    requires staged != []
    requires var c := staged[0].chunk;
             ChunkStep(env, s, seen, auth, ChunkRequest(id, c.index, c.cid, c.offset, c.storedLen), staged[0].bytes,
                       now).reply.Err?
    ensures UploadChunks(env, s, seen, auth, id, staged, 0, now).reply.Err?
  {
    hide ChunkStep;
  }

  /** A commit that names another manifest's session fails at once. */
  lemma OtherSession(env: Env, s: Store, seen: Cache, auth: Auth, r: CommitRequest, now: nat)
    requires StoreInv(env, s) && r.sessionId != SessionId(r.manifestCid)
    ensures var t := CommitStep(env, s, seen, auth, r, now); t.reply.Err? && t.store == s
  {
    hide StoreInv, Authorize, AllPresent, CommitStored, SmallManifest;
    if r.sessionId in s.sessions && s.sessions[r.sessionId].manifestCid == r.manifestCid { CommitSession(env, s, r); }
  }

  // ------------------------------------------------------------------- storing objects

  /** The caller's token id has not initialised the manifest of this payload. */
  predicate FirstTime(env: Env, s: Store, auth: Auth, m: Manifest) {
    SmallManifest(m) && auth.claims.jti.Some? ==>
      !InitSpent(env, s.replay, auth.claims.jti.value, ManifestCid(env.h, m))
  }

  /** Storing an object keeps the invariant; when it is not the first time it fails and changes no namespace. */
  lemma StoreKeepsTokens(
    env: DistEnv, s: Store, seen: Cache, locks: map<Text, Lock>, auth: Auth, bucket: Text, key: Text, spec: Spec,
    payload: Text, initKey: Text, commitKey: Text, now: nat, owner: Owner)
    requires StoreInv(env.alpha, s) && Backed(s.replay, seen) && TokensOk(env.alpha, s.replay, owner)
    requires OwnToken(auth, owner) && payload != []
    ensures var t := StoreObject(env, s, seen, locks, auth, bucket, key, spec, ChunkCiphertext(env.alpha.h, payload),
                                 |payload|, initKey, commitKey, now);
            && Kept(env.alpha, s, t.store, t.seen) && TokensOk(env.alpha, t.store.replay, owner)
            && (!FirstTime(env.alpha, s, auth, PayloadManifest(env.alpha, payload, spec, now)) ==>
                  t.reply.Err? && t.store.namespaces == s.namespaces)
  {
    hide Kept, ResolveStep, BuildManifest, Upload, ManifestCid, SmallManifest, ManifestInvalid, AtomicBindFor, LockRefusal,
      LockKey, StoreInv, Backed, TokensOk, InitSpent, FirstChunkSpent, CommitSpent, ChunkCiphertext, Refs, Quiet, Scoped,
      Canonical, NewKeys;
    KeptStart(env.alpha, s, seen);
    ResolveStepKeeps(env.alpha, s, s, seen, auth, bucket, key, None, None, now);
    ResolveReplay(env.alpha, s, seen, auth, bucket, key, None, None, now);
    var e := ResolveStep(env.alpha, s, seen, auth, bucket, key, None, None, now);
    QuietParts(s, e.store);
    KeptBacked(env.alpha, s, e.store, e.seen);
    var m := PayloadManifest(env.alpha, payload, spec, now);
    PayloadManifestParts(env.alpha, payload, spec, now);
    PayloadStored(env.alpha, payload, spec, now);
    if SmallManifest(m) {
      var cid := ManifestCid(env.alpha.h, m);
      var bind := AtomicBindFor(env, bucket, key, cid, RevisionOf(Existing(e)), spec.serverMetadata, now);
      UploadTokens(env.alpha, e.store, e.seen, auth, m, spec, bind, payload, initKey, commitKey, now, owner);
      var u := Upload(env.alpha, e.store, e.seen, auth, m, spec, bind, ChunkCiphertext(env.alpha.h, payload), initKey,
                      commitKey, now);
      KeptThen(env.alpha, s, e.store, e.seen, u.store, u.seen);
    }
  }

  lemma KeptThen(env: Env, a: Store, b: Store, seen: Cache, c: Store, seen': Cache)
    requires Kept(env, a, b, seen) && Kept(env, b, c, seen')
    ensures Kept(env, a, c, seen')
  {
    hide StoreInv, Backed, Evolves;
    EvolvesTransitive(a, b, c);
  }

  /** An operation that neither initialises nor commits keeps the invariant by its keys alone. */
  lemma OtherKeepsTokens(env: Env, s: Store, s': Store, seen': Cache, auth: Auth, owner: Owner)
    requires TokensOk(env, s.replay, owner) && OwnToken(auth, owner) && Kept(env, s, s', seen')
    requires NewKeys(env, s.replay, s'.replay, auth, None)
    ensures TokensOk(env, s'.replay, owner)
  {
    hide TokensOk, Kept, NewKeys, OwnToken;
    KeptKeys(env, s, s', seen');
    TokensKept(env, s.replay, s'.replay, auth, None, owner);
  }

  lemma PayloadStored(env: Env, payload: Text, spec: Spec, now: nat)
    ensures PayloadManifest(env, payload, spec, now).storedSize == |payload|
  {
    hide ChunkCiphertext, Refs;
  }

  lemma UploadTokens(
    env: Env, s: Store, seen: Cache, auth: Auth, m: WireManifest, spec: Spec, bind: AtomicBind, data: Text,
    initKey: Text, commitKey: Text, now: nat, owner: Owner)
    requires StoreInv(env, s) && Backed(s.replay, seen) && TokensOk(env, s.replay, owner) && OwnToken(auth, owner)
    requires Sends(env, m, data)
    ensures var t := Upload(env, s, seen, auth, m, spec, bind, ChunkCiphertext(env.h, data), initKey, commitKey, now);
            && Kept(env, s, t.store, t.seen) && TokensOk(env, t.store.replay, owner)
            && (!FirstTime(env, s, auth, m) ==> t.reply.Err? && t.store.namespaces == s.namespaces)
  {
    hide Upload, ManifestCid, SmallManifest, StoreInv, Backed, TokensOk, InitSpent, FirstChunkSpent, CommitSpent, Kept,
      ChunkCiphertext, Refs, NewKeys, Sends, Scoped;
    var cid := ManifestCid(env.h, m);
    UploadKeys(env, s, seen, auth, m, spec, bind, ChunkCiphertext(env.h, data), initKey, commitKey, now);
    if FirstTime(env, s, auth, m) {
      FirstUploadKeepsTokens(env, s, seen, auth, m, spec, bind, data, initKey, commitKey, now, owner);
    } else {
      TokensOfCaller(env, s.replay, auth, cid, owner);
      SecondUploadFails(env, s, seen, auth, m, spec, bind, data, initKey, commitKey, now);
      var t := Upload(env, s, seen, auth, m, spec, bind, ChunkCiphertext(env.h, data), initKey, commitKey, now);
      KeptKeys(env, s, t.store, t.seen);
      SpentStays(env, s.replay, t.store.replay, auth.claims.jti.value, cid);
      TokensKept(env, s.replay, t.store.replay, auth, Some(cid), owner);
    }
  }
}
