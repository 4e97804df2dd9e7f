/**
 An upload from end to end: what it may change, that every chunk it sends is
 accepted, and that what it stored is what is read back.
 */
module Uploads {
  import opened Basics
  import opened Records
  import opened Chunker
  import opened Reading
  import opened Namespaces
  import opened Policy
  import opened Service
  import opened ServiceInvariants
  import opened ServiceTheorems
  import opened Distribution

  // ------------------------------------------------------- the session of an upload

  /** The token id has not been used before to initialise this manifest. */
  predicate FreshInit(env: Env, s: Store, auth: Auth, cid: Text) {
    auth.claims.jti.Some? ==> ReplayKey(env.tenant, auth.claims.jti.value, PutInitOp, cid) !in s.replay
  }

  /** Nor, within its session, to commit it. */
  predicate FreshCommit(env: Env, s: Store, auth: Auth, cid: Text) {
    auth.claims.jti.Some? ==> ReplayKey(env.tenant, auth.claims.jti.value, PutCommitOp, SessionId(cid)) !in s.replay
  }

  ghost predicate SessionIs(s: Store, cid: Text, m: WireManifest, bind: AtomicBind) {
    && SessionId(cid) in s.sessions
    && var session := s.sessions[SessionId(cid)];
    && session.manifest == m && session.manifestCid == cid && session.atomicBind == Some(bind) && !session.committed
  }

  lemma InitFresh(env: Env, s: Store, seen: Cache, auth: Auth, r: InitRequest, now: nat, bind: AtomicBind)
    requires Backed(s.replay, seen) && FreshInit(env, s, auth, ManifestCid(env.h, r.manifest))
    requires r.atomicBind == Some(bind) && InitStep(env, s, seen, auth, r, now).reply.Ok?
    ensures var t := InitStep(env, s, seen, auth, r, now);
            var cid := ManifestCid(env.h, r.manifest);
            t.reply.value.sessionId == SessionId(cid) && SessionIs(t.store, cid, r.manifest, bind)
  {
    hide Authorize, InitInvalid, ManifestCid, SessionId, Missing, ReplayKey;
    AuthorizeVerdict(s, seen, auth, InitMeta(env, r), now);
  }

  lemma ChunkKeepsSession(
    env: Env, s: Store, seen: Cache, auth: Auth, r: ChunkRequest, bytes: Text, now: nat, cid: Text, m: WireManifest,
    bind: AtomicBind)
    requires SessionIs(s, cid, m, bind)
    ensures SessionIs(ChunkStep(env, s, seen, auth, r, bytes, now).store, cid, m, bind)
  {
    hide Authorize, ChunkInvalid, ChunkMeta, SessionId, Quiet, SmallManifest;
    if ChunkInvalid(s, env.h, r, bytes).None? {
      ChunkSession(s, env.h, r, bytes);
      var meta := ChunkMeta(env, r, s.sessions[r.sessionId], |bytes|);
      AuthorizeQuiet(s, seen, auth, meta, now);
      QuietParts(s, Authorize(s, seen, auth, meta, now).store);
    }
  }

  lemma {:induction false} UploadKeepsSession(
    env: Env, s0: Store, s: Store, seen: Cache, auth: Auth, id: Text, staged: seq<Staged>, i: nat, now: nat, cid: Text,
    m: WireManifest, bind: AtomicBind)
    requires i <= |staged| && SessionIs(s, cid, m, bind) && Kept(env, s0, s, seen)
    ensures var t := UploadChunks(env, s, seen, auth, id, staged, i, now);
            && SessionIs(t.store, cid, m, bind) && Kept(env, s0, t.store, t.seen)
            && t.store.namespaces == s.namespaces && t.store.manifests == s.manifests
            && t.store.bindReplies == s.bindReplies
    decreases |staged| - i
  {
    hide SessionIs, ChunkStep, Kept;
    if i < |staged| {
      var c := staged[i].chunk;
      var r := ChunkRequest(id, c.index, c.cid, c.offset, c.storedLen);
      var t := ChunkStep(env, s, seen, auth, r, staged[i].bytes, now);
      ChunkKeepsSession(env, s, seen, auth, r, staged[i].bytes, now, cid, m, bind);
      ChunkStepKeeps(env, s0, s, seen, auth, r, staged[i].bytes, now);
      ChunkStepParts(env, s, seen, auth, r, staged[i].bytes, now);
      if t.reply.Ok? {
        UploadKeepsSession(env, s0, t.store, t.seen, auth, id, staged, i + 1, now, cid, m, bind);
      }
    }
  }

  /** The operation names keep apart the replay keys of one token. */
  lemma CommitKeyDiffers(tenant: Text, jti: Text, op: Operation, subject: Text, session: Text)
    requires op == PutInitOp || op == PutChunkOp
    ensures ReplayKey(tenant, jti, op, subject) != ReplayKey(tenant, jti, PutCommitOp, session)
  {
    var a, b := ReplayKey(tenant, jti, op, subject), ReplayKey(tenant, jti, PutCommitOp, session);
    var n := |tenant| + 1 + |jti| + 1;
    var k := if op == PutInitOp then 4 else 5;
    assert a[n + k] == OperationName(op)[k];
    assert b[n + k] == OperationName(PutCommitOp)[k];
    assert Ascii("PUT_INIT")[4] == 73 && Ascii("PUT_CHUNK")[5] == 72;
    assert Ascii("PUT_COMMIT")[4] == 67 && Ascii("PUT_COMMIT")[5] == 79;
  }

  lemma AuthorizeLeavesCommitFresh(env: Env, s: Store, seen: Cache, auth: Auth, meta: Meta, now: nat, cid: Text)
    requires FreshCommit(env, s, auth, cid) && meta.tenant == env.tenant
    requires meta.operation == PutInitOp || meta.operation == PutChunkOp
    ensures FreshCommit(env, Authorize(s, seen, auth, meta, now).store, auth, cid)
  {
    hide Authorize, ReplayKey, SessionId;
    AuthorizeReplay(s, seen, auth, meta, now);
    if auth.claims.jti.Some? {
      CommitKeyDiffers(env.tenant, auth.claims.jti.value, meta.operation, meta.subject, SessionId(cid));
    }
  }

  /** An authorisation records no replay key but its own. */
  lemma AuthorizeReplay(s: Store, seen: Cache, auth: Auth, meta: Meta, now: nat)
    ensures var replay := Authorize(s, seen, auth, meta, now).store.replay;
            forall k :: k in replay ==>
              k in s.replay ||
              (auth.claims.jti.Some? && k == ReplayKey(meta.tenant, auth.claims.jti.value, meta.operation, meta.subject))
  {
    hide PolicyDenial, ReplayKey, DurableVerdict, DurableAfter, CacheAfter, IsMutation, DenialLogged;
    DenialReplay(s, meta, now);
    if auth.claims.jti.Some? {
      var key := ReplayKey(meta.tenant, auth.claims.jti.value, meta.operation, meta.subject);
      var s' := s.(replay := DurableAfter(seen, s.replay, key, meta.idempotencyKey));
      DenialReplay(s', meta, now);
      DurableKeys(seen, s.replay, key, meta.idempotencyKey);
    }
  }

  lemma DenialReplay(s: Store, meta: Meta, now: nat)
    ensures DenialLogged(s, meta, now).replay == s.replay
  {
  }

  lemma DurableKeys(seen: Cache, replay: Cache, key: Text, idem: Option<Text>)
    ensures forall k :: k in DurableAfter(seen, replay, key, idem) ==> k in replay || k == key
  {
  }

  lemma InitLeavesCommitFresh(env: Env, s: Store, seen: Cache, auth: Auth, r: InitRequest, now: nat, cid: Text)
    requires FreshCommit(env, s, auth, cid)
    ensures FreshCommit(env, InitStep(env, s, seen, auth, r, now).store, auth, cid)
  {
    AuthorizeLeavesCommitFresh(env, s, seen, auth, InitMeta(env, r), now, cid);
    hide Authorize, InitInvalid, ManifestCid, SessionId, Missing, InitMeta, ReplayKey;
  }

  lemma {:induction false} ChunksLeaveCommitFresh(
    env: Env, s: Store, seen: Cache, auth: Auth, id: Text, staged: seq<Staged>, i: nat, now: nat, cid: Text)
    requires i <= |staged| && FreshCommit(env, s, auth, cid)
    ensures FreshCommit(env, UploadChunks(env, s, seen, auth, id, staged, i, now).store, auth, cid)
    decreases |staged| - i
  {
    if i < |staged| {
      var c := staged[i].chunk;
      var r := ChunkRequest(id, c.index, c.cid, c.offset, c.storedLen);
      ChunkLeavesCommitFresh(env, s, seen, auth, r, staged[i].bytes, now, cid);
      hide ChunkStep, FreshCommit;
      var t := ChunkStep(env, s, seen, auth, r, staged[i].bytes, now);
      if t.reply.Ok? { ChunksLeaveCommitFresh(env, t.store, t.seen, auth, id, staged, i + 1, now, cid); }
    }
  }

  lemma ChunkLeavesCommitFresh(
    env: Env, s: Store, seen: Cache, auth: Auth, r: ChunkRequest, bytes: Text, now: nat, cid: Text)
    requires FreshCommit(env, s, auth, cid)
    ensures FreshCommit(env, ChunkStep(env, s, seen, auth, r, bytes, now).store, auth, cid)
  {
    if ChunkInvalid(s, env.h, r, bytes).None? {
      ChunkSession(s, env.h, r, bytes);
      AuthorizeLeavesCommitFresh(env, s, seen, auth, ChunkMeta(env, r, s.sessions[r.sessionId], |bytes|), now, cid);
    }
    hide Authorize, ChunkInvalid, ChunkMeta, ReplayKey, SessionId;
  }

  /** A commit with a fresh token that succeeds has stored its manifest. */
  lemma FreshCommitStores(
    env: Env, s: Store, seen: Cache, auth: Auth, r: CommitRequest, now: nat, cid: Text, m: WireManifest, bind: AtomicBind)
    requires Backed(s.replay, seen) && FreshCommit(env, s, auth, cid) && SessionIs(s, cid, m, bind)
    requires r.sessionId == SessionId(cid) && CommitStep(env, s, seen, auth, r, now).reply.Ok?
    ensures CommitStores(env, s, seen, auth, r, now)
  {
    hide Authorize, AllPresent, CommitStored, ReplayKey, SessionId, Permitted, VerdictFor, Quiet;
    var session := s.sessions[r.sessionId];
    var meta := CommitMeta(env, r, session);
    AuthorizeIff(s, seen, auth, meta, now);
    AuthorizeQuiet(s, seen, auth, meta, now);
    QuietReplies(s, Authorize(s, seen, auth, meta, now).store);
    if session.manifestCid == r.manifestCid && Authorize(s, seen, auth, meta, now).reply.Ok? {
      AuthorizeVerdict(s, seen, auth, meta, now);
    }
  }

  // -------------------------------------------- what an upload can do to namespaces

  /** A commit of a session with a bind leaves the namespaces alone or applies exactly that bind. */
  lemma CommitShape(
    env: Env, s: Store, seen: Cache, auth: Auth, r: CommitRequest, now: nat, cid: Text, m: WireManifest, bind: AtomicBind)
    returns (mid: Store)
    requires SessionIs(s, cid, m, bind) && r.sessionId == SessionId(cid)
    ensures var t := CommitStep(env, s, seen, auth, r, now);
            && mid.namespaces == s.namespaces
            && (t.store.namespaces == s.namespaces ||
                (t.reply.Ok? && BindHappened(env, mid, CommitBind(bind, r, cid), t.store)))
            && (CommitStores(env, s, seen, auth, r, now) && t.reply.Ok? ==>
                  && BindHappened(env, mid, CommitBind(bind, r, cid), t.store)
                  && cid in t.store.manifests && t.store.manifests[cid].manifest == m
                  && t.reply.value.objectCid == cid)
  {
    hide Authorize, BindFails, AllPresent, CommitStored, CommitMeta, Quiet, CommitStep, RollsBack, BindHappened, SessionId;
    mid := s;
    if CommitStores(env, s, seen, auth, r, now) {
      CommitStepStores(env, s, seen, auth, r, now);
      var session := s.sessions[r.sessionId];
      var meta := CommitMeta(env, r, session);
      AuthorizeQuiet(s, seen, auth, meta, now);
      var a := Authorize(s, seen, auth, meta, now);
      QuietParts(s, a.store);
      mid := CommitStoredShape(env, a.store, a.seen, auth, r, session, now, bind);
    } else {
      CommitStepStoresNothing(env, s, seen, auth, r, now);
      QuietParts(s, CommitStep(env, s, seen, auth, r, now).store);
    }
  }

  lemma CommitStoredShape(
    env: Env, s: Store, seen: Cache, auth: Auth, r: CommitRequest, session: Session, now: nat, bind: AtomicBind)
    returns (mid: Store)
    requires session.atomicBind == Some(bind)
    ensures var t := CommitStored(env, s, seen, auth, r, session, now);
            var cid := session.manifestCid;
            && mid.namespaces == s.namespaces
            && (t.reply.Ok? ==>
                  && BindHappened(env, mid, CommitBind(bind, r, cid), t.store)
                  && cid in t.store.manifests && t.store.manifests[cid].manifest == session.manifest
                  && t.reply.value.objectCid == cid)
            && (t.reply.Err? ==> t.store.namespaces == s.namespaces)
  {
    hide BindStep, CommitBind, BindHappened, CommitFinished;
    var cid := session.manifestCid;
    var record := ManifestRecord(session.manifest, cid, cid, session.storageClass, now);
    mid := s.(manifests := s.manifests[cid := record]);
    var request := CommitBind(bind, r, cid);
    BindStepShape(env, mid, seen, auth, request, now, false);
    var b := BindStep(env, mid, seen, auth, request, now, false);
    CommitFinishedParts(env, b.store, r, session, now);
    HappenedSame(env, mid, request, b.store, CommitFinished(env, b.store, r, session, now));
  }

  lemma HappenedSame(env: Env, s: Store, r: BindRequest, s1: Store, s2: Store)
    requires s1.namespaces == s2.namespaces
    ensures BindHappened(env, s, r, s1) <==> BindHappened(env, s, r, s2)
  {
    hide Canonical, VerifyBind, BindRefusal, Bind;
  }

  /** The bind that an upload's commit asks for. */
  function UploadBind(env: Env, m: WireManifest, bind: AtomicBind, commitKey: Text): BindRequest {
    var cid := ManifestCid(env.h, m);
    CommitBind(bind, CommitRequest(SessionId(cid), cid, commitKey), cid)
  }

  /** The manifest is stored and bound, and the reply names it. */
  ghost predicate StoredAndBound(env: Env, mid: Store, r: BindRequest, m: WireManifest, t: Step<PutReply>) {
    var cid := ManifestCid(env.h, m);
    && BindHappened(env, mid, r, t.store)
    && cid in t.store.manifests && t.store.manifests[cid].manifest == m
    && t.reply.Ok? && t.reply.value.objectCid == cid
  }

  function AfterInit(
    env: Env, s: Store, seen: Cache, auth: Auth, m: WireManifest, staged: seq<Staged>, commitKey: Text, now: nat)
    : Step<PutReply>
  {
    var cid := ManifestCid(env.h, m);
    var id := SessionId(cid);
    var up := UploadChunks(env, s, seen, auth, id, staged, 0, now);
    if up.reply.Err? then Step(up.store, up.seen, Err(up.reply.error)) else
      var done := CommitStep(env, up.store, up.seen, auth, CommitRequest(id, cid, commitKey), now);
      Step(done.store, done.seen,
           if done.reply.Err? then Err(done.reply.error)
           else Ok(PutReply(done.reply.value.objectCid, cid, done.reply.value.eventNumber)))
  }

  lemma AfterInitShape(
    env: Env, s0: Store, s: Store, seen: Cache, auth: Auth, m: WireManifest, bind: AtomicBind, staged: seq<Staged>,
    commitKey: Text, now: nat)
    returns (mid: Store)
    requires Kept(env, s0, s, seen) && SessionIs(s, ManifestCid(env.h, m), m, bind)
    ensures var t := AfterInit(env, s, seen, auth, m, staged, commitKey, now);
            var r := UploadBind(env, m, bind, commitKey);
            && Kept(env, s0, t.store, t.seen)
            && mid.namespaces == s.namespaces
            && (t.store.namespaces == s.namespaces || BindHappened(env, mid, r, t.store))
            && (t.reply.Ok? && FreshCommit(env, s, auth, ManifestCid(env.h, m)) ==> StoredAndBound(env, mid, r, m, t))
  {
    hide CommitStep, UploadChunks, Kept, FreshCommit, ManifestCid, SessionId, SessionIs, BindHappened, CommitStores, CommitBind;
    var cid := ManifestCid(env.h, m);
    var id := SessionId(cid);
    mid := s;
    UploadKeepsSession(env, s0, s, seen, auth, id, staged, 0, now, cid, m, bind);
    var up := UploadChunks(env, s, seen, auth, id, staged, 0, now);
    if up.reply.Ok? {
      var r := CommitRequest(id, cid, commitKey);
      CommitStepKeeps(env, s0, up.store, up.seen, auth, r, now);
      mid := CommitShape(env, up.store, up.seen, auth, r, now, cid, m, bind);
      if FreshCommit(env, s, auth, cid) && CommitStep(env, up.store, up.seen, auth, r, now).reply.Ok? {
        ChunksLeaveCommitFresh(env, s, seen, auth, id, staged, 0, now, cid);
        KeptBacked(env, s0, up.store, up.seen);
        FreshCommitStores(env, up.store, up.seen, auth, r, now, cid, m, bind);
      }
    }
  }

  /** The whole upload: it changes namespaces by its own bind or not at all, and success means stored and bound. */
  lemma UploadShape(
    env: Env, s0: Store, s: Store, seen: Cache, auth: Auth, m: WireManifest, spec: Spec, bind: AtomicBind,
    staged: seq<Staged>, initKey: Text, commitKey: Text, now: nat)
    returns (mid: Store)
    requires Kept(env, s0, s, seen) && FreshInit(env, s, auth, ManifestCid(env.h, m))
    ensures var t := Upload(env, s, seen, auth, m, spec, bind, staged, initKey, commitKey, now);
            var r := UploadBind(env, m, bind, commitKey);
            && Kept(env, s0, t.store, t.seen)
            && mid.namespaces == s.namespaces
            && (t.store.namespaces == s.namespaces || BindHappened(env, mid, r, t.store))
            && (t.reply.Ok? && FreshCommit(env, s, auth, ManifestCid(env.h, m)) ==> StoredAndBound(env, mid, r, m, t))
  {
    hide InitStep, CommitStep, UploadChunks, Kept, FreshInit, FreshCommit, ManifestCid, SessionId, SessionIs, StorageClass,
      BindHappened, UploadBind, StoredAndBound;
    var cid := ManifestCid(env.h, m);
    var q := InitRequest(m, initKey, spec.profileId, spec.keyPolicyId, spec.visibility, StorageClass(spec), Some(bind));
    mid := s;
    InitStepKeeps(env, s0, s, seen, auth, q, now);
    InitStepParts(env, s, seen, auth, q, now);
    var init := InitStep(env, s, seen, auth, q, now);
    if init.reply.Ok? {
      KeptBacked(env, s0, s, seen);
      InitFresh(env, s, seen, auth, q, now, bind);
      mid := AfterInitShape(env, s0, init.store, init.seen, auth, m, bind, staged, commitKey, now);
      if FreshCommit(env, s, auth, cid) { InitLeavesCommitFresh(env, s, seen, auth, q, now, cid); }
      assert Upload(env, s, seen, auth, m, spec, bind, staged, initKey, commitKey, now) ==
             AfterInit(env, init.store, init.seen, auth, m, staged, commitKey, now);
    }
  }

  lemma KeptBacked(env: Env, s0: Store, s: Store, seen: Cache)
    requires Kept(env, s0, s, seen)
    ensures Backed(s.replay, seen) && StoreInv(env, s) && Evolves(s0, s)
  {
    hide StoreInv, Evolves, Backed;
  }

  // --------------------------------------------------------- chunks are accepted

  lemma {:induction false} FindRefAt(refs: seq<ChunkRef>, i: nat, base: nat)
    requires i < |refs| && forall k :: 0 <= k < |refs| ==> refs[k].index == base + k
    ensures FindRef(refs, base + i) == Some(refs[i])
    decreases |refs|
  {
    if i > 0 {
      FindRefAt(refs[1..], i - 1, base + 1);
    }
  }

  lemma ChunkAt(h: Hash, data: Text, i: nat)
    requires i < Count(|data|) <= U32
    ensures ChunkCiphertext(h, data)[i] == Staged(FixedChunkRef(h, i, i * SIZE, Slice(data, i)), Slice(data, i))
    ensures Refs(ChunkCiphertext(h, data))[i] == FixedChunkRef(h, i, i * SIZE, Slice(data, i))
  {
    hide Count, Slice, FixedChunkRef;
    assert i % U32 == i;
  }

  lemma FindStagedRef(h: Hash, data: Text, i: nat)
    requires i < Count(|data|) <= U32
    ensures FindRef(Refs(ChunkCiphertext(h, data)), i) == Some(FixedChunkRef(h, i, i * SIZE, Slice(data, i)))
  {
    hide FindRef, Count, Slice, ChunkCiphertext;
    var refs := Refs(ChunkCiphertext(h, data));
    ChunkAt(h, data, i);
    forall k | 0 <= k < |refs| ensures refs[k].index == 0 + k { ChunkAt(h, data, k); }
    FindRefAt(refs, i, 0);
  }

  /**
   Every chunk that chunking the object stages, in one piece or part by part,
   passes the checks of put_chunk against the session of that object.
   */
  lemma DescriptorAccepted(env: Env, s: Store, cid: Text, m: WireManifest, bind: AtomicBind, data: Text, i: nat)
    requires SessionIs(s, cid, m, bind) && m.chunkRefs == Refs(ChunkCiphertext(env.h, data))
    requires i < Count(|data|) <= U32
    ensures var c := ChunkCiphertext(env.h, data)[i];
            ChunkInvalid(s, env.h, ChunkRequest(SessionId(cid), c.chunk.index, c.chunk.cid, c.chunk.offset, c.chunk.storedLen),
                         c.bytes) == None
  {
    hide SessionId, ChunkCiphertext, Count, Refs, FindRef, Slice;
    FindStagedRef(env.h, data, i);
    ChunkAt(env.h, data, i);
  }

  /** So an upload can fail between init and commit only by a refused token. */
  lemma {:induction false} UploadFailsOnlyByDenial(
    env: Env, s0: Store, s: Store, seen: Cache, auth: Auth, i: nat, now: nat, cid: Text, m: WireManifest,
    bind: AtomicBind, data: Text)
    requires i <= Count(|data|) <= U32 && SessionIs(s, cid, m, bind) && Kept(env, s0, s, seen)
    requires m.chunkRefs == Refs(ChunkCiphertext(env.h, data))
    ensures var t := UploadChunks(env, s, seen, auth, SessionId(cid), ChunkCiphertext(env.h, data), i, now);
            t.reply.Err? ==> t.reply.error.Denied?
    decreases Count(|data|) - i
  {
    hide SessionIs, Kept, ChunkCiphertext, Count, Refs, SessionId, Authorize;
    var staged := ChunkCiphertext(env.h, data);
    if i < |staged| {
      var c := staged[i].chunk;
      var r := ChunkRequest(SessionId(cid), c.index, c.cid, c.offset, c.storedLen);
      DescriptorAccepted(env, s, cid, m, bind, data, i);
      ChunkErrIsDenial(env, s, seen, auth, r, staged[i].bytes, now);
      ChunkKeepsSession(env, s, seen, auth, r, staged[i].bytes, now, cid, m, bind);
      ChunkStepKeeps(env, s0, s, seen, auth, r, staged[i].bytes, now);
      hide ChunkStep;
      var t := ChunkStep(env, s, seen, auth, r, staged[i].bytes, now);
      if t.reply.Ok? { UploadFailsOnlyByDenial(env, s0, t.store, t.seen, auth, i + 1, now, cid, m, bind, data); }
    }
  }

  lemma ChunkErrIsDenial(env: Env, s: Store, seen: Cache, auth: Auth, r: ChunkRequest, bytes: Text, now: nat)
    requires ChunkInvalid(s, env.h, r, bytes) == None
    ensures var t := ChunkStep(env, s, seen, auth, r, bytes, now); t.reply.Err? ==> t.reply.error.Denied?
  {
    ChunkSession(s, env.h, r, bytes);
    hide PolicyDenial, ChunkInvalid, ChunkMeta, DurableVerdict, DurableAfter, CacheAfter, ReplayKey, IsMutation;
  }

  // -------------------------------------------------------------- reading it back

  /** The slice a range asks for; all of it without a range. */
  ghost predicate ReadsAs(r: Result<GetReply>, data: Text, range: Option<Range>) {
    var (a, b) := if range.Some? then (range.value.start, range.value.end) else (0, |data| - 1);
    if 0 <= a <= b < |data| then
      r.Ok? && Tiles(r.value.fragments, data, a, b) && Body(r.value.fragments) == data[a..b + 1]
    else r == Err(InvalidRange)
  }

  /** The chunks stored under the slices' hashes are the slices. */
  lemma SlicesStored(env: Env, s: Store, m: Manifest, data: Text)
    requires ChunksOk(env, s.chunks) && CollisionFree(env.h)
    requires m.chunkRefs == Refs(ChunkCiphertext(env.h, data)) && AllPresent(s.chunks, m.chunkRefs)
    ensures forall i :: 0 <= i < Count(|data|) ==>
              env.h(Slice(data, i)) in s.chunks && s.chunks[env.h(Slice(data, i))] == Slice(data, i)
  {
    forall i | 0 <= i < Count(|data|)
      ensures env.h(Slice(data, i)) in s.chunks && s.chunks[env.h(Slice(data, i))] == Slice(data, i)
    {
      assert m.chunkRefs[i] == ChunkCiphertext(env.h, data)[i].chunk;
      assert m.chunkRefs[i].cid == env.h(Slice(data, i));
      assert env.h(s.chunks[env.h(Slice(data, i))]) == env.h(Slice(data, i));
    }
  }

  /** A committed manifest of a chunked object reads back exactly that object, for every range. */
  lemma CommittedReadsBack(env: Env, s: Store, cid: Text, m: Manifest, data: Text, range: Option<Range>)
    requires StoreInv(env, s) && CollisionFree(env.h) && cid in s.manifests && s.manifests[cid].manifest == m
    requires m.chunkRefs == Refs(ChunkCiphertext(env.h, data)) && m.logicalSize == |data| && 0 < |data| < U64
    requires range.Some? ==> range.value.start <= range.value.end
    ensures ReadsAs(ReadRecord(s, s.manifests[cid], range), data, range)
  {
    hide StoreInv, ChunkCiphertext, Refs, Fragments, Tiled, Tiles, Body, AllPresent, ChunksOk, Count, Slice, CollisionFree,
      ReadsAs, ReadRecord, SmallManifest;
    StoredChunks(env, s, cid);
    TiledInStore(env, s, m, data);
    ReadTiled(s, s.manifests[cid], data, range);
  }

  lemma ReadTiled(s: Store, record: ManifestRecord, data: Text, range: Option<Range>)
    requires Tiled(s.chunks, record.manifest.chunkRefs, data) && record.manifest.logicalSize == |data| > 0
    requires range.Some? ==> range.value.start <= range.value.end
    ensures ReadsAs(ReadRecord(s, record, range), data, range)
  {
    hide Fragments, Tiled, Tiles, Body, SmallManifest;
    var refs := record.manifest.chunkRefs;
    match range
    case None => RangeReadExact(s.chunks, refs, data, 0, |data| - 1);
    case Some(r) => if r.end < |data| { RangeReadExact(s.chunks, refs, data, r.start, r.end); }
  }

  lemma TiledInStore(env: Env, s: Store, m: Manifest, data: Text)
    requires ChunksOk(env, s.chunks) && CollisionFree(env.h) && 0 < |data| < U64
    requires m.chunkRefs == Refs(ChunkCiphertext(env.h, data)) && AllPresent(s.chunks, m.chunkRefs)
    ensures Tiled(s.chunks, m.chunkRefs, data)
  {
    hide ChunksOk, CollisionFree, ChunkCiphertext, Refs, Tiled, AllPresent, Count, Slice;
    SlicesStored(env, s, m, data);
    ChunkedIsTiled(env.h, s.chunks, data);
  }

  lemma StoredChunks(env: Env, s: Store, cid: Text)
    requires StoreInv(env, s) && cid in s.manifests
    ensures ChunksOk(env, s.chunks) && AllPresent(s.chunks, s.manifests[cid].manifest.chunkRefs)
    ensures cid == ManifestCid(env.h, s.manifests[cid].manifest)
  {
    hide ChunksOk, SessionsOk, NamespacesOk, ManifestCid, AllPresent;
  }

  /** The service's registry trusts the distribution service's signatures. */
  ghost predicate Trusted(env: DistEnv) {
    forall r :: env.alpha.verify(env.sign(r)) == Some(r)
  }

  /** A bind that was signed for bucket and key happens at exactly that bucket and key. */
  lemma SignedBindPlace(
    env: DistEnv, s: Store, r: BindRequest, s': Store, bucket: Text, key: Text, cid: Text, revision: Option<nat>,
    metadata: Metadata, now: nat)
    requires Trusted(env) && BindHappened(env.alpha, s, r, s')
    requires r.signedRecord == env.sign(BindRecord(env.alpha.tenant, bucket, key, cid, revision, metadata, now))
    ensures Canonical(r.namespace, r.path) == Ok((bucket, key)) && r.target == cid
    ensures bucket in s'.namespaces && key in s'.namespaces[bucket].bindings
    ensures var b := s'.namespaces[bucket].bindings[key];
            b.target == b.manifest == Some(cid) && !b.tombstone
    ensures BindRefusal(NamespaceOf(s, bucket), key, r.ifRevision, r.ifAbsent) == None
    ensures s'.namespaces.Keys == s.namespaces.Keys + {bucket}
    ensures forall n :: n in s.namespaces && n != bucket ==> s'.namespaces[n] == s.namespaces[n]
    ensures forall p :: p != key ==>
              (p in s'.namespaces[bucket].bindings <==> p in NamespaceOf(s, bucket).bindings)
    ensures forall p :: p != key && p in NamespaceOf(s, bucket).bindings ==>
              s'.namespaces[bucket].bindings[p] == NamespaceOf(s, bucket).bindings[p]
  {
    hide Canonical, BindRefusal, RecordCid, RecordInvalid;
    var record := BindRecord(env.alpha.tenant, bucket, key, cid, revision, metadata, now);
    assert env.alpha.verify(r.signedRecord) == Some(record);
    var where := Canonical(r.namespace, r.path).value;
    assert where == (where.0, where.1) && VerifyBind(env.alpha, r, where.0, where.1) == Ok(record);
  }
}
