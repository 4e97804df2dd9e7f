/**
 Why token ids must not be shared: two tokens of one id, of which the first is
 too narrow to send chunks, can together overwrite an object on legal hold.
 */
module SharedIds {
  import opened Basics
  import opened Paths
  import opened Records
  import opened Chunker
  import opened Namespaces
  import opened Policy
  import opened Service
  import opened ServiceInvariants
  import opened ServiceTheorems
  import opened Distribution
  import opened Uploads
  import opened Objects
  import opened Completeness
  import opened Tokens
  import opened Sites
  import opened Locks

  // ------------------------------------------------------------- what an upload left

  /** The token id has initialised this manifest and nothing more, and the session it opened is waiting. */
  ghost predicate LeftBehind(
    env: Env, s: Store, seen: Cache, jti: Text, m: WireManifest, stale: AtomicBind, initKey: Text)
  {
    var cid := ManifestCid(env.h, m);
    var key := ReplayKey(env.tenant, jti, PutInitOp, cid);
    && SessionIs(s, cid, m, stale) && SpentAtMost(env, s, jti, SessionId(cid), Chunks(0))
    && key in s.replay && s.replay[key] == initKey && (key in seen ==> seen[key] == initKey)
    && env.h(initKey) in s.initReplies && s.initReplies[env.h(initKey)].sessionId == SessionId(cid)
  }

  /** Initialising it again is a retry that changes nothing and gives the waiting session back. */
  lemma RetriedInit(env: Env, s: Store, seen: Cache, auth: Auth, q: InitRequest, now: nat)
    requires Unrestricted(env, auth, now) && InitInvalid(env, q) == None
    requires var key := ReplayKey(env.tenant, auth.claims.jti.value, PutInitOp, ManifestCid(env.h, q.manifest));
             && key in s.replay && s.replay[key] == q.idempotencyKey
             && (key in seen ==> seen[key] == q.idempotencyKey)
    requires env.h(q.idempotencyKey) in s.initReplies
    ensures var t := InitStep(env, s, seen, auth, q, now);
            t.reply == Ok(s.initReplies[env.h(q.idempotencyKey)]) && t.store == s
  {
    hide PolicyDenial, InitInvalid, ManifestCid, SmallManifest, ReplayKey, Missing, SessionId, Authorize;
    UnrestrictedAllowed(env, auth, InitMeta(env, q), now);
    AllowedRetry(s, seen, auth, InitMeta(env, q), now);
  }

  /** So the upload of the second token sends its chunks there and commits the first one's bind. */
  lemma StaleSessionCommits(
    env: Env, s: Store, seen: Cache, auth: Auth, m: WireManifest, spec: Spec, bind: AtomicBind, stale: AtomicBind,
    data: Text, initKey: Text, commitKey: Text, now: nat)
    returns (mid: Store)
    requires StoreInv(env, s) && Backed(s.replay, seen) && Unrestricted(env, auth, now)
    requires Sends(env, m, data) && Count(|data|) <= U32 && InitInvalid(env, UploadInit(m, spec, bind, initKey)) == None
    requires LeftBehind(env, s, seen, auth.claims.jti.value, m, stale, initKey)
    requires BindReady(env, s.namespaces, UploadBind(env, m, stale, commitKey))
    ensures var t := Upload(env, s, seen, auth, m, spec, bind, ChunkCiphertext(env.h, data), initKey, commitKey, now);
            && t.reply.Ok? && mid.namespaces == s.namespaces
            && BindHappened(env, mid, UploadBind(env, m, stale, commitKey), t.store)
  {
    hide InitStep, UploadChunks, CommitStep, ManifestCid, SessionId, StorageClass, SmallManifest, Unrestricted, StoreInv,
      Backed, SpentAtMost, BindReady, InitInvalid, ChunkCiphertext, Count, Refs, Kept, SessionIs, AllPresent, BindHappened,
      ReplayKey, FreshCommit;
    var cid := ManifestCid(env.h, m);
    var id := SessionId(cid);
    JtiPresent(env, auth, now);
    var q := UploadInit(m, spec, bind, initKey);
    var init := InitStep(env, s, seen, auth, q, now);
    RetriedInit(env, s, seen, auth, q, now);
    KeptStart(env, s, seen);
    InitStepKeeps(env, s, s, seen, auth, q, now);
    NothingSent(s.chunks, m.chunkRefs);
    ChunksGoThrough(env, s, init.store, init.seen, auth, 0, now, cid, m, stale, data);
    UploadKeepsSession(env, s, init.store, init.seen, auth, id, ChunkCiphertext(env.h, data), 0, now, cid, m, stale);
    var up := UploadChunks(env, init.store, init.seen, auth, id, ChunkCiphertext(env.h, data), 0, now);
    KeptBacked(env, s, up.store, up.seen);
    CommitGoesThrough(env, up.store, up.seen, auth, CommitRequest(id, cid, commitKey), now, m, stale, Count(|data|));
    UncommittedIsFresh(env, s, auth, cid);
    mid := AfterInitShape(env, s, init.store, init.seen, auth, m, stale, ChunkCiphertext(env.h, data), commitKey, now);
  }

  lemma UncommittedIsFresh(env: Env, s: Store, auth: Auth, cid: Text)
    requires auth.claims.jti.Some? && SpentAtMost(env, s, auth.claims.jti.value, SessionId(cid), Chunks(0))
    ensures FreshCommit(env, s, auth, cid)
  {
    hide ReplayKey, SessionId;
  }

  // -------------------------------------------------------------- the first token's put

  /** A scoped token's chunk is denied and leaves only a log entry. */
  lemma ScopedChunkQuiet(env: Env, s: Store, seen: Cache, auth: Auth, r: ChunkRequest, bytes: Text, now: nat)
    requires Scoped(auth.claims)
    ensures var t := ChunkStep(env, s, seen, auth, r, bytes, now);
            t.reply.Err? && Quiet(s, t.store) && t.store.replay == s.replay && t.seen == seen
  {
    hide ChunkInvalid, SegmentPrefixMatches, ReplayKey, DenialLogged, Decimal, SmallManifest, Quiet;
    QuietReflexive(s);
    if ChunkInvalid(s, env.h, r, bytes).None? {
      ChunkSession(s, env.h, r, bytes);
      var meta := ChunkMeta(env, r, s.sessions[r.sessionId], |bytes|);
      DenialQuiet(s, meta, now);
      DenialReplayKept(s, meta, now);
    }
  }

  lemma FirstInitLeaves(env: Env, s: Store, seen: Cache, auth: Auth, q: InitRequest, stale: AtomicBind, now: nat)
    requires Backed(s.replay, seen) && auth.claims.jti.Some? && q.atomicBind == Some(stale)
    requires InitInvalid(env, q) == None && PolicyDenial(auth, InitMeta(env, q), now) == None
    requires SpentAtMost(env, s, auth.claims.jti.value, SessionId(ManifestCid(env.h, q.manifest)), Unused)
    ensures var t := InitStep(env, s, seen, auth, q, now);
            && t.reply.Ok? && t.reply.value.sessionId == SessionId(ManifestCid(env.h, q.manifest))
            && LeftBehind(env, t.store, t.seen, auth.claims.jti.value, q.manifest, stale, q.idempotencyKey)
  {
    hide PolicyDenial, InitInvalid, ManifestCid, SmallManifest, ReplayKey, Missing, SessionId, SpentAtMost, Authorize;
    var jti, cid := auth.claims.jti.value, ManifestCid(env.h, q.manifest);
    UnspentKey(env, s, jti, SessionId(cid), Unused, PutInitOp, cid);
    AllowedFresh(s, seen, auth, InitMeta(env, q), now);
    SpendStep(env, s, jti, SessionId(cid), Unused, PutInitOp, cid, q.idempotencyKey, Chunks(0));
    SameSpent(env, s.(replay := s.replay[ReplayKey(env.tenant, jti, PutInitOp, cid) := q.idempotencyKey]),
              InitStep(env, s, seen, auth, q, now).store, jti, SessionId(cid), Chunks(0));
  }

  lemma QuietLeaves(env: Env, s: Store, s': Store, seen: Cache, jti: Text, m: WireManifest, stale: AtomicBind, initKey: Text)
    requires LeftBehind(env, s, seen, jti, m, stale, initKey) && Quiet(s, s') && s'.replay == s.replay
    ensures LeftBehind(env, s', seen, jti, m, stale, initKey)
  {
    hide ManifestCid, SmallManifest, ReplayKey, SessionId, SpentAtMost;
    SameSpent(env, s, s', jti, SessionId(ManifestCid(env.h, m)), Chunks(0));
  }

  /** The narrow token's upload stops at its first chunk. */
  lemma ScopedUploadLeaves(
    env: Env, s: Store, seen: Cache, auth: Auth, m: WireManifest, spec: Spec, stale: AtomicBind, data: Text, initKey: Text,
    commitKey: Text, now: nat)
    requires StoreInv(env, s) && Backed(s.replay, seen) && auth.claims.jti.Some? && Scoped(auth.claims)
    requires Sends(env, m, data)
    requires var q := UploadInit(m, spec, stale, initKey);
             InitInvalid(env, q) == None && PolicyDenial(auth, InitMeta(env, q), now) == None
    requires SpentAtMost(env, s, auth.claims.jti.value, SessionId(ManifestCid(env.h, m)), Unused)
    ensures var t := Upload(env, s, seen, auth, m, spec, stale, ChunkCiphertext(env.h, data), initKey, commitKey, now);
            && t.reply.Err? && t.store.namespaces == s.namespaces && Kept(env, s, t.store, t.seen)
            && LeftBehind(env, t.store, t.seen, auth.claims.jti.value, m, stale, initKey)
  {
    hide InitStep, ChunkStep, CommitStep, ManifestCid, SessionId, StorageClass, SmallManifest, StoreInv, Backed,
      SpentAtMost, InitInvalid, ChunkCiphertext, Refs, Kept, LeftBehind, PolicyDenial, Quiet, Scoped, Count, NewKeys;
    var q := UploadInit(m, spec, stale, initKey);
    var init := InitStep(env, s, seen, auth, q, now);
    var staged := ChunkCiphertext(env.h, data);
    FirstInitLeaves(env, s, seen, auth, q, stale, now);
    InitStepParts(env, s, seen, auth, q, now);
    FirstRef(env.h, data);
    var c := staged[0].chunk;
    var r := ChunkRequest(init.reply.value.sessionId, c.index, c.cid, c.offset, c.storedLen);
    ScopedChunkQuiet(env, init.store, init.seen, auth, r, staged[0].bytes, now);
    var t := ChunkStep(env, init.store, init.seen, auth, r, staged[0].bytes, now);
    QuietParts(init.store, t.store);
    QuietLeaves(env, init.store, t.store, init.seen, auth.claims.jti.value, m, stale, initKey);
    UploadKeys(env, s, seen, auth, m, spec, stale, staged, initKey, commitKey, now);
  }

  // ------------------------------------------------------------------------- the run

  /** What both puts are about. */
  datatype Case = Case(
    bucket: Text, held: Text, free: Text, spec: Spec, payload: Text, idempotencyKey: Text, now: nat)

  /** The names are canonical, the object is valid, `held` is live and unlocked, `free` is neither bound nor locked. */
  ghost predicate Situation(env: DistEnv, x: Site, c: Case) {
    && SiteSound(env, x) && Trusted(env)
    && RequireBucket(x.buckets, c.bucket) == Ok(c.bucket) && CanonicalBucket(c.bucket) == Ok(c.bucket)
    && ObjectKey(c.held) == Ok(c.held) && ObjectKey(c.free) == Ok(c.free)
    && Canonical(c.bucket, c.held) == Ok((c.bucket, c.held)) && Canonical(c.bucket, c.free) == Ok((c.bucket, c.free))
    && !Blank(c.bucket) && !Blank(c.held)
    && Live(x.store, c.bucket, c.held) && LockKey(c.bucket, c.held) !in x.locks
    && LiveBinding(x.store, c.bucket, c.free) == None
    && c.payload != [] && Count(|c.payload|) <= U32 && c.spec.wrappedKeys != []
    && var m := PayloadManifest(env.alpha, c.payload, c.spec, c.now);
    && SmallManifest(m) && ManifestInvalid(m) == None && ManifestCid(env.alpha.h, m) != []
  }

  /** The bind of the held object that the first put asks for. */
  function HeldBind(env: DistEnv, x: Site, c: Case): AtomicBind
    requires SmallManifest(PayloadManifest(env.alpha, c.payload, c.spec, c.now))
  {
    AtomicBindFor(env, c.bucket, c.held, ManifestCid(env.alpha.h, PayloadManifest(env.alpha, c.payload, c.spec, c.now)),
                  RevisionOf(LiveBinding(x.store, c.bucket, c.held)), c.spec.serverMetadata, c.now)
  }

  /** A token that may look at and initialise the held key, but is scoped; its id is unused. */
  ghost predicate Narrow(env: DistEnv, x: Site, c: Case, auth: Auth)
    requires SmallManifest(PayloadManifest(env.alpha, c.payload, c.spec, c.now))
  {
    var m := PayloadManifest(env.alpha, c.payload, c.spec, c.now);
    && Scoped(auth.claims) && auth.claims.jti.Some? && NeverUsed(env.alpha, x.store, auth.claims.jti.value)
    && ScopeRefusal(env.alpha.tenant, auth, MutationScope(), c.bucket, c.held) == None
    && PolicyDenial(auth, ResolveMeta(env.alpha, c.bucket, c.held), c.now) == None
    && PolicyDenial(auth, InitMeta(env.alpha, UploadInit(m, c.spec, HeldBind(env, x, c), c.idempotencyKey)), c.now) == None
  }

  /** The first put: refused at its first chunk, and what it leaves. */
  lemma NarrowPutLeaves(env: DistEnv, x: Site, c: Case, narrow: Auth)
    requires Situation(env, x, c) && Narrow(env, x, c, narrow)
    ensures var t := PutObject(env, x.store, x.seen, x.buckets, x.locks, narrow, c.bucket, c.held, c.spec, c.idempotencyKey,
                               c.payload, c.now);
            var m := PayloadManifest(env.alpha, c.payload, c.spec, c.now);
            && t.reply.Err? && t.store.namespaces == x.store.namespaces && Kept(env.alpha, x.store, t.store, t.seen)
            && LeftBehind(env.alpha, t.store, t.seen, narrow.claims.jti.value, m, HeldBind(env, x, c), c.idempotencyKey)
  {
    hide StoreInv, Backed, Trusted, CanonicalBucket, RequireBucket, ObjectKey, Canonical, Blank, Live, LockKey, LiveBinding,
      ScopeRefusal, PolicyDenial, Scoped, NeverUsed, ManifestInvalid, SmallManifest, ManifestCid, Count, Upload, ResolveStep,
      ChunkCiphertext, Refs, BuildManifest, Existing, InitInvalid, SpentAtMost, SessionId, Kept, LeftBehind, AtomicBindFor;
    var m: WireManifest := PayloadManifest(env.alpha, c.payload, c.spec, c.now);
    ResolveSees(env.alpha, x.store, x.seen, narrow, c.bucket, c.held, c.now);
    PayloadManifestParts(env.alpha, c.payload, c.spec, c.now);
    PayloadStored(env.alpha, c.payload, c.spec, c.now);
    PayloadInitValid(env.alpha, c.payload, c.spec, c.now, c.idempotencyKey, HeldBind(env, x, c));
    NeverUsedUnspent(env.alpha, x.store, narrow.claims.jti.value, SessionId(ManifestCid(env.alpha.h, m)));
    ScopedUploadLeaves(env.alpha, x.store, x.seen, narrow, m, c.spec, HeldBind(env, x, c), c.payload, c.idempotencyKey,
                       c.idempotencyKey, c.now);
    Unlocked(x.locks, LockKey(c.bucket, c.held), narrow, c.now);
  }

  lemma Unlocked(locks: map<Text, Lock>, lockKey: Text, auth: Auth, now: nat)
    requires lockKey !in locks
    ensures LockRefusal(locks, lockKey, auth, now) == None
  {
  }

  /** The second put, of the free key by the wide token of the same id, rebinds the held one. */
  lemma WidePutRebinds(
    env: DistEnv, x: Site, c: Case, s: Store, seen: Cache, locks: map<Text, Lock>, wide: Auth)
    requires Situation(env, x, c) && Kept(env.alpha, x.store, s, seen) && s.namespaces == x.store.namespaces
    requires Unrestricted(env.alpha, wide, c.now)
    requires ScopeRefusal(env.alpha.tenant, wide, MutationScope(), c.bucket, c.free) == None
    requires LeftBehind(env.alpha, s, seen, wide.claims.jti.value, PayloadManifest(env.alpha, c.payload, c.spec, c.now),
                        HeldBind(env, x, c), c.idempotencyKey)
    ensures var t := PutObject(env, s, seen, x.buckets, locks, wide, c.bucket, c.free, c.spec, c.idempotencyKey,
                               c.payload, c.now);
            && t.reply.Ok? && Live(t.store, c.bucket, c.held)
            && t.store.namespaces[c.bucket].bindings[c.held].revision != s.namespaces[c.bucket].bindings[c.held].revision
  {
    hide StoreInv, Backed, CanonicalBucket, RequireBucket, ObjectKey, Canonical, Blank, LockKey,
      ScopeRefusal, PolicyDenial, ManifestInvalid, SmallManifest, ManifestCid, Count, Upload, ResolveStep,
      ChunkCiphertext, Refs, BuildManifest, Existing, InitInvalid, SessionId, Kept, LeftBehind, AtomicBindFor, BindReady,
      BindHappened, Unrestricted, UploadBind, Trusted;
    var m: WireManifest := PayloadManifest(env.alpha, c.payload, c.spec, c.now);
    KeptBacked(env.alpha, x.store, s, seen);
    JtiPresent(env.alpha, wide, c.now);
    UnrestrictedAllowed(env.alpha, wide, ResolveMeta(env.alpha, c.bucket, c.free), c.now);
    ResolveSees(env.alpha, s, seen, wide, c.bucket, c.free, c.now);
    PayloadManifestParts(env.alpha, c.payload, c.spec, c.now);
    PayloadStored(env.alpha, c.payload, c.spec, c.now);
    var bind := AtomicBindFor(env, c.bucket, c.free, ManifestCid(env.alpha.h, m), None, c.spec.serverMetadata, c.now);
    PayloadInitValid(env.alpha, c.payload, c.spec, c.now, c.idempotencyKey, bind);
    ObjectBindReady(env, s, c.bucket, c.held, m, c.spec, c.idempotencyKey, c.now);
    var mid := StaleSessionCommits(env.alpha, s, seen, wide, m, c.spec, bind, HeldBind(env, x, c), c.payload,
                                   c.idempotencyKey, c.idempotencyKey, c.now);
    var t := Upload(env.alpha, s, seen, wide, m, c.spec, bind, ChunkCiphertext(env.alpha.h, c.payload), c.idempotencyKey,
                    c.idempotencyKey, c.now);
    var r := UploadBind(env.alpha, m, HeldBind(env, x, c), c.idempotencyKey);
    assert Canonical(r.namespace, r.path) == Ok((c.bucket, c.held)) by { HeldBindPlace(env, x, c); }
    NewRevision(env.alpha, s, mid, r, t.store, c.bucket, c.held);
  }

  lemma HeldBindPlace(env: DistEnv, x: Site, c: Case)
    requires SmallManifest(PayloadManifest(env.alpha, c.payload, c.spec, c.now))
    ensures var m: WireManifest := PayloadManifest(env.alpha, c.payload, c.spec, c.now);
            var r := UploadBind(env.alpha, m, HeldBind(env, x, c), c.idempotencyKey);
            r.namespace == c.bucket && r.path == c.held
  {
    hide ManifestCid, SmallManifest, PayloadManifest, SessionId, LiveBinding;
  }

  /** A bind gives its path a revision that no binding of the namespace had. */
  lemma NewRevision(env: Env, s: Store, mid: Store, r: BindRequest, s': Store, n: Text, p: Text)
    requires StoreInv(env, s) && mid.namespaces == s.namespaces && BindHappened(env, mid, r, s')
    requires Canonical(r.namespace, r.path) == Ok((n, p)) && Live(s, n, p)
    ensures Live(s', n, p) && s'.namespaces[n].bindings[p].revision != s.namespaces[n].bindings[p].revision
  {
    hide StoreInv, Canonical, VerifyBind, BindRefusal, RecordCid, Inv;
    NamespaceOfInv(env, s, n);
    var ns := NamespaceOf(s, n);
    RevisionBelow(n, ns, p);
  }

  lemma RevisionBelow(name: Text, ns: Namespace, p: Text)
    requires Inv(name, ns) && p in ns.bindings
    ensures ns.bindings[p].revision < ns.nextRevision
  {
    var k := BindingOrigin(ns.journal, p);
    InvSorted(name, ns, k);
  }

  /**
   The narrow token puts the held key and is refused; the key is put on hold; the
   wide token of the same id, no administrator, puts the same payload elsewhere:
   and the object on hold has been overwritten.
   */
  lemma SharedIdOverwritesHeld(env: DistEnv, x: Site, c: Case, narrow: Auth, holder: Auth, wide: Auth)
    requires Situation(env, x, c) && Narrow(env, x, c, narrow)
    requires ScopeRefusal(env.alpha.tenant, holder, MutationScope(), c.bucket, c.held) == None
    requires Unrestricted(env.alpha, wide, c.now) && wide.claims.jti == narrow.claims.jti
    requires ScopeRefusal(env.alpha.tenant, wide, MutationScope(), c.bucket, c.free) == None
    ensures var run := [Action(narrow, c.now, Put(c.bucket, c.held, c.spec, c.idempotencyKey, c.payload)),
                        Action(holder, c.now, Hold(c.bucket, c.held, true)),
                        Action(wide, c.now, Put(c.bucket, c.free, c.spec, c.idempotencyKey, c.payload))];
            var y, z := SiteAt(env, x, run, 2), SiteAt(env, x, run, 3);
            && Live(y.store, c.bucket, c.held) && LockOf(y.locks, LockKey(c.bucket, c.held)).legalHold
            && !SameBinding(y.store, z.store, c.bucket, c.held)
  {
    hide StoreInv, PutObject, Trusted, Blank, SmallManifest, ManifestInvalid, ManifestCid, Count, Narrow, LeftBehind, Kept,
      ScopeRefusal, Unrestricted, SiteAt, PutRetention, CompleteMultipart, DeleteObject, CopyObject, Canonical, ObjectKey,
      CanonicalBucket, RequireBucket, LockKey, LiveBinding, HeldBind, PayloadManifest;
    var a := Action(narrow, c.now, Put(c.bucket, c.held, c.spec, c.idempotencyKey, c.payload));
    var b := Action(holder, c.now, Hold(c.bucket, c.held, true));
    var w := Action(wide, c.now, Put(c.bucket, c.free, c.spec, c.idempotencyKey, c.payload));
    var run := [a, b, w];
    SiteSteps(env, x, run, 0);
    SiteSteps(env, x, run, 1);
    SiteSteps(env, x, run, 2);
    SiteSteps(env, x, run, 3);
    NarrowJti(env, x, c, narrow);
    NarrowPutLeaves(env, x, c, narrow);
    var y := SiteAt(env, x, run, 2);
    WidePutRebinds(env, x, c, y.store, y.seen, y.locks, wide);
  }

  lemma NarrowJti(env: DistEnv, x: Site, c: Case, auth: Auth)
    requires SmallManifest(PayloadManifest(env.alpha, c.payload, c.spec, c.now)) && Narrow(env, x, c, auth)
    ensures auth.claims.jti.Some?
  {
    hide SmallManifest, PayloadManifest, PolicyDenial, ScopeRefusal, NeverUsed, HeldBind;
  }
}
