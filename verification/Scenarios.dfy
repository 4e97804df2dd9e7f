/**
 Short runs of the service from an empty store that show where a promise ends.
 */
module Scenarios {
  import opened Basics
  import opened Paths
  import opened Records
  import opened Chunker
  import opened Namespaces
  import opened Policy
  import opened Service
  import opened ServiceInvariants
  import opened ServiceTheorems
  import opened Distribution
  import opened Uploads
  import opened Objects
  import opened Completeness
  import opened Tokens

  // ------------------------------------------------------------- one object, uploaded

  /** An upload of one chunk with a bind at a free path: the manifest, the bind and the requests. */
  datatype Plan = Plan(
    data: Text, spec: Spec, namespace: Text, path: Text, initKey: Text, commitKey: Text, now: nat)

  function PlanManifest(h: Hash, tenant: Text, p: Plan): Manifest {
    BuildManifest(tenant, Refs(ChunkCiphertext(h, p.data)), |p.data|, p.spec, p.now)
  }

  function PlanBind(p: Plan): AtomicBind { AtomicBind(p.namespace, p.path, None, map[], None, []) }

  /** A service that verifies one signature: the one for this bind. */
  function PlanEnv(h: Hash, tenant: Text, p: Plan): Env
    requires SmallManifest(PlanManifest(h, tenant, p)) && Canonical(p.namespace, p.path).Ok?
  {
    var where := Canonical(p.namespace, p.path).value;
    var record := MutationRecord(1, tenant, where.0, where.1, BindKind, Some(ManifestCid(h, PlanManifest(h, tenant, p))),
                                 None, None, map[], p.now);
    Env(tenant, h, (signed: Text) => Some(record))
  }

  /** What put_init and the namespace rules ask of an object of one chunk. */
  predicate Planned(h: Hash, tenant: Text, p: Plan) {
    && 0 < |p.data| <= SIZE
    && var m := PlanManifest(h, tenant, p);
    && SmallManifest(m) && ManifestInvalid(m) == None && ManifestCid(h, m) != []
    && var where := Canonical(p.namespace, p.path);
    && where.Ok? && !Blank(where.value.0) && !Blank(where.value.1)
  }

  function PlanInit(h: Hash, tenant: Text, p: Plan): InitRequest
    requires SmallManifest(PlanManifest(h, tenant, p))
  {
    UploadInit(PlanManifest(h, tenant, p), p.spec, PlanBind(p), p.initKey)
  }

  function PlanCommit(h: Hash, tenant: Text, p: Plan): CommitRequest
    requires SmallManifest(PlanManifest(h, tenant, p))
  {
    var cid := ManifestCid(h, PlanManifest(h, tenant, p));
    CommitRequest(SessionId(cid), cid, p.commitKey)
  }

  /** Init, the one chunk, commit. */
  function UploadCalls(h: Hash, tenant: Text, p: Plan, auth: Auth): seq<Call>
    requires Planned(h, tenant, p)
  {
    var cid := ManifestCid(h, PlanManifest(h, tenant, p));
    [Call(0, auth, p.now, Init(PlanInit(h, tenant, p))),
     Call(0, auth, p.now, Chunk(ChunkRequest(SessionId(cid), 0, h(p.data), 0, |p.data|), p.data)),
     Call(0, auth, p.now, Commit(PlanCommit(h, tenant, p)))]
  }

  const EMPTY: Deployment := Deployment(EMPTY_STORE, map[])

  function PlanUpload(env: Env, s: Store, seen: Cache, auth: Auth, p: Plan): Step<PutReply>
    requires SmallManifest(PlanManifest(env.h, env.tenant, p))
  {
    Upload(env, s, seen, auth, PlanManifest(env.h, env.tenant, p), p.spec, PlanBind(p), ChunkCiphertext(env.h, p.data),
           p.initKey, p.commitKey, p.now)
  }

  lemma OneChunk(h: Hash, data: Text)
    requires 0 < |data| <= SIZE
    ensures Count(|data|) == 1 && ChunkCiphertext(h, data) == [Staged(FixedChunkRef(h, 0, 0, data), data)]
  {
    assert Count(|data|) == 1;
    assert Slice(data, 0) == data;
    assert 0 % U32 == 0;
  }

  lemma PlanBindReady(h: Hash, tenant: Text, p: Plan)
    requires Planned(h, tenant, p)
    ensures BindReady(PlanEnv(h, tenant, p), map[],
                      UploadBind(PlanEnv(h, tenant, p), PlanManifest(h, tenant, p), PlanBind(p), p.commitKey))
  {
    hide Canonical, Blank, ManifestCid, SmallManifest, SessionId, PlanManifest, ManifestInvalid;
  }

  lemma EmptyUnspent(env: Env, jti: Text, id: Text)
    ensures SpentAtMost(env, EMPTY_STORE, jti, id, Unused)
  {
  }

  lemma PlanInitValid(h: Hash, tenant: Text, p: Plan)
    requires Planned(h, tenant, p)
    ensures InitInvalid(PlanEnv(h, tenant, p), PlanInit(h, tenant, p)) == None
  {
    hide ManifestInvalid, SmallManifest, Canonical, Blank, ManifestCid, ChunkCiphertext, Refs, StorageClass;
  }

  /** The upload succeeds on the empty store and leaves the path bound to the stored manifest. */
  lemma PlanUploads(h: Hash, tenant: Text, p: Plan, auth: Auth)
    requires Planned(h, tenant, p) && Unrestricted(PlanEnv(h, tenant, p), auth, p.now)
    ensures var env := PlanEnv(h, tenant, p);
            var t := PlanUpload(env, EMPTY_STORE, map[], auth, p);
            var where := Canonical(p.namespace, p.path).value;
            && t.reply.Ok? && Kept(env, EMPTY_STORE, t.store, t.seen)
            && Readable(t.store, where.0, where.1, ManifestCid(h, PlanManifest(h, tenant, p)))
            && t.store.manifests[ManifestCid(h, PlanManifest(h, tenant, p))].manifest == PlanManifest(h, tenant, p)
            && NewKeys(env, map[], t.store.replay, auth, Some(ManifestCid(h, PlanManifest(h, tenant, p))))
  {
    hide Upload, ManifestCid, SmallManifest, ManifestInvalid, Canonical, Blank, StoreInv, Backed, Kept, Unrestricted,
      InitInvalid, BindReady, SpentAtMost, ChunkCiphertext, Refs, Count, SessionId, BindHappened, FreshInit, FreshCommit,
      UploadBind, NewKeys, BoundTo;
    var env := PlanEnv(h, tenant, p);
    var m: WireManifest := PlanManifest(h, tenant, p);
    var cid := ManifestCid(h, m);
    EmptyStoreInv(env);
    KeptStart(env, EMPTY_STORE, map[]);
    JtiPresent(env, auth, p.now);
    EmptyUnspent(env, auth.claims.jti.value, SessionId(cid));
    OneChunk(h, p.data);
    PlanBindReady(h, tenant, p);
    PlanInitValid(h, tenant, p);
    UploadGoesThrough(env, EMPTY_STORE, map[], auth, m, p.spec, PlanBind(p), p.data, p.initKey, p.commitKey, p.now);
    UnusedIsFresh(env, EMPTY_STORE, auth, cid);
    var mid := UploadShape(env, EMPTY_STORE, EMPTY_STORE, map[], auth, m, p.spec, PlanBind(p),
                           ChunkCiphertext(h, p.data), p.initKey, p.commitKey, p.now);
    var t := PlanUpload(env, EMPTY_STORE, map[], auth, p);
    var r := UploadBind(env, m, PlanBind(p), p.commitKey);
    assert Canonical(r.namespace, r.path) == Canonical(p.namespace, p.path) && r.target == cid by {
      UploadBindParts(env, m, PlanBind(p), p.commitKey);
    }
    HappenedBinds(env, mid, r, t.store);
    UploadKeys(env, EMPTY_STORE, map[], auth, m, p.spec, PlanBind(p), ChunkCiphertext(h, p.data), p.initKey, p.commitKey,
               p.now);
  }

  lemma UploadBindParts(env: Env, m: WireManifest, bind: AtomicBind, commitKey: Text)
    ensures var r := UploadBind(env, m, bind, commitKey);
            r.namespace == bind.namespace && r.path == bind.path && r.target == ManifestCid(env.h, m)
  {
    hide ManifestCid, SmallManifest, SessionId;
  }

  /** Where a bind has happened its target is bound, live. */
  lemma HappenedBinds(env: Env, s: Store, r: BindRequest, s': Store)
    requires BindHappened(env, s, r, s')
    ensures Canonical(r.namespace, r.path).Ok?
    ensures var where := Canonical(r.namespace, r.path).value;
            r.target in s'.manifests ==> Readable(s', where.0, where.1, r.target)
  {
    hide Canonical, VerifyBind, BindRefusal, RecordCid;
  }

  lemma AfterOne(env: Env, s: Store, caches: map<nat, Cache>, seen: Cache, auth: Auth, now: nat, q: Request)
    requires caches == map[0 := seen] || (caches == map[] && seen == map[])
    ensures var (s', seen') := Effect(env, s, seen, auth, now, q);
            After(env, Deployment(s, caches), Call(0, auth, now, q)) == Deployment(s', map[0 := seen'])
  {
    hide Effect;
    var (s', seen') := Effect(env, s, seen, auth, now, q);
    assert caches[0 := seen'] == map[0 := seen'];
  }

  lemma OneChunkLoop(env: Env, s: Store, seen: Cache, auth: Auth, id: Text, c: Staged, now: nat)
    ensures var t := ChunkStep(env, s, seen, auth, ChunkRequest(id, c.chunk.index, c.chunk.cid, c.chunk.offset,
                                                                c.chunk.storedLen), c.bytes, now);
            UploadChunks(env, s, seen, auth, id, [c], 0, now) ==
            Step(t.store, t.seen, if t.reply.Err? then Err(t.reply.error) else Ok(()))
  {
    hide ChunkStep;
    var t := ChunkStep(env, s, seen, auth, ChunkRequest(id, c.chunk.index, c.chunk.cid, c.chunk.offset, c.chunk.storedLen),
                       c.bytes, now);
    if t.reply.Ok? { assert UploadChunks(env, t.store, t.seen, auth, id, [c], 1, now) == Step(t.store, t.seen, Ok(())); }
  }

  /** The three calls are the upload. */
  lemma UploadCallsAre(h: Hash, tenant: Text, p: Plan, auth: Auth)
    requires Planned(h, tenant, p) && Unrestricted(PlanEnv(h, tenant, p), auth, p.now)
    ensures var env := PlanEnv(h, tenant, p);
            env.h == h && env.tenant == tenant
    ensures var env := PlanEnv(h, tenant, p);
            DeploymentAt(env, EMPTY, UploadCalls(h, tenant, p, auth), 3) ==
            Deployment(PlanUpload(env, EMPTY_STORE, map[], auth, p).store,
                       map[0 := PlanUpload(env, EMPTY_STORE, map[], auth, p).seen])
  {
    hide InitStep, ChunkStep, CommitStep, ManifestCid, SmallManifest, ManifestInvalid, Canonical, Blank, StoreInv, Backed, Kept,
      Unrestricted, ChunkCiphertext, Refs, Count, SessionId, PlanManifest, StorageClass, Readable, PlanEnv, FreshInit,
      DeploymentAt, After, UploadChunks, SessionIs;
    PlanUploads(h, tenant, p, auth);
    var env := PlanEnv(h, tenant, p);
    PlanEnvParts(h, tenant, p);
    OneChunk(h, p.data);
    var m: WireManifest := PlanManifest(h, tenant, p);
    var cid := ManifestCid(h, m);
    var run := UploadCalls(h, tenant, p, auth);
    var init := InitStep(env, EMPTY_STORE, map[], auth, PlanInit(h, tenant, p), p.now);
    EmptyStoreInv(env);
    JtiPresent(env, auth, p.now);
    EmptyUnspent(env, auth.claims.jti.value, SessionId(cid));
    UnusedIsFresh(env, EMPTY_STORE, auth, cid);
    InitFresh(env, EMPTY_STORE, map[], auth, PlanInit(h, tenant, p), p.now, PlanBind(p));
    OneChunkLoop(env, init.store, init.seen, auth, SessionId(cid), ChunkCiphertext(h, p.data)[0], p.now);
    var up := ChunkStep(env, init.store, init.seen, auth, run[1].request.chunk, p.data, p.now);
    DeploymentSteps(env, EMPTY, run, 0);
    DeploymentSteps(env, EMPTY, run, 1);
    DeploymentSteps(env, EMPTY, run, 2);
    DeploymentSteps(env, EMPTY, run, 3);
    AfterOne(env, EMPTY_STORE, map[], map[], auth, p.now, run[0].request);
    AfterOne(env, init.store, map[0 := init.seen], init.seen, auth, p.now, run[1].request);
    AfterOne(env, up.store, map[0 := up.seen], up.seen, auth, p.now, run[2].request);
  }

  lemma PlanEnvParts(h: Hash, tenant: Text, p: Plan)
    requires Planned(h, tenant, p)
    ensures PlanEnv(h, tenant, p).h == h && PlanEnv(h, tenant, p).tenant == tenant
  {
    hide Canonical, ManifestCid, PlanManifest, SmallManifest, Blank, ManifestInvalid;
  }

  // ------------------------------------------------ a rollback that loses a live object

  /** What a commit that rolls back leaves: every binding, but not the manifest. */
  lemma CommitRolledBack(env: Env, s: Store, seen: Cache, auth: Auth, r: CommitRequest, now: nat)
    requires RollsBack(env, s, seen, auth, r, now)
    ensures var t := CommitStep(env, s, seen, auth, r, now);
            t.reply.Err? && t.store.namespaces == s.namespaces && r.manifestCid !in t.store.manifests
  {
    hide Authorize, CommitMeta, Quiet, CommitStep, Permitted, VerdictFor, BindAccepted, AllPresent, BindFails, CommitStored;
    CommitStepStores(env, s, seen, auth, r, now);
    var session := s.sessions[r.sessionId];
    var a := Authorize(s, seen, auth, CommitMeta(env, r, session), now);
    AuthorizeQuiet(s, seen, auth, CommitMeta(env, r, session), now);
    QuietParts(s, a.store);
    FailedBindDrops(env, a.store, a.seen, auth, r, session, now);
  }

  lemma FailedBindDrops(env: Env, s: Store, seen: Cache, auth: Auth, r: CommitRequest, session: Session, now: nat)
    requires BindFails(env, s, seen, auth, r, session, now)
    ensures var t := CommitStored(env, s, seen, auth, r, session, now);
            t.reply.Err? && t.store.namespaces == s.namespaces && session.manifestCid !in t.store.manifests
  {
    hide BindStep, CommitBind, CommitFinished, SmallManifest, BindHappened;
    var cid := session.manifestCid;
    var stored := s.(manifests := s.manifests[cid := ManifestRecord(session.manifest, cid, cid, session.storageClass, now)]);
    BindStepShape(env, stored, seen, auth, CommitBind(session.atomicBind.value, r, cid), now, false);
  }

  /** An if_absent bind at a live path is refused. */
  lemma LivePathRefused(
    env: Env, namespaces: map<Text, Namespace>, replay: Cache, seen: Cache, auth: Auth, r: BindRequest, now: nat)
    requires Canonical(r.namespace, r.path).Ok? && r.ifAbsent
    requires var where := Canonical(r.namespace, r.path).value;
             && where.0 in namespaces && where.1 in namespaces[where.0].bindings
             && !namespaces[where.0].bindings[where.1].tombstone
    ensures !BindAccepted(env, namespaces, replay, seen, auth, r, now)
  {
    hide Canonical, VerifyBind, Permitted;
  }

  /**
   Whoever initialises a live object's manifest again, with an if_absent bind at
   its own path, and commits, deletes the manifest and keeps the binding.
   */
  lemma SecondCommitLosesLive(
    env: Env, s: Store, seen: Cache, auth: Auth, q: InitRequest, bind: AtomicBind, commitKey: Text, now: nat)
    requires StoreInv(env, s) && Backed(s.replay, seen) && Unrestricted(env, auth, now)
    requires q.atomicBind == Some(bind) && bind.ifRevision.None? && InitInvalid(env, q) == None
    requires Canonical(bind.namespace, bind.path).Ok?
    requires var cid := ManifestCid(env.h, q.manifest);
             var where := Canonical(bind.namespace, bind.path).value;
             && SpentAtMost(env, s, auth.claims.jti.value, SessionId(cid), Unused)
             && Readable(s, where.0, where.1, cid) && s.manifests[cid].manifest == q.manifest
    ensures var cid := ManifestCid(env.h, q.manifest);
            var where := Canonical(bind.namespace, bind.path).value;
            var init := InitStep(env, s, seen, auth, q, now);
            var t := CommitStep(env, init.store, init.seen, auth, CommitRequest(SessionId(cid), cid, commitKey), now);
            && init.reply.Ok? && t.reply.Err?
            && BoundTo(t.store, where.0, where.1, cid) && cid !in t.store.manifests
  {
    hide InitStep, CommitStep, StoreInv, Backed, Unrestricted, ManifestCid, SessionId, SmallManifest, InitInvalid, Canonical,
      SpentAtMost, Kept, Authorize, AllPresent, ReplayKey, Permitted, VerdictFor, BindAccepted, FreshInit;
    var cid := ManifestCid(env.h, q.manifest);
    var r := CommitRequest(SessionId(cid), cid, commitKey);
    var init := InitStep(env, s, seen, auth, q, now);
    JtiPresent(env, auth, now);
    UnusedIsFresh(env, s, auth, cid);
    InitGoesThrough(env, s, seen, auth, q, now);
    InitFresh(env, s, seen, auth, q, now, bind);
    InitStepParts(env, s, seen, auth, q, now);
    KeptStart(env, s, seen);
    InitStepKeeps(env, s, s, seen, auth, q, now);
    KeptBacked(env, s, init.store, init.seen);
    StoredChunks(env, init.store, cid);
    var meta := CommitMeta(env, r, init.store.sessions[r.sessionId]);
    UnspentKey(env, init.store, auth.claims.jti.value, SessionId(cid), Chunks(0), PutCommitOp, SessionId(cid));
    AuthorizedFresh(env, init.store, init.seen, auth, meta, now);
    AuthorizeIff(init.store, init.seen, auth, meta, now);
    var b := CommitBind(bind, r, cid);
    LivePathRefused(env, init.store.namespaces, init.store.replay, init.seen, auth, b, now);
    assert RollsBack(env, init.store, init.seen, auth, r, now);
    CommitRolledBack(env, init.store, init.seen, auth, r, now);
  }

  /** Keys of another token id are not among those an upload on an empty store records. */
  lemma OtherIdUnspent(env: Env, s: Store, auth: Auth, cid: Text, jti: Text, id: Text)
    requires NewKeys(env, map[], s.replay, auth, Some(cid)) && auth.claims.jti.Some?
    requires BAR !in auth.claims.jti.value && BAR !in jti && jti != auth.claims.jti.value
    ensures SpentAtMost(env, s, jti, id, Unused)
  {
    hide ReplayKey, NewKeys;
    forall op, subject | op in UploadOps() ensures ReplayKey(env.tenant, jti, op, subject) !in s.replay {
      if ReplayKey(env.tenant, jti, op, subject) in s.replay {
        NewKeyIsOwn(env, map[], s.replay, auth, Some(cid), jti, op, subject);
      }
    }
  }

  /** Two more calls: the second client's init and commit. */
  function LossCalls(h: Hash, tenant: Text, p: Plan, first: Auth, second: Auth): seq<Call>
    requires Planned(h, tenant, p)
  {
    UploadCalls(h, tenant, p, first) +
    [Call(0, second, p.now, Init(PlanInit(h, tenant, p))), Call(0, second, p.now, Commit(PlanCommit(h, tenant, p)))]
  }

  /**
   A run of five calls from an empty store: one client uploads and binds an
   object; another initialises the same manifest for the same path and commits.
   Then the path is live and its manifest is gone.
   */
  lemma RollbackLosesLive(h: Hash, tenant: Text, p: Plan, first: Auth, second: Auth)
    requires Planned(h, tenant, p)
    requires Unrestricted(PlanEnv(h, tenant, p), first, p.now) && Unrestricted(PlanEnv(h, tenant, p), second, p.now)
    requires BAR !in first.claims.jti.value && BAR !in second.claims.jti.value && first.claims.jti != second.claims.jti
    ensures var env := PlanEnv(h, tenant, p);
            var cid := ManifestCid(h, PlanManifest(h, tenant, p));
            var where := Canonical(p.namespace, p.path).value;
            var run := LossCalls(h, tenant, p, first, second);
            && Readable(DeploymentAt(env, EMPTY, run, 3).store, where.0, where.1, cid)
            && BoundTo(DeploymentAt(env, EMPTY, run, 5).store, where.0, where.1, cid)
            && cid !in DeploymentAt(env, EMPTY, run, 5).store.manifests
  {
    hide InitStep, ChunkStep, CommitStep, ManifestCid, SmallManifest, ManifestInvalid, Canonical, Blank, StoreInv, Backed, Kept,
      Unrestricted, ChunkCiphertext, Refs, Count, SessionId, PlanManifest, StorageClass, BoundTo, PlanEnv, UploadCalls,
      DeploymentAt, After, PlanUpload, NewKeys, SpentAtMost, InitInvalid;
    var env := PlanEnv(h, tenant, p);
    var cid := ManifestCid(h, PlanManifest(h, tenant, p));
    var calls, run := UploadCalls(h, tenant, p, first), LossCalls(h, tenant, p, first, second);
    PlanUploads(h, tenant, p, first);
    UploadCallsAre(h, tenant, p, first);
    assert |calls| == 3 by { CallsCount(h, tenant, p, first); }
    SamePrefix(env, EMPTY, calls, run, 3);
    var t := PlanUpload(env, EMPTY_STORE, map[], first, p);
    KeptBacked(env, EMPTY_STORE, t.store, t.seen);
    JtiPresent(env, first, p.now);
    JtiPresent(env, second, p.now);
    OtherIdUnspent(env, t.store, first, cid, second.claims.jti.value, SessionId(cid));
    PlanInitValid(h, tenant, p);
    var q := PlanInit(h, tenant, p);
    SecondCommitLosesLive(env, t.store, t.seen, second, q, PlanBind(p), p.commitKey, p.now);
    var init := InitStep(env, t.store, t.seen, second, q, p.now);
    DeploymentSteps(env, EMPTY, run, 4);
    DeploymentSteps(env, EMPTY, run, 5);
    AfterOne(env, t.store, map[0 := t.seen], t.seen, second, p.now, run[3].request);
    AfterOne(env, init.store, map[0 := init.seen], init.seen, second, p.now, run[4].request);
  }

  lemma CallsCount(h: Hash, tenant: Text, p: Plan, auth: Auth)
    requires Planned(h, tenant, p)
    ensures |UploadCalls(h, tenant, p, auth)| == 3
  {
  }

  lemma {:induction false} SamePrefix(env: Env, d: Deployment, run: seq<Call>, run': seq<Call>, n: nat)
    requires n <= |run| && run <= run'
    ensures DeploymentAt(env, d, run', n) == DeploymentAt(env, d, run, n)
    decreases n
  {
    hide After;
    if n > 0 { SamePrefix(env, d, run, run', n - 1); }
  }

  // --------------------------------------------------- a listing outside its token's scope

  /** The store in which ListingEscapesScope finds its object is reached by uploading it under "%E9". */
  lemma EscapeReached(h: Hash, tenant: Text, p: Plan, auth: Auth, now: nat)
    requires Planned(h, tenant, p) && Unrestricted(PlanEnv(h, tenant, p), auth, p.now) && p.path == ESCAPING_PREFIX
    ensures CanonicalPath(ESCAPING_TOKEN) == Good(TOKEN_CANONICAL)
    ensures var env := PlanEnv(h, tenant, p);
            var s := DeploymentAt(env, EMPTY, UploadCalls(h, tenant, p, auth), 3).store;
            var r := ListRequest(p.namespace, Some(ESCAPING_PREFIX), None, None, false);
            var page := ListStep(env, s, map[], EscapingAuth(env, now), r, now).reply;
            && page.Ok? && page.value.items != []
            && (forall b :: b in page.value.items ==> !Under(TOKEN_CANONICAL, b.path))
  {
    hide InitStep, ChunkStep, CommitStep, ManifestCid, SmallManifest, ManifestInvalid, CanonicalPath, Blank, StoreInv, Backed,
      Kept, Unrestricted, ChunkCiphertext, Refs, Count, SessionId, PlanManifest, UploadCalls, DeploymentAt,
      PlanUpload, NewKeys, ListStep, Under, PlanEnv;
    EscapingPrefixes();
    PlanUploads(h, tenant, p, auth);
    UploadCallsAre(h, tenant, p, auth);
    var env := PlanEnv(h, tenant, p);
    var t := PlanUpload(env, EMPTY_STORE, map[], auth, p);
    KeptBacked(env, EMPTY_STORE, t.store, t.seen);
    ListingEscapesScope(env, t.store, map[], p.namespace, now);
  }
}
