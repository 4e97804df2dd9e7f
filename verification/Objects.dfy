/**
 What an object written through bucket and key guarantees: the write changes no
 other path, and afterwards every read of the key returns the written bytes.
 */
module Objects {
  import opened Basics
  import opened Paths
  import opened Records
  import opened Chunker
  import opened Reading
  import opened Namespaces
  import opened Policy
  import opened Service
  import opened ServiceInvariants
  import opened ServiceTheorems
  import opened Distribution
  import opened Uploads

  /** A token that has not initialised the manifest which this write is about to build. */
  predicate FreshUpload(env: Env, s: Store, auth: Auth, m: Manifest) {
    SmallManifest(m) ==> FreshInit(env, s, auth, ManifestCid(env.h, m))
  }

  /** Nor committed it. */
  predicate FreshWrite(env: Env, s: Store, auth: Auth, m: Manifest) {
    SmallManifest(m) ==>
      FreshInit(env, s, auth, ManifestCid(env.h, m)) && FreshCommit(env, s, auth, ManifestCid(env.h, m))
  }

  // --------------------------------------------------------------- one write

  /** Reads leave no replay record behind. */
  lemma ResolveReplay(
    env: Env, s: Store, seen: Cache, auth: Auth, namespace: Text, path: Text, at: Option<nat>,
    ifRevision: Option<nat>, now: nat)
    ensures ResolveStep(env, s, seen, auth, namespace, path, at, ifRevision, now).store.replay == s.replay
  {
    hide Canonical, SnapshotAt, NamespaceOf, Authorize;
    var where := Canonical(namespace, path);
    if where.Ok? { ReadReplay(s, seen, auth, ResolveMeta(env, where.value.0, where.value.1), now); }
  }

  lemma ReadReplay(s: Store, seen: Cache, auth: Auth, meta: Meta, now: nat)
    requires !IsMutation(meta.operation)
    ensures Authorize(s, seen, auth, meta, now).store.replay == s.replay
  {
    hide PolicyDenial, ReplayKey, IsMutation;
  }

  /** The bind that storing an object at bucket and key asks for. */
  function ObjectBind(
    env: DistEnv, bucket: Text, key: Text, m: WireManifest, revision: Option<nat>, spec: Spec, commitKey: Text, now: nat)
    : BindRequest
  {
    UploadBind(env.alpha, m,
               AtomicBindFor(env, bucket, key, ManifestCid(env.alpha.h, m), revision, spec.serverMetadata, now), commitKey)
  }

  ghost predicate Stored(env: Env, s: Store, m: WireManifest, objectCid: Text) {
    var cid := ManifestCid(env.h, m);
    cid in s.manifests && s.manifests[cid].manifest == m && objectCid == cid
  }

  /** Storing an object leaves the namespaces alone or binds exactly its own key, past the lock. */
  lemma StoreObjectShape(
    env: DistEnv, s0: Store, s: Store, seen: Cache, locks: map<Text, Lock>, auth: Auth, bucket: Text, key: Text,
    spec: Spec, staged: seq<Staged>, size: nat, initKey: Text, commitKey: Text, now: nat)
    returns (mid: Store, existing: Option<Binding>)
    requires Kept(env.alpha, s0, s, seen)
    requires FreshUpload(env.alpha, s, auth, BuildManifest(env.alpha.tenant, Refs(staged), size, spec, now))
    ensures var t := StoreObject(env, s, seen, locks, auth, bucket, key, spec, staged, size, initKey, commitKey, now);
            var m := BuildManifest(env.alpha.tenant, Refs(staged), size, spec, now);
            && Kept(env.alpha, s0, t.store, t.seen)
            && mid.namespaces == s.namespaces
            && (t.reply.Ok? ==> SmallManifest(m))
            && (t.store.namespaces != s.namespaces ==>
                  && SmallManifest(m)
                  && (existing.Some? ==> LockRefusal(locks, LockKey(bucket, key), auth, now) == None)
                  && BindHappened(env.alpha, mid, ObjectBind(env, bucket, key, m, RevisionOf(existing), spec, commitKey, now),
                                  t.store))
            && (t.reply.Ok? && FreshWrite(env.alpha, s, auth, m) ==>
                  && BindHappened(env.alpha, mid, ObjectBind(env, bucket, key, m, RevisionOf(existing), spec, commitKey, now),
                                  t.store)
                  && Stored(env.alpha, t.store, m, t.reply.value.objectCid))
  {
    hide Kept, ResolveStep, BuildManifest, Upload, FreshInit, FreshCommit, ManifestCid, BindHappened, UploadBind,
      SmallManifest, ManifestInvalid, AtomicBindFor, LockRefusal, LockKey;
    ResolveStepKeeps(env.alpha, s0, s, seen, auth, bucket, key, None, None, now);
    ResolveReplay(env.alpha, s, seen, auth, bucket, key, None, None, now);
    var e := ResolveStep(env.alpha, s, seen, auth, bucket, key, None, None, now);
    QuietParts(s, e.store);
    existing := Existing(e);
    mid := s;
    var m := BuildManifest(env.alpha.tenant, Refs(staged), size, spec, now);
    if !(existing.Some? && LockRefusal(locks, LockKey(bucket, key), auth, now).Some?) &&
       ManifestInvalid(m).None? && SmallManifest(m) {
      var cid := ManifestCid(env.alpha.h, m);
      SameFreshness(env.alpha, s, e.store, auth, cid);
      var bind := AtomicBindFor(env, bucket, key, cid, RevisionOf(existing), spec.serverMetadata, now);
      mid := UploadShape(env.alpha, s0, e.store, e.seen, auth, m, spec, bind, staged, initKey, commitKey, now);
    }
  }

  lemma SameFreshness(env: Env, s: Store, s': Store, auth: Auth, cid: Text)
    requires s'.replay == s.replay
    ensures FreshInit(env, s, auth, cid) <==> FreshInit(env, s', auth, cid)
    ensures FreshCommit(env, s, auth, cid) <==> FreshCommit(env, s', auth, cid)
  {
    hide ReplayKey, SessionId;
  }

  // ------------------------------------------------------------- write, then read

  /** The key is bound, live, to this manifest. */
  ghost predicate BoundTo(s: Store, bucket: Text, key: Text, cid: Text) {
    && bucket in s.namespaces && key in s.namespaces[bucket].bindings
    && var b := s.namespaces[bucket].bindings[key];
    && b.target == b.manifest == Some(cid) && !b.tombstone
  }

  /**
   A successful write with a fresh token binds the key to the new manifest, and
   the names it was given must then be fixpoints of canonicalisation.
   */
  lemma StoreObjectBinds(
    env: DistEnv, s: Store, seen: Cache, locks: map<Text, Lock>, auth: Auth, bucket: Text, key: Text,
    spec: Spec, staged: seq<Staged>, size: nat, initKey: Text, commitKey: Text, now: nat)
    requires Trusted(env) && StoreInv(env.alpha, s) && Backed(s.replay, seen)
    requires FreshWrite(env.alpha, s, auth, BuildManifest(env.alpha.tenant, Refs(staged), size, spec, now))
    requires StoreObject(env, s, seen, locks, auth, bucket, key, spec, staged, size, initKey, commitKey, now).reply.Ok?
    ensures var t := StoreObject(env, s, seen, locks, auth, bucket, key, spec, staged, size, initKey, commitKey, now);
            var m := BuildManifest(env.alpha.tenant, Refs(staged), size, spec, now);
            && Kept(env.alpha, s, t.store, t.seen)
            && Canonical(bucket, key) == Ok((bucket, key))
            && SmallManifest(m)
            && Stored(env.alpha, t.store, m, t.reply.value.objectCid)
            && BoundTo(t.store, bucket, key, t.reply.value.objectCid)
  {
    hide StoreInv, Backed, Trusted, Kept, StoreObject, BuildManifest, FreshInit, FreshCommit, ManifestCid, BindHappened,
      SmallManifest, Canonical, SessionId, BindRefusal;
    KeptStart(env.alpha, s, seen);
    var m := BuildManifest(env.alpha.tenant, Refs(staged), size, spec, now);
    var t := StoreObject(env, s, seen, locks, auth, bucket, key, spec, staged, size, initKey, commitKey, now);
    var mid, existing := StoreObjectShape(env, s, s, seen, locks, auth, bucket, key, spec, staged, size, initKey, commitKey, now);
    var r := ObjectBind(env, bucket, key, m, RevisionOf(existing), spec, commitKey, now);
    SignedBindPlace(env, mid, r, t.store, bucket, key, ManifestCid(env.alpha.h, m), RevisionOf(existing),
                    spec.serverMetadata, now);
  }

  /** Reading a key that is bound to the chunked object's manifest, however the reader spells the key. */
  lemma BoundReadsBack(
    env: Env, s: Store, seen: Cache, auth: Auth, bucket: Text, key: Text, selector: Selector, m: WireManifest,
    data: Text, range: Option<Range>, now: nat)
    requires StoreInv(env, s) && CollisionFree(env.h)
    requires var cid := ManifestCid(env.h, m); BoundTo(s, bucket, key, cid) && cid in s.manifests
    requires m.chunkRefs == Refs(ChunkCiphertext(env.h, data)) && m.logicalSize == |data| > 0
    requires selector.ByPath? && SelectorComplete(selector)
    requires Canonical(selector.namespace, selector.path) == Ok((bucket, key))
    requires PolicyDenial(auth, ReadMeta(env, GetOp, Resolution(ManifestCid(env.h, m), Some(selector.namespace),
                                                                Some(selector.path))), now).None?
    ensures ReadsAs(GetStep(env, s, seen, auth, selector, range, now).reply, data, range)
  {
    hide StoreInv, CollisionFree, ManifestCid, Canonical, PolicyDenial, ReadRecord, ChunkCiphertext, Refs, SmallManifest,
      Tiles, Body;
    var cid := ManifestCid(env.h, m);
    StoredChunks(env, s, cid);
    ManifestCidIdentifies(env.h, m, s.manifests[cid].manifest);
    SmallSize(m);
    if range.None? || range.value.start <= range.value.end {
      CommittedReadsBack(env, s, cid, m, data, range);
    }
  }

  lemma SmallSize(m: Manifest)
    requires SmallManifest(m)
    ensures m.logicalSize < U64
  {
  }

  // ------------------------------------------------------- until the next mutation

  /** The key is bound to a manifest that is still stored. */
  ghost predicate Readable(s: Store, bucket: Text, key: Text, cid: Text) {
    BoundTo(s, bucket, key, cid) && cid in s.manifests
  }

  /** The request applies a mutation to this path, or is a commit that rolls this manifest back. */
  ghost predicate Touches(
    env: Env, s: Store, seen: Cache, auth: Auth, now: nat, q: Request, bucket: Text, key: Text, cid: Text)
  {
    match q
    case DirectBind(r) =>
      && Canonical(r.namespace, r.path) == Ok((bucket, key))
      && BindStep(env, s, seen, auth, r, now, true).store.namespaces != s.namespaces
    case DirectUnbind(r) =>
      && Canonical(r.namespace, r.path) == Ok((bucket, key))
      && UnbindStep(env, s, seen, auth, r, now).store.namespaces != s.namespaces
    case Commit(r) =>
      && r.sessionId in s.sessions
      && var session := s.sessions[r.sessionId];
      || (session.atomicBind.Some? &&
          Canonical(session.atomicBind.value.namespace, session.atomicBind.value.path) == Ok((bucket, key)) &&
          CommitStep(env, s, seen, auth, r, now).store.namespaces != s.namespaces)
      || (session.manifestCid == cid && RollsBack(env, s, seen, auth, r, now))
    case _ => false
  }

  lemma BindElsewhere(env: Env, s: Store, r: BindRequest, s': Store, bucket: Text, key: Text, cid: Text)
    requires BindHappened(env, s, r, s') && Canonical(r.namespace, r.path) != Ok((bucket, key))
    requires BoundTo(s, bucket, key, cid)
    ensures BoundTo(s', bucket, key, cid)
  {
    hide Canonical, VerifyBind, BindRefusal, RecordCid;
    var where := Canonical(r.namespace, r.path).value;
    assert where == (where.0, where.1);
  }

  lemma UnbindElsewhere(env: Env, s: Store, r: UnbindRequest, s': Store, bucket: Text, key: Text, cid: Text)
    requires UnbindHappened(env, s, r, s') && Canonical(r.namespace, r.path) != Ok((bucket, key))
    requires BoundTo(s, bucket, key, cid)
    ensures BoundTo(s', bucket, key, cid)
  {
    hide Canonical, VerifyUnbind, RecordCid;
    var where := Canonical(r.namespace, r.path).value;
    assert where == (where.0, where.1);
  }

  lemma SameReadable(s: Store, s': Store, bucket: Text, key: Text, cid: Text)
    requires Readable(s, bucket, key, cid) && s'.namespaces == s.namespaces && cid in s'.manifests
    ensures Readable(s', bucket, key, cid)
  {
  }

  lemma CommitStoredReadable(
    env: Env, s: Store, seen: Cache, auth: Auth, r: CommitRequest, session: Session, now: nat, bucket: Text, key: Text,
    cid: Text)
    requires Readable(s, bucket, key, cid)
    requires session.atomicBind.Some? &&
             Canonical(session.atomicBind.value.namespace, session.atomicBind.value.path) == Ok((bucket, key)) ==>
               CommitStored(env, s, seen, auth, r, session, now).store.namespaces == s.namespaces
    requires session.manifestCid == cid ==> !BindFails(env, s, seen, auth, r, session, now)
    ensures Readable(CommitStored(env, s, seen, auth, r, session, now).store, bucket, key, cid)
  {
    hide BindStep, BindHappened, CommitFinished, BoundTo, Canonical;
    var own := session.manifestCid;
    var record := ManifestRecord(session.manifest, own, own, session.storageClass, now);
    var stored := s.(manifests := s.manifests[own := record]);
    CommitFinishedParts(env, stored, r, session, now);
    SameReadable(s, stored, bucket, key, cid);
    SameReadable(s, CommitFinished(env, stored, r, session, now), bucket, key, cid);
    if session.atomicBind.Some? {
      var request := CommitBind(session.atomicBind.value, r, own);
      BindStepShape(env, stored, seen, auth, request, now, false);
      var b := BindStep(env, stored, seen, auth, request, now, false);
      if b.reply.Ok? {
        CommitFinishedParts(env, b.store, r, session, now);
        if b.store.namespaces == s.namespaces {
          SameReadable(s, b.store, bucket, key, cid);
        } else {
          BindElsewhere(env, stored, request, b.store, bucket, key, cid);
        }
        SameReadable(b.store, CommitFinished(env, b.store, r, session, now), bucket, key, cid);
      } else {
        SameReadable(s, b.store.(manifests := b.store.manifests - {own}), bucket, key, cid);
      }
    }
  }

  lemma CommitReadable(
    env: Env, s: Store, seen: Cache, auth: Auth, r: CommitRequest, now: nat, bucket: Text, key: Text, cid: Text)
    requires Readable(s, bucket, key, cid) && !Touches(env, s, seen, auth, now, Commit(r), bucket, key, cid)
    ensures Readable(CommitStep(env, s, seen, auth, r, now).store, bucket, key, cid)
  {
    hide Authorize, BindFails, Readable, AllPresent, CommitStored, CommitMeta, Quiet, CommitStep, RollsBack, Canonical;
    var t := CommitStep(env, s, seen, auth, r, now);
    if CommitStores(env, s, seen, auth, r, now) {
      CommitStepStores(env, s, seen, auth, r, now);
      var session := s.sessions[r.sessionId];
      var meta := CommitMeta(env, r, session);
      AuthorizeQuiet(s, seen, auth, meta, now);
      var a := Authorize(s, seen, auth, meta, now);
      QuietReadable(s, a.store, bucket, key, cid);
      QuietParts(s, a.store);
      CommitStoredReadable(env, a.store, a.seen, auth, r, session, now, bucket, key, cid);
    } else {
      CommitStepStoresNothing(env, s, seen, auth, r, now);
      QuietReadable(s, t.store, bucket, key, cid);
    }
  }

  lemma QuietReadable(s: Store, s': Store, bucket: Text, key: Text, cid: Text)
    requires Readable(s, bucket, key, cid) && Quiet(s, s')
    ensures Readable(s', bucket, key, cid)
  {
  }

  /** A request that does not touch the object leaves it readable. */
  lemma EffectReadable(
    env: Env, s: Store, seen: Cache, auth: Auth, now: nat, q: Request, bucket: Text, key: Text, cid: Text)
    requires StoreInv(env, s) && Backed(s.replay, seen)
    requires Readable(s, bucket, key, cid) && !Touches(env, s, seen, auth, now, q, bucket, key, cid)
    ensures Readable(Effect(env, s, seen, auth, now, q).0, bucket, key, cid)
  {
    hide InitStep, ChunkStep, CommitStep, BindStep, UnbindStep, GetStep, ResolveStep, ListStep, PollStep, StoreInv, Kept,
      Quiet, BindHappened, UnbindHappened, BoundTo, Canonical, RollsBack, SameObjects;
    KeptStart(env, s, seen);
    var s' := Effect(env, s, seen, auth, now, q).0;
    match q
    case Init(r) =>
      InitStepParts(env, s, seen, auth, r, now);
      SameReadable(s, s', bucket, key, cid);
    case Chunk(r, bytes) =>
      ChunkStepParts(env, s, seen, auth, r, bytes, now);
      SameReadable(s, s', bucket, key, cid);
    case Commit(r) => CommitReadable(env, s, seen, auth, r, now, bucket, key, cid);
    case DirectBind(r) => BindReadable(env, s, seen, auth, r, now, bucket, key, cid);
    case DirectUnbind(r) => UnbindReadable(env, s, seen, auth, r, now, bucket, key, cid);
    case Get(selector, range) =>
      GetStepKeeps(env, s, s, seen, auth, selector, range, now);
      QuietReadable(s, s', bucket, key, cid);
    case Resolve(n, p, at, rev) =>
      ResolveStepKeeps(env, s, s, seen, auth, n, p, at, rev, now);
      QuietReadable(s, s', bucket, key, cid);
    case List(r) =>
      ListStepKeeps(env, s, s, seen, auth, r, now);
      QuietReadable(s, s', bucket, key, cid);
    case Subscribe(r, cursor) =>
      PollStepKeeps(env, s, s, seen, auth, r, cursor, now);
      QuietReadable(s, s', bucket, key, cid);
  }

  lemma BindReadable(
    env: Env, s: Store, seen: Cache, auth: Auth, r: BindRequest, now: nat, bucket: Text, key: Text, cid: Text)
    requires Readable(s, bucket, key, cid) && !Touches(env, s, seen, auth, now, DirectBind(r), bucket, key, cid)
    ensures Readable(BindStep(env, s, seen, auth, r, now, true).store, bucket, key, cid)
  {
    hide BindStep, BindHappened, BoundTo, Canonical;
    BindStepShape(env, s, seen, auth, r, now, true);
    var s' := BindStep(env, s, seen, auth, r, now, true).store;
    if s'.namespaces == s.namespaces { SameReadable(s, s', bucket, key, cid); }
    else { BindElsewhere(env, s, r, s', bucket, key, cid); }
  }

  lemma UnbindReadable(
    env: Env, s: Store, seen: Cache, auth: Auth, r: UnbindRequest, now: nat, bucket: Text, key: Text, cid: Text)
    requires Readable(s, bucket, key, cid) && !Touches(env, s, seen, auth, now, DirectUnbind(r), bucket, key, cid)
    ensures Readable(UnbindStep(env, s, seen, auth, r, now).store, bucket, key, cid)
  {
    hide UnbindStep, UnbindHappened, BoundTo, Canonical;
    UnbindStepShape(env, s, seen, auth, r, now);
    var s' := UnbindStep(env, s, seen, auth, r, now).store;
    if s'.namespaces == s.namespaces { SameReadable(s, s', bucket, key, cid); }
    else { UnbindElsewhere(env, s, r, s', bucket, key, cid); }
  }

  ghost predicate CallTouches(env: Env, d: Deployment, c: Call, bucket: Text, key: Text, cid: Text) {
    c.Call? && Touches(env, d.store, d.CacheOf(c.instance), c.auth, c.now, c.request, bucket, key, cid)
  }

  lemma {:induction false} RunReadable(
    env: Env, d: Deployment, run: seq<Call>, n: nat, bucket: Text, key: Text, cid: Text)
    requires Sound(env, d) && n <= |run| && Readable(d.store, bucket, key, cid)
    requires forall i :: 0 <= i < n ==> !CallTouches(env, DeploymentAt(env, d, run, i), run[i], bucket, key, cid)
    ensures Readable(DeploymentAt(env, d, run, n).store, bucket, key, cid)
    decreases n
  {
    hide Readable, Touches, Effect, DeploymentAt, StoreInv, Evolves;
    DeploymentSteps(env, d, run, n);
    if n > 0 {
      RunReadable(env, d, run, n - 1, bucket, key, cid);
      RunKeeps(env, d, run, 0, n - 1);
      var before := DeploymentAt(env, d, run, n - 1);
      var c := run[n - 1];
      if c.Call? { EffectReadable(env, before.store, before.CacheOf(c.instance), c.auth, c.now, c.request, bucket, key, cid); }
    }
  }

  /** The manifest that writing this payload builds. */
  function PayloadManifest(env: Env, payload: Text, spec: Spec, now: nat): Manifest {
    BuildManifest(env.tenant, Refs(ChunkCiphertext(env.h, payload)), |payload|, spec, now)
  }

  lemma PayloadManifestParts(env: Env, payload: Text, spec: Spec, now: nat)
    ensures PayloadManifest(env, payload, spec, now).chunkRefs == Refs(ChunkCiphertext(env.h, payload))
    ensures PayloadManifest(env, payload, spec, now).logicalSize == |payload|
  {
    hide ChunkCiphertext, Refs;
  }

  /**
   After the write, any sound deployment over its store makes a run in which no
   call touches the object: wherever the run stands, the reader's get returns the
   payload, or the slice its range asks for, in fragments that tile it.
   */
  ghost predicate ReadsBack(
    env: Env, t: Step<PutReply>, d: Deployment, bucket: Text, key: Text, run: seq<Call>, payload: Text, reader: Auth,
    selector: Selector, range: Option<Range>, later: nat)
    requires t.reply.Ok?
  {
    var cid := t.reply.value.objectCid;
    && Sound(env, d) && d.store == t.store
    && (forall i :: 0 <= i < |run| ==> !CallTouches(env, DeploymentAt(env, d, run, i), run[i], bucket, key, cid))
    && MayRead(env, cid, bucket, key, reader, selector, later)
    ==>
    forall cache ::
      ReadsAs(GetStep(env, DeploymentAt(env, d, run, |run|).store, cache, reader, selector, range, later).reply,
              payload, range)
  }

  /** The selector spells this key and the reader's token allows it. */
  predicate MayRead(env: Env, cid: Text, bucket: Text, key: Text, reader: Auth, selector: Selector, now: nat) {
    && selector.ByPath? && SelectorComplete(selector)
    && Canonical(selector.namespace, selector.path) == Ok((bucket, key))
    && PolicyDenial(reader, ReadMeta(env, GetOp, Resolution(cid, Some(selector.namespace), Some(selector.path))),
                    now).None?
  }

  lemma StoreThenGet(
    env: DistEnv, s: Store, seen: Cache, locks: map<Text, Lock>, auth: Auth, bucket: Text, key: Text, spec: Spec,
    payload: Text, initKey: Text, commitKey: Text, now: nat,
    d: Deployment, run: seq<Call>, reader: Auth, selector: Selector, range: Option<Range>, later: nat)
    requires Trusted(env) && CollisionFree(env.alpha.h) && StoreInv(env.alpha, s) && Backed(s.replay, seen)
    requires FreshWrite(env.alpha, s, auth, PayloadManifest(env.alpha, payload, spec, now)) && payload != []
    requires StoreObject(env, s, seen, locks, auth, bucket, key, spec, ChunkCiphertext(env.alpha.h, payload), |payload|,
                         initKey, commitKey, now).reply.Ok?
    ensures ReadsBack(env.alpha,
                      StoreObject(env, s, seen, locks, auth, bucket, key, spec, ChunkCiphertext(env.alpha.h, payload),
                                  |payload|, initKey, commitKey, now),
                      d, bucket, key, run, payload, reader, selector, range, later)
    ensures Canonical(bucket, key) == Ok((bucket, key))
  {
    hide StoreInv, Backed, Trusted, CollisionFree, FreshWrite, StoreObject, ChunkCiphertext, Refs, Canonical, PolicyDenial,
      CallTouches, DeploymentAt, GetStep, ReadsAs, Kept, BoundTo, SmallManifest, ManifestCid, BuildManifest, Evolves;
    var m := PayloadManifest(env.alpha, payload, spec, now);
    StoreObjectBinds(env, s, seen, locks, auth, bucket, key, spec, ChunkCiphertext(env.alpha.h, payload), |payload|,
                     initKey, commitKey, now);
    var t := StoreObject(env, s, seen, locks, auth, bucket, key, spec, ChunkCiphertext(env.alpha.h, payload), |payload|,
                         initKey, commitKey, now);
    var cid := ManifestCid(env.alpha.h, m);
    if Sound(env.alpha, d) && d.store == t.store &&
       (forall i :: 0 <= i < |run| ==> !CallTouches(env.alpha, DeploymentAt(env.alpha, d, run, i), run[i], bucket, key, cid)) &&
       MayRead(env.alpha, cid, bucket, key, reader, selector, later) {
      RunKeeps(env.alpha, d, run, 0, |run|);
      RunReadable(env.alpha, d, run, |run|, bucket, key, cid);
      PayloadManifestParts(env.alpha, payload, spec, now);
      var s' := DeploymentAt(env.alpha, d, run, |run|).store;
      forall cache ensures ReadsAs(GetStep(env.alpha, s', cache, reader, selector, range, later).reply, payload, range) {
        BoundReadsBack(env.alpha, s', cache, reader, bucket, key, selector, m, payload, range, later);
      }
    }
  }

  /**
   After a successful put_object the key reads back as exactly the payload, any
   range of it as exactly that slice, in every later state of every run whose
   calls do not touch the object. Names that are not their own canonical form
   cannot be put.
   */
  lemma PutThenGet(
    env: DistEnv, s: Store, seen: Cache, buckets: set<Text>, locks: map<Text, Lock>, auth: Auth, bucket: Text, key: Text,
    spec: Spec, idempotencyKey: Text, payload: Text, now: nat,
    d: Deployment, run: seq<Call>, reader: Auth, selector: Selector, range: Option<Range>, later: nat)
    requires Trusted(env) && CollisionFree(env.alpha.h) && StoreInv(env.alpha, s) && Backed(s.replay, seen)
    requires FreshWrite(env.alpha, s, auth, PayloadManifest(env.alpha, payload, spec, now))
    requires PutObject(env, s, seen, buckets, locks, auth, bucket, key, spec, idempotencyKey, payload, now).reply.Ok?
    ensures CanonicalPath(bucket).Good? && CanonicalPath(key).Good?
    ensures var b, k := CanonicalPath(bucket).value, CanonicalPath(key).value;
            && Canonical(b, k) == Ok((b, k))
            && ReadsBack(env.alpha,
                         PutObject(env, s, seen, buckets, locks, auth, bucket, key, spec, idempotencyKey, payload, now),
                         d, b, k, run, payload, reader, selector, range, later)
  {
    hide StoreInv, Backed, Trusted, CollisionFree, FreshWrite, StoreObject, ScopeRefusal, ChunkCiphertext, CanonicalPath,
      Canonical, ReadsBack, PayloadManifest, Blank;
    StoreThenGet(env, s, seen, locks, auth, CanonicalPath(bucket).value, CanonicalPath(key).value, spec, payload,
                 idempotencyKey, idempotencyKey, now, d, run, reader, selector, range, later);
  }

  /** A completed multipart upload reads back as the concatenation of its parts. */
  lemma CompleteThenGet(
    env: DistEnv, s: Store, seen: Cache, buckets: set<Text>, locks: map<Text, Lock>, auth: Auth, bucket: Text, key: Text,
    spec: Spec, idempotencyKey: Text, parts: seq<Text>, now: nat,
    d: Deployment, run: seq<Call>, reader: Auth, selector: Selector, range: Option<Range>, later: nat)
    requires Trusted(env) && CollisionFree(env.alpha.h) && StoreInv(env.alpha, s) && Backed(s.replay, seen)
    requires FreshWrite(env.alpha, s, auth, PayloadManifest(env.alpha, Concat(parts), spec, now))
    requires CompleteMultipart(env, s, seen, buckets, locks, auth, bucket, key, spec, idempotencyKey, parts, now).reply.Ok?
    ensures CanonicalPath(bucket).Good?
    ensures ReadsBack(env.alpha,
                      CompleteMultipart(env, s, seen, buckets, locks, auth, bucket, key, spec, idempotencyKey, parts, now),
                      d, CanonicalPath(bucket).value, key, run, Concat(parts), reader, selector, range, later)
  {
    hide StoreInv, Backed, Trusted, CollisionFree, FreshWrite, StoreObject, ScopeRefusal, ChunkCiphertext, Concat,
      Canonical, ReadsBack, PayloadManifest, Count, Ascii, CanonicalPath, Blank;
    StoreThenGet(env, s, seen, locks, auth, CanonicalPath(bucket).value, key, spec, Concat(parts), Ascii("complete-init-") + idempotencyKey,
                 Ascii("complete-") + idempotencyKey, now, d, run, reader, selector, range, later);
  }
}
