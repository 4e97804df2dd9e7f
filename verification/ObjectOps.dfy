/**
 The object operations, said from the outside: who may ask, what a put records,
 what a copy copies, what a delete leaves, what a get answers.
 */
module ObjectOps {
  import opened Basics
  import opened Paths
  import opened Records
  import opened Chunker
  import opened Namespaces
  import opened Policy
  import opened Service
  import opened ServiceInvariants
  import opened ServiceTheorems
  import opened Access
  import opened Clients
  import opened Replies
  import opened Distribution
  import opened Uploads
  import opened Objects
  import opened Completeness
  import opened Tokens
  import opened Sites
  import opened Locks
  import opened Retention

  // ------------------------------------------------------------------------ who may ask

  lemma RequireBucketIff(buckets: set<Text>, bucket: Text, b: Text)
    ensures RequireBucket(buckets, bucket) == Ok(b) <==> NamesBucket(bucket, b) && b in buckets
  {
    hide CanonicalBucket, NamesBucket;
    CanonicalBucketIff(bucket, b);
  }

  /** The request names an existing bucket and a key, and the caller may change them. */
  ghost predicate MayChange(tenant: Text, buckets: set<Text>, auth: Auth, bucket: Text, key: Text) {
    && CanonicalPath(key).Good?
    && exists b :: b in buckets && NamesBucket(bucket, b) && MayMutate(tenant, auth, b, CanonicalPath(key).value)
  }

  /** The bucket and key that a request names pass the checks exactly then. */
  lemma MayChangeIff(tenant: Text, buckets: set<Text>, auth: Auth, bucket: Text, key: Text)
    ensures MayChange(tenant, buckets, auth, bucket, key) <==>
            && RequireBucket(buckets, bucket).Ok? && ObjectKey(key).Ok?
            && ScopeRefusal(tenant, auth, MutationScope(), RequireBucket(buckets, bucket).value, ObjectKey(key).value) == None
  {
    hide CanonicalPath, NamesBucket, MayMutate, ScopeRefusal, RequireBucket;
    forall b ensures RequireBucket(buckets, bucket) == Ok(b) <==> NamesBucket(bucket, b) && b in buckets {
      RequireBucketIff(buckets, bucket, b);
    }
    if CanonicalPath(key).Good? {
      forall b ensures ScopeRefusal(tenant, auth, MutationScope(), b, CanonicalPath(key).value) == None <==>
                       MayMutate(tenant, auth, b, CanonicalPath(key).value)
      {
        ScopeRefusalIff(tenant, auth, b, CanonicalPath(key).value);
      }
    }
    if RequireBucket(buckets, bucket).Ok? {
      assert RequireBucket(buckets, bucket) == Ok(RequireBucket(buckets, bucket).value);
    }
  }

  /** Nobody else puts, deletes or copies anything: the store stays as it is. */
  lemma OnlyThoseWhoMayChange(env: DistEnv, x: Site, a: Action)
    requires a.op.Put? || a.op.Delete? || a.op.Copy?
    requires var bucket := if a.op.Copy? then a.op.toBucket else a.op.bucket;
             var key := if a.op.Copy? then a.op.toKey else a.op.key;
             !MayChange(env.alpha.tenant, x.buckets, a.auth, bucket, key)
    ensures Acted(env, x, a) == x
  {
    hide StoreObject, RequireBucket, ObjectKey, ScopeRefusal, ResolveStep, UnbindStep, BindStep, LockRefusal, LockKey, BindRecord,
      MayChange, ChunkCiphertext;
    if a.op.Copy? {
      MayChangeIff(env.alpha.tenant, x.buckets, a.auth, a.op.toBucket, a.op.toKey);
    } else {
      MayChangeIff(env.alpha.tenant, x.buckets, a.auth, a.op.bucket, a.op.key);
    }
  }

  // --------------------------------------------------------------------- what a put records

  /** The session's storage class survives its chunks. */
  lemma ChunkKeepsClass(
    env: Env, s: Store, seen: Cache, auth: Auth, r: ChunkRequest, bytes: Text, now: nat, id: Text)
    requires id in s.sessions
    ensures var t := ChunkStep(env, s, seen, auth, r, bytes, now);
            id in t.store.sessions && t.store.sessions[id].storageClass == s.sessions[id].storageClass
  {
    hide Authorize, ChunkInvalid, ChunkMeta, SmallManifest, Quiet;
    if ChunkInvalid(s, env.h, r, bytes).None? {
      ChunkSession(s, env.h, r, bytes);
      var meta := ChunkMeta(env, r, s.sessions[r.sessionId], |bytes|);
      AuthorizeQuiet(s, seen, auth, meta, now);
      QuietParts(s, Authorize(s, seen, auth, meta, now).store);
    }
  }

  lemma {:induction false} LoopKeepsClass(
    env: Env, s: Store, seen: Cache, auth: Auth, id: Text, staged: seq<Staged>, i: nat, now: nat)
    requires i <= |staged| && id in s.sessions
    ensures var t := UploadChunks(env, s, seen, auth, id, staged, i, now);
            id in t.store.sessions && t.store.sessions[id].storageClass == s.sessions[id].storageClass
    decreases |staged| - i
  {
    hide ChunkStep;
    if i < |staged| {
      var c := staged[i].chunk;
      var r := ChunkRequest(id, c.index, c.cid, c.offset, c.storedLen);
      ChunkKeepsClass(env, s, seen, auth, r, staged[i].bytes, now, id);
      var t := ChunkStep(env, s, seen, auth, r, staged[i].bytes, now);
      if t.reply.Ok? { LoopKeepsClass(env, t.store, t.seen, auth, id, staged, i + 1, now); }
    }
  }

  /** An upload that succeeds with a fresh token records its manifest under the class it was given. */
  lemma UploadRecords(
    env: Env, s: Store, seen: Cache, auth: Auth, m: WireManifest, spec: Spec, bind: AtomicBind, staged: seq<Staged>,
    initKey: Text, commitKey: Text, now: nat)
    requires StoreInv(env, s) && Backed(s.replay, seen)
    requires FreshInit(env, s, auth, ManifestCid(env.h, m)) && FreshCommit(env, s, auth, ManifestCid(env.h, m))
    requires Upload(env, s, seen, auth, m, spec, bind, staged, initKey, commitKey, now).reply.Ok?
    ensures var t := Upload(env, s, seen, auth, m, spec, bind, staged, initKey, commitKey, now);
            var cid := ManifestCid(env.h, m);
            cid in t.store.manifests && t.store.manifests[cid] == ManifestRecord(m, cid, cid, StorageClass(spec), now)
  {
    hide InitStep, UploadChunks, CommitStep, ManifestCid, SessionId, StorageClass, SmallManifest, StoreInv, Backed, Kept,
      SessionIs, FreshInit, FreshCommit, CommitStores, InitInvalid, PolicyDenial, Authorize;
    var cid := ManifestCid(env.h, m);
    var q := UploadInit(m, spec, bind, initKey);
    var init := InitStep(env, s, seen, auth, q, now);
    InitFresh(env, s, seen, auth, q, now, bind);
    FreshIsUnspent(env, s, auth, cid);
    FreshSession(env, s, seen, auth, q, now);
    KeptStart(env, s, seen);
    InitStepKeeps(env, s, s, seen, auth, q, now);
    InitLeavesCommitFresh(env, s, seen, auth, q, now, cid);
    var id := SessionId(cid);
    LoopKeepsClass(env, init.store, init.seen, auth, id, staged, 0, now);
    UploadKeepsSession(env, s, init.store, init.seen, auth, id, staged, 0, now, cid, m, bind);
    ChunksLeaveCommitFresh(env, init.store, init.seen, auth, id, staged, 0, now, cid);
    var up := UploadChunks(env, init.store, init.seen, auth, id, staged, 0, now);
    KeptBacked(env, s, up.store, up.seen);
    var r := CommitRequest(id, cid, commitKey);
    FreshCommitStores(env, up.store, up.seen, auth, r, now, cid, m, bind);
    CommitWrites(env, up.store, up.seen, auth, r, now);
    SessionManifest(up.store, cid, m, bind);
  }

  lemma SessionManifest(s: Store, cid: Text, m: WireManifest, bind: AtomicBind)
    requires SessionIs(s, cid, m, bind)
    ensures SessionId(cid) in s.sessions && s.sessions[SessionId(cid)].manifest == m
  {
    hide SessionId, SmallManifest;
  }

  lemma FreshIsUnspent(env: Env, s: Store, auth: Auth, cid: Text)
    requires FreshInit(env, s, auth, cid)
    ensures auth.claims.jti.Some? ==> !InitSpent(env, s.replay, auth.claims.jti.value, cid)
  {
    hide ReplayKey;
  }

  /**
   A successful put_object records the payload's chunks and size and everything
   the caller said about the object, under the class it named or "hot".
   */
  lemma PutRecords(
    env: DistEnv, s: Store, seen: Cache, buckets: set<Text>, locks: map<Text, Lock>, auth: Auth, bucket: Text, key: Text,
    spec: Spec, idempotencyKey: Text, payload: Text, now: nat)
    requires StoreInv(env.alpha, s) && Backed(s.replay, seen) && Trusted(env)
    requires FreshWrite(env.alpha, s, auth, PayloadManifest(env.alpha, payload, spec, now))
    requires PutObject(env, s, seen, buckets, locks, auth, bucket, key, spec, idempotencyKey, payload, now).reply.Ok?
    ensures MayChange(env.alpha.tenant, buckets, auth, bucket, key) && payload != []
    ensures var t := PutObject(env, s, seen, buckets, locks, auth, bucket, key, spec, idempotencyKey, payload, now);
            && t.reply.value.objectCid == t.reply.value.manifestCid && t.reply.value.objectCid in t.store.manifests
            && var record := t.store.manifests[t.reply.value.objectCid];
            && record.storageClass == (if Blank(spec.storageClass) then Ascii("hot") else spec.storageClass)
            && record.committedAt == now
            && record.manifest ==
               Manifest(1, env.alpha.tenant, |payload|, |payload|, Ascii("fixed-1m"),
                        Refs(ChunkCiphertext(env.alpha.h, payload)), spec.contentType, now,
                        EncryptionDescriptor(spec.profileId, spec.keyPolicyId, spec.contentSuite, spec.wrappingSuite,
                                             spec.visibility, spec.wrappedKeys, spec.serverMetadata, spec.clientMetadata))
  {
    hide StoreInv, Backed, Trusted, FreshInit, FreshCommit, StoreObject, ScopeRefusal, ChunkCiphertext, Refs, RequireBucket,
      ObjectKey, MayChange, Ascii, Blank, ManifestCid, SmallManifest, Kept, Canonical, BoundTo;
    MayChangeIff(env.alpha.tenant, buckets, auth, bucket, key);
    var b, k := RequireBucket(buckets, bucket).value, ObjectKey(key).value;
    StoreObjectBinds(env, s, seen, locks, auth, b, k, spec, ChunkCiphertext(env.alpha.h, payload), |payload|,
                     idempotencyKey, idempotencyKey, now);
    StoreRecords(env, s, seen, locks, auth, b, k, spec, payload, idempotencyKey, idempotencyKey, now);
  }

  lemma StoreRecords(
    env: DistEnv, s: Store, seen: Cache, locks: map<Text, Lock>, auth: Auth, bucket: Text, key: Text, spec: Spec,
    payload: Text, initKey: Text, commitKey: Text, now: nat)
    requires StoreInv(env.alpha, s) && Backed(s.replay, seen)
    requires FreshWrite(env.alpha, s, auth, PayloadManifest(env.alpha, payload, spec, now))
    requires StoreObject(env, s, seen, locks, auth, bucket, key, spec, ChunkCiphertext(env.alpha.h, payload), |payload|,
                         initKey, commitKey, now).reply.Ok?
    ensures SmallManifest(PayloadManifest(env.alpha, payload, spec, now))
    ensures var t := StoreObject(env, s, seen, locks, auth, bucket, key, spec, ChunkCiphertext(env.alpha.h, payload),
                                 |payload|, initKey, commitKey, now);
            var m := PayloadManifest(env.alpha, payload, spec, now);
            var cid := ManifestCid(env.alpha.h, m);
            && cid in t.store.manifests && t.store.manifests[cid] == ManifestRecord(m, cid, cid, StorageClass(spec), now)
            && t.reply.value.manifestCid == cid
  {
    hide Kept, ResolveStep, BuildManifest, FreshInit, FreshCommit, ManifestCid, SmallManifest, ManifestInvalid, AtomicBindFor,
      LockRefusal, LockKey, StoreInv, Backed, ChunkCiphertext, Refs, Quiet, Canonical, StorageClass, Upload;
    KeptStart(env.alpha, s, seen);
    ResolveStepKeeps(env.alpha, s, s, seen, auth, bucket, key, None, None, now);
    ResolveReplay(env.alpha, s, seen, auth, bucket, key, None, None, now);
    var e := ResolveStep(env.alpha, s, seen, auth, bucket, key, None, None, now);
    KeptBacked(env.alpha, s, e.store, e.seen);
    var m := PayloadManifest(env.alpha, payload, spec, now);
    var cid := ManifestCid(env.alpha.h, m);
    SameFreshness(env.alpha, s, e.store, auth, cid);
    var bind := AtomicBindFor(env, bucket, key, cid, RevisionOf(Existing(e)), spec.serverMetadata, now);
    UploadRecords(env.alpha, e.store, e.seen, auth, m, spec, bind, ChunkCiphertext(env.alpha.h, payload), initKey, commitKey,
                  now);
    UploadNames(env.alpha, e.store, e.seen, auth, m, spec, bind, ChunkCiphertext(env.alpha.h, payload), initKey, commitKey,
                now);
  }

  lemma UploadNames(
    env: Env, s: Store, seen: Cache, auth: Auth, m: WireManifest, spec: Spec, bind: AtomicBind, staged: seq<Staged>,
    initKey: Text, commitKey: Text, now: nat)
    ensures var t := Upload(env, s, seen, auth, m, spec, bind, staged, initKey, commitKey, now);
            t.reply.Ok? ==> t.reply.value.manifestCid == ManifestCid(env.h, m)
  {
    hide InitStep, UploadChunks, CommitStep, ManifestCid, StorageClass, SmallManifest;
  }

  // -------------------------------------------------------------------------- copies

  /** What a resolve without a revision answers when it answers. */
  lemma ResolvedNow(env: Env, s: Store, seen: Cache, auth: Auth, n: Text, p: Text, now: nat)
    requires ResolveStep(env, s, seen, auth, n, p, None, None, now).reply.Ok?
    ensures Canonical(n, p).Ok?
    ensures var where := Canonical(n, p).value;
            var bindings := NamespaceOf(s, where.0).bindings;
            where.1 in bindings && ResolveStep(env, s, seen, auth, n, p, None, None, now).reply == Ok(bindings[where.1])
  {
    hide Allowed, NamespaceOf, ResolveStep;
    CanonicalWhenResolved(env, s, seen, auth, n, p, now);
    ResolveAnswers(env, s, seen, auth, n, p, None, None, now);
    PresentIsCurrent(NamespaceOf(s, Canonical(n, p).value.0));
    hide Canonical, SnapshotAt;
  }

  lemma CanonicalWhenResolved(env: Env, s: Store, seen: Cache, auth: Auth, n: Text, p: Text, now: nat)
    requires ResolveStep(env, s, seen, auth, n, p, None, None, now).reply.Ok?
    ensures Canonical(n, p).Ok?
  {
    hide Canonical, Authorize, SnapshotAt, NamespaceOf;
  }

  /** The destination has the source's target, and only the destination has changed. */
  ghost predicate Copied(s: Store, t: Step<BindReply>, fb: Text, fk: Text, tb: Text, tk: Text) {
    && t.reply.Ok? && Canonical(fb, fk).Ok?
    && var from := Canonical(fb, fk).value;
    && var source := NamespaceOf(s, from.0).bindings;
    && from.1 in source && !source[from.1].tombstone && source[from.1].target.Some?
    && OnlyPath(s, t.store, tb, tk) && tk in t.store.namespaces[tb].bindings
    && var copy := t.store.namespaces[tb].bindings[tk];
    && copy.target == copy.manifest == source[from.1].target && !copy.tombstone && copy.metadata == map[]
    && copy.revision == t.reply.value.revision
  }

  /** A copy that takes effect binds the destination to what the source names, past the destination's lock. */
  lemma CopyCopies(
    env: DistEnv, s: Store, seen: Cache, buckets: set<Text>, locks: map<Text, Lock>, auth: Auth, fromBucket: Text,
    fromKey: Text, readRefusal: Option<ApiError>, toBucket: Text, toKey: Text, idempotencyKey: Text, now: nat)
    requires Trusted(env) && StoreInv(env.alpha, s) && Backed(s.replay, seen)
    requires CopyObject(env, s, seen, buckets, locks, auth, fromBucket, fromKey, readRefusal, toBucket, toKey,
                        idempotencyKey, now).store.namespaces != s.namespaces
    ensures MayChange(env.alpha.tenant, buckets, auth, toBucket, toKey) && readRefusal.None?
    ensures RequireBucket(buckets, fromBucket).Ok? && ObjectKey(fromKey).Ok?
    ensures RequireBucket(buckets, toBucket).Ok? && ObjectKey(toKey).Ok?
    ensures var fb, fk := RequireBucket(buckets, fromBucket).value, ObjectKey(fromKey).value;
            var tb, tk := RequireBucket(buckets, toBucket).value, ObjectKey(toKey).value;
            && LockRefusal(locks, LockKey(tb, tk), auth, now) == None
            && Copied(s, CopyObject(env, s, seen, buckets, locks, auth, fromBucket, fromKey, readRefusal, toBucket, toKey,
                                    idempotencyKey, now), fb, fk, tb, tk)
  {
    hide StoreInv, Backed, RequireBucket, ObjectKey, ScopeRefusal, Kept, LockKey, LockRefusal, ResolveStep, BindStep,
      Quiet, BindRecord, MayChange, Canonical, Trusted, NamespaceOf, Copied;
    MayChangeIff(env.alpha.tenant, buckets, auth, toBucket, toKey);
    KeptStart(env.alpha, s, seen);
    var fb, tb := RequireBucket(buckets, fromBucket), RequireBucket(buckets, toBucket);
    var fk, tk := ObjectKey(fromKey), ObjectKey(toKey);
    if fb.Ok? && fk.Ok? && tb.Ok? && tk.Ok? {
      ResolveStepKeeps(env.alpha, s, s, seen, auth, fb.value, fk.value, None, None, now);
      var source := ResolveStep(env.alpha, s, seen, auth, fb.value, fk.value, None, None, now);
      QuietParts(s, source.store);
      ResolveStepKeeps(env.alpha, s, source.store, source.seen, auth, tb.value, tk.value, None, None, now);
      var e := ResolveStep(env.alpha, source.store, source.seen, auth, tb.value, tk.value, None, None, now);
      QuietParts(source.store, e.store);
      KeptBacked(env.alpha, s, e.store, e.seen);
      if source.reply.Ok? && source.reply.value.target.Some? {
        var target, revision := source.reply.value.target.value, RevisionOf(Existing(e));
        var r := CopyRequest(env, tb.value, tk.value, target, revision, idempotencyKey, now);
        if BindStep(env.alpha, e.store, e.seen, auth, r, now, true).store.namespaces != e.store.namespaces {
          ResolvedNow(env.alpha, s, seen, auth, fb.value, fk.value, now);
          CopyBinds(env, s, e.store, e.seen, auth, fb.value, fk.value, tb.value, tk.value, target, revision, idempotencyKey,
                    now);
        }
      }
    }
  }

  lemma CopyBinds(
    env: DistEnv, s: Store, s1: Store, seen: Cache, auth: Auth, fb: Text, fk: Text, tb: Text, tk: Text, target: Text,
    revision: Option<nat>, idempotencyKey: Text, now: nat)
    requires Trusted(env) && StoreInv(env.alpha, s1) && s1.namespaces == s.namespaces && Canonical(fb, fk).Ok?
    requires var from := Canonical(fb, fk).value;
             var source := NamespaceOf(s, from.0).bindings;
             from.1 in source && !source[from.1].tombstone && source[from.1].target == Some(target)
    requires var r := CopyRequest(env, tb, tk, target, revision, idempotencyKey, now);
             BindStep(env.alpha, s1, seen, auth, r, now, true).store.namespaces != s1.namespaces
    ensures var r := CopyRequest(env, tb, tk, target, revision, idempotencyKey, now);
            Copied(s, BindStep(env.alpha, s1, seen, auth, r, now, true), fb, fk, tb, tk)
  {
    hide StoreInv, BindStep, Canonical, RecordCid, Blank, OnlyPath;
    var r := CopyRequest(env, tb, tk, target, revision, idempotencyKey, now);
    var m := BindWrites(env.alpha, s1, seen, auth, r, now, true);
    assert env.alpha.verify(r.signedRecord) == Some(BindRecord(env.alpha.tenant, tb, tk, target, revision, map[], now));
    OnlyPathSame(s, s1, BindStep(env.alpha, s1, seen, auth, r, now, true).store, tb, tk);
  }

  lemma OnlyPathSame(s: Store, s1: Store, s': Store, n: Text, p: Text)
    requires OnlyPath(s1, s', n, p) && s1.namespaces == s.namespaces
    ensures OnlyPath(s, s', n, p)
  {
  }

  /** The names of a copy are canonical and in existing buckets, and the caller may read the one and change the other. */
  ghost predicate CopyInOrder(
    env: DistEnv, s: Store, buckets: set<Text>, auth: Auth, fb: Text, fk: Text, tb: Text, tk: Text, now: nat)
  {
    && fb in buckets && tb in buckets && NamesBucket(fb, fb) && NamesBucket(tb, tb)
    && Canonical(fb, fk) == Ok((fb, fk)) && Canonical(tb, tk) == Ok((tb, tk)) && !Blank(tk)
    && MayMutate(env.alpha.tenant, auth, tb, tk)
    && Unrestricted(env.alpha, auth, now) && NeverUsed(env.alpha, s, auth.claims.jti.value)
  }

  /** Then it goes through exactly when the source is live, its object stored, and the destination not locked. */
  lemma CopyGoesThroughIff(
    env: DistEnv, s: Store, seen: Cache, buckets: set<Text>, locks: map<Text, Lock>, auth: Auth, fb: Text, fk: Text,
    tb: Text, tk: Text, idempotencyKey: Text, now: nat)
    requires Trusted(env) && StoreInv(env.alpha, s) && Backed(s.replay, seen)
    requires CopyInOrder(env, s, buckets, auth, fb, fk, tb, tk, now)
    ensures CopyObject(env, s, seen, buckets, locks, auth, fb, fk, None, tb, tk, idempotencyKey, now).reply.Ok? <==>
            && var source := LiveBinding(s, fb, fk);
            && source.Some? && source.value.target.Some? && source.value.target.value != []
            && source.value.target.value in s.manifests
            && LockRefusal(locks, LockKey(tb, tk), auth, now) == None
  {
    hide StoreInv, Backed, ScopeRefusal, LockKey, LockRefusal, ResolveStep, BindStep, NeverUsed, Unrestricted,
      BindRecord, Canonical, Trusted, NamespaceOf, Blank, MayMutate, NamesBucket, RequireBucket, PolicyDenial, LiveBinding;
    RequireBucketIff(buckets, fb, fb);
    RequireBucketIff(buckets, tb, tb);
    KeysCanonical(fb, fk);
    KeysCanonical(tb, tk);
    ScopeRefusalIff(env.alpha.tenant, auth, tb, tk);
    JtiPresent(env.alpha, auth, now);
    UnrestrictedAllowed(env.alpha, auth, ResolveMeta(env.alpha, fb, fk), now);
    UnrestrictedAllowed(env.alpha, auth, ResolveMeta(env.alpha, tb, tk), now);
    ResolveSees(env.alpha, s, seen, auth, fb, fk, now);
    ResolveSees(env.alpha, s, seen, auth, tb, tk, now);
    var source := LiveBinding(s, fb, fk);
    if source.Some? && source.value.target.Some? {
      CopyBindGoes(env, s, seen, auth, tb, tk, source.value.target.value, idempotencyKey, now);
    }
  }

  lemma KeysCanonical(b: Text, k: Text)
    requires Canonical(b, k) == Ok((b, k))
    ensures ObjectKey(k) == Ok(k)
  {
    hide CanonicalPath;
  }

  /** The bind of a copy, with an unused token: only the target can be missing. */
  lemma CopyBindGoes(
    env: DistEnv, s: Store, seen: Cache, auth: Auth, tb: Text, tk: Text, target: Text, idempotencyKey: Text, now: nat)
    requires Trusted(env) && Backed(s.replay, seen) && Unrestricted(env.alpha, auth, now)
    requires NeverUsed(env.alpha, s, auth.claims.jti.value)
    requires Canonical(tb, tk) == Ok((tb, tk)) && NamesBucket(tb, tb) && !Blank(tk)
    ensures var r := CopyRequest(env, tb, tk, target, RevisionOf(LiveBinding(s, tb, tk)), idempotencyKey, now);
            BindStep(env.alpha, s, seen, auth, r, now, true).reply.Ok? <==> target in s.manifests && target != []
  {
    hide Backed, Unrestricted, Canonical, Blank, ReplayKey, Authorize, RecordCid, BindApplied, CanonicalPath, VerifyBind,
      BindRefusal, SignedFor, MayBind;
    JtiPresent(env.alpha, auth, now);
    var revision := RevisionOf(LiveBinding(s, tb, tk));
    var r := CopyRequest(env, tb, tk, target, revision, idempotencyKey, now);
    var record := BindRecord(env.alpha.tenant, tb, tk, target, revision, map[], now);
    var meta := MutationMeta(env.alpha, BindOp, tb, tk, idempotencyKey);
    AuthorizedFresh(env.alpha, s, seen, auth, meta, now);
    CopySigned(env, r, tb, tk, target, revision, now);
    CopyPrecondition(s, tb, tk);
    BindRefusalIff(NamespaceOf(s, tb), tk, r.ifRevision, r.ifAbsent);
  }

  lemma CopySigned(env: DistEnv, r: BindRequest, tb: Text, tk: Text, target: Text, revision: Option<nat>, now: nat)
    requires Trusted(env) && !Blank(tb) && !Blank(tk) && r.target == target && r.ifRevision == revision && r.ttl == None
    requires r.metadata == map[]
    requires r.signedRecord == env.sign(BindRecord(env.alpha.tenant, tb, tk, target, revision, map[], now))
    ensures VerifyBind(env.alpha, r, tb, tk).Ok? <==> target != []
  {
    hide Blank;
    var record := BindRecord(env.alpha.tenant, tb, tk, target, revision, map[], now);
    assert env.alpha.verify(r.signedRecord) == Some(record);
  }

  lemma CopyPrecondition(s: Store, tb: Text, tk: Text)
    ensures var revision := RevisionOf(LiveBinding(s, tb, tk));
            MayBind(NamespaceOf(s, tb).bindings, tk, revision, revision.None?)
  {
  }

  // ---------------------------------------------------------------------- deletes, gets

  /** A delete that goes through leaves a tombstone at exactly its key, under the revision it replies. */
  lemma DeleteLeaves(env: DistEnv, x: Site, auth: Auth, bucket: Text, key: Text, idempotencyKey: Text, now: nat)
    requires Trusted(env) && SiteSound(env, x) && Deletable(env, x, auth, bucket, key, idempotencyKey, now)
    requires LockRefusal(x.locks, LockKey(bucket, ObjectKey(key).value), auth, now) == None
    ensures var b, k := RequireBucket(x.buckets, bucket).value, ObjectKey(key).value;
            var t := DeleteObject(env, x.store, x.seen, x.buckets, x.locks, auth, bucket, key, idempotencyKey, now);
            && t.reply.Ok? && t.reply.value.tombstone && OnlyPath(x.store, t.store, b, k) && k in t.store.namespaces[b].bindings
            && t.store.namespaces[b].bindings[k] ==
               Binding(k, None, None, t.reply.value.revision, t.reply.value.recordCid, map[], true)
            && t.reply.value.revision == x.store.namespaces[b].revision + 1
  {
    hide Trusted, StoreInv, CanonicalPath, Blank, PolicyDenial, ReplayKey, ScopeRefusal, LockRefusal, LockKey, UnbindStep,
      RequireBucket, ObjectKey, Canonical, ResolveStep, OnlyPath, RecordCid, UnbindSignedFor;
    var b, k := RequireBucket(x.buckets, bucket).value, ObjectKey(key).value;
    ResolveSees(env.alpha, x.store, x.seen, auth, b, k, now);
    UnbindSucceeds(env, x.store, x.seen, auth, b, k, idempotencyKey, now);
    var r := DeleteRequest(env, b, k, x.store.namespaces[b].bindings[k].revision, idempotencyKey, now);
    var _ := UnbindWrites(env.alpha, x.store, x.seen, auth, r, now);
  }

  /** Deleting what is not there is answered as not found. */
  lemma DeleteFindsNothing(env: DistEnv, x: Site, auth: Auth, bucket: Text, key: Text, idempotencyKey: Text, now: nat)
    requires MayChange(env.alpha.tenant, x.buckets, auth, bucket, key)
    requires RequireBucket(x.buckets, bucket).Ok? && ObjectKey(key).Ok?
    requires var b, k := RequireBucket(x.buckets, bucket).value, ObjectKey(key).value;
             && Canonical(b, k) == Ok((b, k)) && LiveBinding(x.store, b, k) == None
             && Allowed(auth, ResolveMeta(env.alpha, b, k), now)
    ensures var t := DeleteObject(env, x.store, x.seen, x.buckets, x.locks, auth, bucket, key, idempotencyKey, now);
            t.reply == Err(ObjectNotFound) && Quiet(x.store, t.store)
  {
    hide RequireBucket, ObjectKey, ScopeRefusal, ResolveStep, UnbindStep, LockRefusal, LockKey, MayChange, Canonical, Allowed,
      Quiet, SnapshotAt, NamespaceOf, Entitled;
    MayChangeIff(env.alpha.tenant, x.buckets, auth, bucket, key);
    var b, k := RequireBucket(x.buckets, bucket).value, ObjectKey(key).value;
    ResolveAnswers(env.alpha, x.store, x.seen, auth, b, k, None, None, now);
    PresentIsCurrent(NamespaceOf(x.store, b));
    ResolveGate(env.alpha, x.store, x.seen, auth, b, k, None, None, now);
  }

  /** The manifest that a selector stands for now, if any. */
  function Selects(s: Store, selector: Selector): Result<Text> {
    match selector
    case ByCid(cid) => Ok(cid)
    case ByPath(namespace, path) =>
      if CanonicalPath(namespace).Bad? then Err(InvalidNamespace)
      else if CanonicalPath(path).Bad? then Err(InvalidPath)
      else
        var n, p := CanonicalPath(namespace).value, CanonicalPath(path).value;
        if n !in s.namespaces || p !in s.namespaces[n].bindings then Err(PathNotBound)
        else if s.namespaces[n].bindings[p].tombstone then Err(PathTombstoned)
        else if s.namespaces[n].bindings[p].manifest == None then Err(PathNotBound)
        else Ok(s.namespaces[n].bindings[p].manifest.value)
  }

  /** What a get answers before it comes to the bytes, and whose bytes it then reads. */
  lemma GetAnswers(
    env: Env, s: Store, seen: Cache, auth: Auth, selector: Selector, range: Option<Range>, now: nat)
    ensures var reply := GetStep(env, s, seen, auth, selector, range, now).reply;
            var empty := if selector.ByCid? then selector.cid == [] else selector.namespace == [] || selector.path == [];
            if empty then reply == Err(MissingSelector)
            else if range.Some? && range.value.end < range.value.start then reply == Err(InvalidRange)
            else if Selects(s, selector).Err? then reply == Err(Selects(s, selector).error)
            else
              var cid := Selects(s, selector).value;
              var place := if selector.ByCid? then Resolution(cid, None, None)
                           else Resolution(cid, Some(selector.namespace), Some(selector.path));
              if !Allowed(auth, ReadMeta(env, GetOp, place), now) then reply.Err? && reply.error.Denied?
              else if cid !in s.manifests then reply == Err(ManifestNotFound)
              else reply == ReadRecord(s, s.manifests[cid], range)
  {
    hide CanonicalPath, Allowed, PolicyDenial, ReadRecord, ReplayKey, DenialLogged;
    SelectsIs(s, selector);
    if ResolveSelector(s, selector).Ok? {
      PolicyAllowsIff(auth, ReadMeta(env, GetOp, ResolveSelector(s, selector).value), now);
    }
  }

  lemma SelectsIs(s: Store, selector: Selector)
    ensures ResolveSelector(s, selector) ==
            if Selects(s, selector).Err? then Err(Selects(s, selector).error)
            else if selector.ByCid? then Ok(Resolution(Selects(s, selector).value, None, None))
            else Ok(Resolution(Selects(s, selector).value, Some(selector.namespace), Some(selector.path)))
  {
    hide CanonicalPath;
  }
}
