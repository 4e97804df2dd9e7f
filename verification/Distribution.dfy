/**
 hsp-distribution above the service: objects under bucket and key, uploaded in
 one piece or in parts, with object locks in front of every overwrite and delete.
 */
module Distribution {
  import opened Basics
  import opened Paths
  import opened Records
  import opened Chunker
  import opened Namespaces
  import opened Policy
  import opened Service

  /** The service's environment and the signing key, which the service's registry trusts. */
  datatype DistEnv = DistEnv(alpha: Env, sign: MutationRecord -> Text)

  datatype Lock = Lock(until: Option<nat>, legalHold: bool, mode: Option<Text>)

  /** What a caller says about an object beside its bytes. */
  datatype Spec = Spec(
    contentType: Text, profileId: Text, keyPolicyId: Text, visibility: Visibility, contentSuite: Text,
    wrappingSuite: Text, wrappedKeys: seq<WrappedKey>, serverMetadata: Metadata, clientMetadata: Metadata,
    storageClass: Text)

  datatype PutReply = PutReply(objectCid: Text, manifestCid: Text, eventNumber: nat)

  // ---------------------------------------------------------------- names, scope

  function CanonicalBucket(bucket: Text): Result<Text> {
    if Blank(bucket) || SLASH in bucket then Err(InvalidBucket)
    else
      var c := CanonicalPath(bucket);
      if c.Bad? || Blank(c.value) || SLASH in c.value then Err(InvalidBucket) else Ok(c.value)
  }

  function RequireBucket(buckets: set<Text>, bucket: Text): Result<Text> {
    var c := CanonicalBucket(bucket);
    if c.Err? then c else if c.value !in buckets then Err(BucketNotFound) else c
  }

  function ObjectKey(key: Text): Result<Text> {
    var c := CanonicalPath(key);
    if c.Bad? then Err(InvalidObjectKey) else Ok(c.value)
  }

  predicate HasAny(auth: Auth, scopes: set<Scope>) {
    exists i :: 0 <= i < |auth.claims.ops| && auth.claims.ops[i] in scopes
  }

  function ScopeRefusal(tenant: Text, auth: Auth, scopes: set<Scope>, bucket: Text, key: Text): Option<ApiError> {
    if auth.claims.tenant != tenant then Some(TenantMismatch)
    else if !HasAny(auth, scopes) then Some(OperationNotAllowed)
    else if auth.claims.namespacePrefix.Some? && !SegmentPrefixMatches(auth.claims.namespacePrefix.value, bucket)
    then Some(ScopeMismatch)
    else if auth.claims.pathPrefix.Some? && !SegmentPrefixMatches(auth.claims.pathPrefix.value, key)
    then Some(ScopeMismatch)
    else None
  }

  function MutationScope(): set<Scope> { {WriteScope, BindScope, UnbindScope} }

  predicate IsAdmin(auth: Auth) { AdminRepair in auth.claims.ops }

  // ---------------------------------------------------------------------- locks

  function LockKey(bucket: Text, key: Text): Text {
    Ascii("object-") + bucket + [DASH] + key
  }

  /** ensure_object_mutation_unlocked: a legal hold stops everyone, a retention everyone but admin.repair. */
  function LockRefusal(locks: map<Text, Lock>, lockKey: Text, auth: Auth, now: nat): Option<ApiError> {
    if lockKey !in locks then None
    else
      var l := locks[lockKey];
      if l.legalHold then Some(LegalHoldActive)
      else if l.until.Some? && now < l.until.value && !IsAdmin(auth) then Some(LockConflict)
      else None
  }

  function Lower(b: byte): byte { if 0x41 <= b <= 0x5A then b + 32 else b }

  predicate SameIgnoringCase(a: Text, b: Text) {
    |a| == |b| && forall i :: 0 <= i < |a| ==> Lower(a[i]) == Lower(b[i])
  }

  predicate IsCompliance(mode: Option<Text>) {
    mode.Some? && SameIgnoringCase(mode.value, Ascii("compliance"))
  }

  function LockOf(locks: map<Text, Lock>, lockKey: Text): Lock {
    if lockKey in locks then locks[lockKey] else Lock(None, false, None)
  }

  /** ensure_retention_update_allowed. */
  function RetentionRefusal(l: Lock, until: Option<nat>, mode: Option<Text>, auth: Auth, now: nat): Option<ApiError> {
    if l.until.None? || now >= l.until.value then None
    else if until.Some? && until.value >= l.until.value && mode == l.mode then None
    else if IsCompliance(l.mode) then Some(LockConflict)
    else if IsAdmin(auth) then None
    else Some(LockConflict)
  }

  /** put_object_retention: the record afterwards and the reply. */
  function PutRetention(
    tenant: Text, buckets: set<Text>, locks: map<Text, Lock>, auth: Auth, bucket: Text, key: Text,
    until: Option<nat>, mode: Option<Text>, now: nat): (map<Text, Lock>, Result<Lock>)
  {
    var where := LockPlace(tenant, buckets, auth, bucket, key);
    if where.Err? then (locks, Err(where.error)) else
      var l := LockOf(locks, where.value);
      var refusal := RetentionRefusal(l, until, mode, auth, now);
      if refusal.Some? then (locks, Err(refusal.value)) else
        var l' := l.(until := until, mode := mode);
        (locks[where.value := l'], Ok(l'))
  }

  /** put_object_legal_hold: only admin.repair lifts a hold. */
  function PutLegalHold(
    tenant: Text, buckets: set<Text>, locks: map<Text, Lock>, auth: Auth, bucket: Text, key: Text, hold: bool)
    : (map<Text, Lock>, Result<Lock>)
  {
    var where := LockPlace(tenant, buckets, auth, bucket, key);
    if where.Err? then (locks, Err(where.error)) else
      var l := LockOf(locks, where.value);
      if l.legalHold && !hold && !IsAdmin(auth) then (locks, Err(LegalHoldActive)) else
        var l' := l.(legalHold := hold);
        (locks[where.value := l'], Ok(l'))
  }

  /** The key of the lock record that a lock request names. */
  function LockPlace(tenant: Text, buckets: set<Text>, auth: Auth, bucket: Text, key: Text): Result<Text> {
    var b := CanonicalBucket(bucket);
    var k := ObjectKey(key);
    if b.Err? then b
    else if k.Err? then k
    else
      var refusal := ScopeRefusal(tenant, auth, MutationScope(), b.value, k.value);
      if refusal.Some? then Err(refusal.value)
      else if RequireBucket(buckets, b.value).Err? then RequireBucket(buckets, b.value)
      else Ok(LockKey(b.value, k.value))
  }

  // -------------------------------------------------------------------- uploads

  function BuildManifest(tenant: Text, refs: seq<ChunkRef>, size: nat, spec: Spec, now: nat): Manifest {
    Manifest(1, tenant, size, size, Ascii("fixed-1m"), refs, spec.contentType, now,
             EncryptionDescriptor(spec.profileId, spec.keyPolicyId, spec.contentSuite, spec.wrappingSuite,
                                  spec.visibility, spec.wrappedKeys, spec.serverMetadata, spec.clientMetadata))
  }

  function BindRecord(
    tenant: Text, bucket: Text, key: Text, cid: Text, revision: Option<nat>, metadata: Metadata, now: nat): MutationRecord
  {
    MutationRecord(1, tenant, bucket, key, BindKind, Some(cid), revision, None, metadata, now)
  }

  /** One put_chunk per staged chunk, in order. */
  function UploadChunks(
    env: Env, s: Store, seen: Cache, auth: Auth, sessionId: Text, staged: seq<Staged>, i: nat, now: nat): Step<()>
    requires i <= |staged|
    decreases |staged| - i
  {
    if i == |staged| then Step(s, seen, Ok(())) else
      var c := staged[i].chunk;
      var t := ChunkStep(env, s, seen, auth, ChunkRequest(sessionId, c.index, c.cid, c.offset, c.storedLen),
                         staged[i].bytes, now);
      if t.reply.Err? then Step(t.store, t.seen, Err(t.reply.error))
      else UploadChunks(env, t.store, t.seen, auth, sessionId, staged, i + 1, now)
  }

  function StorageClass(spec: Spec): Text { if Blank(spec.storageClass) then Ascii("hot") else spec.storageClass }

  /** put_init, put_chunk for every chunk, put_commit. */
  function Upload(
    env: Env, s: Store, seen: Cache, auth: Auth, m: WireManifest, spec: Spec, bind: AtomicBind, staged: seq<Staged>,
    initKey: Text, commitKey: Text, now: nat): Step<PutReply>
  {
    var cid := ManifestCid(env.h, m);
    var init := InitStep(env, s, seen, auth,
                         InitRequest(m, initKey, spec.profileId, spec.keyPolicyId, spec.visibility,
                                     StorageClass(spec), Some(bind)), now);
    if init.reply.Err? then Step(init.store, init.seen, Err(init.reply.error)) else
      var id := init.reply.value.sessionId;
      var up := UploadChunks(env, init.store, init.seen, auth, id, staged, 0, now);
      if up.reply.Err? then Step(up.store, up.seen, Err(up.reply.error)) else
        var done := CommitStep(env, up.store, up.seen, auth, CommitRequest(id, cid, commitKey), now);
        Step(done.store, done.seen,
             if done.reply.Err? then Err(done.reply.error)
             else Ok(PutReply(done.reply.value.objectCid, cid, done.reply.value.eventNumber)))
  }

  /** The live binding that the caller can see at bucket and key. */
  function Existing(e: Step<Binding>): Option<Binding> {
    if e.reply.Ok? && !e.reply.value.tombstone then Some(e.reply.value) else None
  }

  function RevisionOf(b: Option<Binding>): Option<nat> { if b.Some? then Some(b.value.revision) else None }

  function AtomicBindFor(
    env: DistEnv, bucket: Text, key: Text, cid: Text, revision: Option<nat>, metadata: Metadata, now: nat): AtomicBind
  {
    AtomicBind(bucket, key, revision, metadata, None,
               env.sign(BindRecord(env.alpha.tenant, bucket, key, cid, revision, metadata, now)))
  }

  /** The common part of put_object and complete_multipart_upload: look, check the lock, build, upload. */
  function StoreObject(
    env: DistEnv, s: Store, seen: Cache, locks: map<Text, Lock>, auth: Auth, bucket: Text, key: Text, spec: Spec,
    staged: seq<Staged>, size: nat, initKey: Text, commitKey: Text, now: nat): Step<PutReply>
  {
    var e := ResolveStep(env.alpha, s, seen, auth, bucket, key, None, None, now);
    var existing := Existing(e);
    var refusal := LockRefusal(locks, LockKey(bucket, key), auth, now);
    if existing.Some? && refusal.Some? then Step(e.store, e.seen, Err(refusal.value)) else
      var m := BuildManifest(env.alpha.tenant, Refs(staged), size, spec, now);
      if ManifestInvalid(m).Some? then Step(e.store, e.seen, Err(ManifestInvalid(m).value))
      else if !SmallManifest(m) then Step(e.store, e.seen, Err(ObjectTooLarge))
      else
        var bind := AtomicBindFor(env, bucket, key, ManifestCid(env.alpha.h, m), RevisionOf(existing),
                                  spec.serverMetadata, now);
        Upload(env.alpha, e.store, e.seen, auth, m, spec, bind, staged, initKey, commitKey, now)
  }

  /** put_object in ciphertext mode. */
  function PutObject(
    env: DistEnv, s: Store, seen: Cache, buckets: set<Text>, locks: map<Text, Lock>, auth: Auth, bucket: Text,
    key: Text, spec: Spec, idempotencyKey: Text, payload: Text, now: nat): Step<PutReply>
  {
    var b := RequireBucket(buckets, bucket);
    var k := ObjectKey(key);
    if b.Err? then Step(s, seen, Err(b.error))
    else if k.Err? then Step(s, seen, Err(k.error))
    else
      var refusal := ScopeRefusal(env.alpha.tenant, auth, MutationScope(), b.value, k.value);
      if refusal.Some? then Step(s, seen, Err(refusal.value))
      else if payload == [] then Step(s, seen, Err(EmptyObject))
      else if spec.wrappedKeys == [] then Step(s, seen, Err(MissingWrappedKeys))
      else StoreObject(env, s, seen, locks, auth, b.value, k.value, spec, ChunkCiphertext(env.alpha.h, payload),
                       |payload|, idempotencyKey, idempotencyKey, now)
  }

  /** complete_multipart_upload, for the parts as they were stored and checked against their ETags. */
  function CompleteMultipart(
    env: DistEnv, s: Store, seen: Cache, buckets: set<Text>, locks: map<Text, Lock>, auth: Auth, bucket: Text,
    key: Text, spec: Spec, idempotencyKey: Text, parts: seq<Text>, now: nat): Step<PutReply>
  {
    var refusal := ScopeRefusal(env.alpha.tenant, auth, MutationScope(), bucket, key);
    var all := Concat(parts);
    if refusal.Some? then Step(s, seen, Err(refusal.value))
    else if parts == [] then Step(s, seen, Err(MultipartNotFound))
    else if Count(|all|) >= U32 then Step(s, seen, Err(ObjectTooLarge))
    else if all == [] then Step(s, seen, Err(ZeroSizedManifest))
    else
      var b := RequireBucket(buckets, bucket);
      if b.Err? then Step(s, seen, Err(b.error))
      else StoreObject(env, s, seen, locks, auth, b.value, key, spec, ChunkCiphertext(env.alpha.h, all), |all|,
                       Ascii("complete-init-") + idempotencyKey, Ascii("complete-") + idempotencyKey, now)
  }

  // ------------------------------------------------------------ delete and copy

  /** map_object_error. */
  function ObjectError(e: ApiError): ApiError {
    if e in {PathNotBound, PathTombstoned, ManifestNotFound} then ObjectNotFound else e
  }

  /** delete_object; it looks the lock up under the bucket as the request spells it. */
  function DeleteObject(
    env: DistEnv, s: Store, seen: Cache, buckets: set<Text>, locks: map<Text, Lock>, auth: Auth, bucket: Text,
    key: Text, idempotencyKey: Text, now: nat): Step<UnbindReply>
  {
    var b := RequireBucket(buckets, bucket);
    var k := ObjectKey(key);
    if b.Err? then Step(s, seen, Err(b.error))
    else if k.Err? then Step(s, seen, Err(k.error))
    else
      var refusal := ScopeRefusal(env.alpha.tenant, auth, MutationScope(), b.value, k.value);
      if refusal.Some? then Step(s, seen, Err(refusal.value)) else
        var e := ResolveStep(env.alpha, s, seen, auth, b.value, k.value, None, None, now);
        if e.reply.Err? then Step(e.store, e.seen, Err(ObjectError(e.reply.error)))
        else if e.reply.value.tombstone then Step(e.store, e.seen, Err(ObjectNotFound))
        else
          var locked := LockRefusal(locks, LockKey(bucket, k.value), auth, now);
          if locked.Some? then Step(e.store, e.seen, Err(locked.value)) else
            var revision := e.reply.value.revision;
            var record := MutationRecord(1, env.alpha.tenant, b.value, k.value, UnbindKind, None, Some(revision), None,
                                         map[], now);
            UnbindStep(env.alpha, e.store, e.seen, auth,
                       UnbindRequest(b.value, k.value, revision, false, idempotencyKey, env.sign(record)), now)
  }

  /** copy_object within the tenant; `readRefusal` is the outcome of the read check on the source. */
  function CopyObject(
    env: DistEnv, s: Store, seen: Cache, buckets: set<Text>, locks: map<Text, Lock>, auth: Auth, fromBucket: Text,
    fromKey: Text, readRefusal: Option<ApiError>, toBucket: Text, toKey: Text, idempotencyKey: Text, now: nat)
    : Step<BindReply>
  {
    var fb := RequireBucket(buckets, fromBucket);
    var tb := RequireBucket(buckets, toBucket);
    var fk := ObjectKey(fromKey);
    var tk := ObjectKey(toKey);
    if fb.Err? then Step(s, seen, Err(fb.error))
    else if tb.Err? then Step(s, seen, Err(tb.error))
    else if fk.Err? then Step(s, seen, Err(fk.error))
    else if tk.Err? then Step(s, seen, Err(tk.error))
    else if readRefusal.Some? then Step(s, seen, Err(readRefusal.value))
    else
      var refusal := ScopeRefusal(env.alpha.tenant, auth, MutationScope(), tb.value, tk.value);
      if refusal.Some? then Step(s, seen, Err(refusal.value)) else
        var source := ResolveStep(env.alpha, s, seen, auth, fb.value, fk.value, None, None, now);
        if source.reply.Err? then Step(source.store, source.seen, Err(ObjectError(source.reply.error)))
        else if source.reply.value.tombstone then Step(source.store, source.seen, Err(ObjectNotFound))
        else
          var e := ResolveStep(env.alpha, source.store, source.seen, auth, tb.value, tk.value, None, None, now);
          var revision := RevisionOf(Existing(e));
          var locked := LockRefusal(locks, LockKey(tb.value, tk.value), auth, now);
          if locked.Some? then Step(e.store, e.seen, Err(locked.value))
          else if source.reply.value.target.None? then Step(e.store, e.seen, Err(ObjectNotFound))
          else
            var target := source.reply.value.target.value;
            BindStep(env.alpha, e.store, e.seen, auth,
                     BindRequest(tb.value, tk.value, target, revision, revision.None?, map[], None, idempotencyKey,
                                 env.sign(BindRecord(env.alpha.tenant, tb.value, tk.value, target, revision, map[], now))),
                     now, true)
  }
}
