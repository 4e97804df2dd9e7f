/**
 DistributionService as an object over AlphaService: the upload loop, the lock
 records and the object operations, each proved to take the step that the
 Distribution module specifies.
 */
module Gateway {
  import opened Basics
  import opened Records
  import opened Chunker
  import opened Policy
  import opened Service
  import opened Distribution
  import opened Alpha
  import opened Uploader

  /** Where an upload's chunks come from: staged beforehand, or streamed from parts a second time. */
  datatype Source = Whole(staged: seq<Staged>) | Streamed(parts: seq<Text>)

  ghost function StagedOf(h: Hash, source: Source): seq<Staged> {
    match source
    case Whole(staged) => staged
    case Streamed(parts) => ChunkCiphertext(h, Concat(parts))
  }

  /** Only what the first pass has accepted is streamed again. */
  ghost predicate Sendable(source: Source) {
    source.Streamed? ==> Count(|Concat(source.parts)|) < U32
  }

  class DistributionService {
    const env: DistEnv
    const alpha: AlphaService
    var buckets: set<Text>
    var locks: map<Text, Lock>

    ghost predicate Valid() { alpha.env == env.alpha }

    constructor (env: DistEnv)
      ensures Valid() && this.env == env && buckets == {} && locks == map[]
      ensures fresh(alpha) && fresh(alpha.replayCache) && alpha.State() == EMPTY_STORE
    {
      this.env := env;
      alpha := new AlphaService(env.alpha);
      buckets, locks := {}, map[];
    }

    // -------------------------------------------------------------------- locks

    method PutObjectRetention(
      auth: Auth, bucket: Text, key: Text, until: Option<nat>, mode: Option<Text>, now: nat)
      returns (r: Result<Lock>)
      modifies this`locks
      ensures (locks, r) ==
              PutRetention(env.alpha.tenant, old(buckets), old(locks), auth, bucket, key, until, mode, now)
    {
      hide LockPlace, RetentionRefusal;
      var where := LockPlace(env.alpha.tenant, buckets, auth, bucket, key);
      if where.Err? { return Err(where.error); }
      var record := if where.value in locks then locks[where.value] else Lock(None, false, None);
      var refusal := RetentionRefusal(record, until, mode, auth, now);
      if refusal.Some? { return Err(refusal.value); }
      record := record.(until := until, mode := mode);
      locks := locks[where.value := record];
      r := Ok(record);
    }

    method PutObjectLegalHold(auth: Auth, bucket: Text, key: Text, hold: bool) returns (r: Result<Lock>)
      modifies this`locks
      ensures (locks, r) == PutLegalHold(env.alpha.tenant, old(buckets), old(locks), auth, bucket, key, hold)
    {
      hide LockPlace;
      var where := LockPlace(env.alpha.tenant, buckets, auth, bucket, key);
      if where.Err? { return Err(where.error); }
      var record := if where.value in locks then locks[where.value] else Lock(None, false, None);
      if record.legalHold && !hold && !IsAdmin(auth) { return Err(LegalHoldActive); }
      record := record.(legalHold := hold);
      locks := locks[where.value := record];
      r := Ok(record);
    }

    // ------------------------------------------------------------------ uploads

    /** The loop that sends one chunk after another. */
    method SendChunks(auth: Auth, sessionId: Text, staged: seq<Staged>, now: nat) returns (r: Result<()>)
      requires Valid()
      modifies alpha, alpha.replayCache
      ensures Step(alpha.State(), alpha.replayCache.seen, r) ==
              UploadChunks(env.alpha, old(alpha.State()), old(alpha.replayCache.seen), auth, sessionId, staged, 0, now)
    {
      hide ChunkStep;
      var i := 0;
      while i < |staged|
        invariant 0 <= i <= |staged|
        invariant UploadChunks(env.alpha, alpha.State(), alpha.replayCache.seen, auth, sessionId, staged, i, now) ==
                  UploadChunks(env.alpha, old(alpha.State()), old(alpha.replayCache.seen), auth, sessionId, staged, 0, now)
      {
        var c := staged[i].chunk;
        var sent := alpha.PutChunk(auth, ChunkRequest(sessionId, c.index, c.cid, c.offset, c.storedLen), staged[i].bytes, now);
        if sent.Err? { return Err(sent.error); }
        i := i + 1;
      }
      r := Ok(());
    }

    method UploadObject(
      auth: Auth, m: WireManifest, spec: Spec, bind: AtomicBind, source: Source, initKey: Text, commitKey: Text,
      now: nat)
      returns (r: Result<PutReply>)
      requires Valid() && Sendable(source)
      modifies alpha, alpha.replayCache
      ensures Step(alpha.State(), alpha.replayCache.seen, r) ==
              Upload(env.alpha, old(alpha.State()), old(alpha.replayCache.seen), auth, m, spec, bind,
                     StagedOf(env.alpha.h, source), initKey, commitKey, now)
    {
      hide InitStep, UploadChunks, CommitStep, ManifestCid, StorageClass, SmallManifest, ChunkCiphertext;
      var cid := ManifestCid(env.alpha.h, m);
      var init := alpha.PutInit(auth, InitRequest(m, initKey, spec.profileId, spec.keyPolicyId, spec.visibility,
                                                  StorageClass(spec), Some(bind)), now);
      if init.Err? { return Err(init.error); }
      var sent: Result<()>;
      match source {
        case Whole(staged) => sent := SendChunks(auth, init.value.sessionId, staged, now);
        case Streamed(parts) => sent := UploadParts(alpha, auth, init.value.sessionId, parts, now);
      }
      if sent.Err? { return Err(sent.error); }
      var done := alpha.PutCommit(auth, CommitRequest(init.value.sessionId, cid, commitKey), now);
      if done.Err? { return Err(done.error); }
      r := Ok(PutReply(done.value.objectCid, cid, done.value.eventNumber));
    }

    method StoreUnlocked(
      auth: Auth, bucket: Text, key: Text, spec: Spec, refs: seq<ChunkRef>, source: Source, size: nat, initKey: Text,
      commitKey: Text, now: nat)
      returns (r: Result<PutReply>)
      requires Valid() && Sendable(source) && refs == Refs(StagedOf(env.alpha.h, source))
      modifies alpha, alpha.replayCache
      ensures Step(alpha.State(), alpha.replayCache.seen, r) ==
              StoreObject(env, old(alpha.State()), old(alpha.replayCache.seen), locks, auth, bucket, key, spec,
                          StagedOf(env.alpha.h, source), size, initKey, commitKey, now)
    {
      hide ResolveStep, Upload, BuildManifest, ManifestInvalid, AtomicBindFor, LockRefusal, LockKey, ManifestCid,
        SmallManifest, Refs, StagedOf, Sendable;
      var resolved := alpha.Resolve(auth, bucket, key, None, None, now);
      var existing := if resolved.Ok? && !resolved.value.tombstone then Some(resolved.value) else None;
      if existing.Some? {
        var refusal := LockRefusal(locks, LockKey(bucket, key), auth, now);
        if refusal.Some? { return Err(refusal.value); }
      }
      var m := BuildManifest(env.alpha.tenant, refs, size, spec, now);
      var invalid := ManifestInvalid(m);
      if invalid.Some? { return Err(invalid.value); }
      if !SmallManifest(m) { return Err(ObjectTooLarge); }
      var bind := AtomicBindFor(env, bucket, key, ManifestCid(env.alpha.h, m), RevisionOf(existing), spec.serverMetadata, now);
      r := UploadObject(auth, m, spec, bind, source, initKey, commitKey, now);
    }

    method Put(auth: Auth, bucket: Text, key: Text, spec: Spec, idempotencyKey: Text, payload: Text, now: nat)
      returns (r: Result<PutReply>)
      requires Valid()
      modifies alpha, alpha.replayCache
      ensures Step(alpha.State(), alpha.replayCache.seen, r) ==
              PutObject(env, old(alpha.State()), old(alpha.replayCache.seen), buckets, locks, auth, bucket, key, spec,
                        idempotencyKey, payload, now)
    {
      hide RequireBucket, ObjectKey, ScopeRefusal, StoreObject, ChunkCiphertext;
      var b := RequireBucket(buckets, bucket);
      if b.Err? { return Err(b.error); }
      var k := ObjectKey(key);
      if k.Err? { return Err(k.error); }
      var refusal := ScopeRefusal(env.alpha.tenant, auth, MutationScope(), b.value, k.value);
      if refusal.Some? { return Err(refusal.value); }
      if payload == [] { return Err(EmptyObject); }
      if spec.wrappedKeys == [] { return Err(MissingWrappedKeys); }
      var staged := ChunkCiphertext(env.alpha.h, payload);
      r := StoreUnlocked(auth, b.value, k.value, spec, Refs(staged), Whole(staged), |payload|, idempotencyKey,
                         idempotencyKey, now);
    }

    /** Both passes stream the parts, as stored and checked against their ETags: one for the manifest, one to upload. */
    method CompleteMultipartUpload(
      auth: Auth, bucket: Text, key: Text, spec: Spec, idempotencyKey: Text, parts: seq<Text>, now: nat)
      returns (r: Result<PutReply>)
      requires Valid()
      modifies alpha, alpha.replayCache
      ensures Step(alpha.State(), alpha.replayCache.seen, r) ==
              CompleteMultipart(env, old(alpha.State()), old(alpha.replayCache.seen), buckets, locks, auth, bucket, key, spec,
                                idempotencyKey, parts, now)
    {
      hide RequireBucket, ScopeRefusal, StoreObject, ChunkCiphertext, Concat, Ascii;
      var refusal := ScopeRefusal(env.alpha.tenant, auth, MutationScope(), bucket, key);
      if refusal.Some? { return Err(refusal.value); }
      if parts == [] { return Err(MultipartNotFound); }
      var streamed := StreamParts(env.alpha.h, parts);
      if streamed.Err? { return Err(streamed.error); }
      var (staged, size) := streamed.value;
      if staged == [] { return Err(ZeroSizedManifest); }
      var b := RequireBucket(buckets, bucket);
      if b.Err? { return Err(b.error); }
      r := StoreUnlocked(auth, b.value, key, spec, Refs(staged), Streamed(parts), size,
                         Ascii("complete-init-") + idempotencyKey, Ascii("complete-") + idempotencyKey, now);
    }

    // ---------------------------------------------------------- delete and copy

    method Delete(auth: Auth, bucket: Text, key: Text, idempotencyKey: Text, now: nat) returns (r: Result<UnbindReply>)
      requires Valid()
      modifies alpha, alpha.replayCache
      ensures Step(alpha.State(), alpha.replayCache.seen, r) ==
              DeleteObject(env, old(alpha.State()), old(alpha.replayCache.seen), buckets, locks, auth, bucket, key,
                           idempotencyKey, now)
    {
      hide RequireBucket, ObjectKey, ScopeRefusal, ResolveStep, UnbindStep, LockRefusal, LockKey;
      var b := RequireBucket(buckets, bucket);
      if b.Err? { return Err(b.error); }
      var k := ObjectKey(key);
      if k.Err? { return Err(k.error); }
      var refusal := ScopeRefusal(env.alpha.tenant, auth, MutationScope(), b.value, k.value);
      if refusal.Some? { return Err(refusal.value); }
      var resolved := alpha.Resolve(auth, b.value, k.value, None, None, now);
      if resolved.Err? { return Err(ObjectError(resolved.error)); }
      if resolved.value.tombstone { return Err(ObjectNotFound); }
      var locked := LockRefusal(locks, LockKey(bucket, k.value), auth, now);
      if locked.Some? { return Err(locked.value); }
      var revision := resolved.value.revision;
      var record := MutationRecord(1, env.alpha.tenant, b.value, k.value, UnbindKind, None, Some(revision), None, map[], now);
      r := alpha.UnbindInternal(auth, UnbindRequest(b.value, k.value, revision, false, idempotencyKey, env.sign(record)), now);
    }

    method Copy(
      auth: Auth, fromBucket: Text, fromKey: Text, readRefusal: Option<ApiError>, toBucket: Text, toKey: Text,
      idempotencyKey: Text, now: nat)
      returns (r: Result<BindReply>)
      requires Valid()
      modifies alpha, alpha.replayCache
      ensures Step(alpha.State(), alpha.replayCache.seen, r) ==
              CopyObject(env, old(alpha.State()), old(alpha.replayCache.seen), buckets, locks, auth, fromBucket, fromKey,
                         readRefusal, toBucket, toKey, idempotencyKey, now)
    {
      hide RequireBucket, ObjectKey, ScopeRefusal, ResolveStep, BindStep, LockRefusal, LockKey, BindRecord;
      var fb := RequireBucket(buckets, fromBucket);
      if fb.Err? { return Err(fb.error); }
      var tb := RequireBucket(buckets, toBucket);
      if tb.Err? { return Err(tb.error); }
      var fk := ObjectKey(fromKey);
      if fk.Err? { return Err(fk.error); }
      var tk := ObjectKey(toKey);
      if tk.Err? { return Err(tk.error); }
      if readRefusal.Some? { return Err(readRefusal.value); }
      var refusal := ScopeRefusal(env.alpha.tenant, auth, MutationScope(), tb.value, tk.value);
      if refusal.Some? { return Err(refusal.value); }
      var source := alpha.Resolve(auth, fb.value, fk.value, None, None, now);
      if source.Err? { return Err(ObjectError(source.error)); }
      if source.value.tombstone { return Err(ObjectNotFound); }
      var resolved := alpha.Resolve(auth, tb.value, tk.value, None, None, now);
      var revision := RevisionOf(if resolved.Ok? && !resolved.value.tombstone then Some(resolved.value) else None);
      var locked := LockRefusal(locks, LockKey(tb.value, tk.value), auth, now);
      if locked.Some? { return Err(locked.value); }
      if source.value.target.None? { return Err(ObjectNotFound); }
      var target := source.value.target.value;
      var record := BindRecord(env.alpha.tenant, tb.value, tk.value, target, revision, map[], now);
      r := alpha.BindInternal(auth, BindRequest(tb.value, tk.value, target, revision, revision.None?, map[], None,
                                                idempotencyKey, env.sign(record)), now, true);
    }
  }
}
