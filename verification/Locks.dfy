/**
 Object locks over runs of distribution operations: a live object under legal
 hold or unexpired retention keeps its binding, and its lock only tightens.
 */
module Locks {
  import opened Basics
  import opened Paths
  import opened Records
  import opened Chunker
  import opened Namespaces
  import opened Policy
  import opened Service
  import opened ServiceInvariants
  import opened ServiceTheorems
  import opened Distribution
  import opened Uploads
  import opened Objects
  import opened Tokens
  import opened Sites

  // ------------------------------------------------------------------ the records

  predicate Active(l: Lock, now: nat) { l.until.Some? && now < l.until.value }

  /** A legal hold, or a retention that has not run out. */
  predicate Protects(l: Lock, now: nat) { l.legalHold || Active(l, now) }

  /** The retention has not been shortened, cleared or given another mode. */
  predicate RetentionKept(l: Lock, l': Lock) {
    l.until.Some? && l'.until.Some? && l.until.value <= l'.until.value && l'.mode == l.mode
  }

  /** What one action may do to one lock record. */
  lemma RecordTightens(env: DistEnv, x: Site, a: Action, lockKey: Text)
    ensures var l, l' := LockOf(x.locks, lockKey), LockOf(Acted(env, x, a).locks, lockKey);
            && (Active(l, a.now) && (!IsAdmin(a.auth) || IsCompliance(l.mode)) ==> RetentionKept(l, l'))
            && (l.legalHold && !IsAdmin(a.auth) ==> l'.legalHold)
  {
    hide PutObject, CompleteMultipart, DeleteObject, CopyObject, IsCompliance, LockPlace;
  }

  // --------------------------------------------------------------- the bindings

  /** The path is bound and not tombstoned. */
  predicate Live(s: Store, n: Text, p: Text) {
    n in s.namespaces && p in s.namespaces[n].bindings && !s.namespaces[n].bindings[p].tombstone
  }

  ghost predicate SameBinding(s: Store, s': Store, n: Text, p: Text) {
    Live(s, n, p) && Live(s', n, p) && s'.namespaces[n].bindings[p] == s.namespaces[n].bindings[p]
  }

  /** A caller without admin.repair, with the token its id belongs to, whose delete spells the bucket canonically. */
  predicate Ordinary(a: Action, owner: Owner) {
    && !IsAdmin(a.auth) && OwnToken(a.auth, owner)
    && (a.op.Delete? ==> CanonicalBucket(a.op.bucket) == Ok(a.op.bucket))
  }

  lemma BindSpares(env: DistEnv, s: Store, mid: Store, r: BindRequest, s': Store, bucket: Text, key: Text, cid: Text,
                   revision: Option<nat>, metadata: Metadata, now: nat, n: Text, p: Text)
    requires Trusted(env) && mid.namespaces == s.namespaces && BindHappened(env.alpha, mid, r, s')
    requires r.signedRecord == env.sign(BindRecord(env.alpha.tenant, bucket, key, cid, revision, metadata, now))
    requires Live(s, n, p)
    requires (bucket, key) == (n, p) ==> r.ifAbsent
    ensures SameBinding(s, s', n, p)
  {
    hide Trusted, Canonical, BindHappened, BindRecord;
    SignedBindPlace(env, mid, r, s', bucket, key, cid, revision, metadata, now);
  }

  lemma RefusesProtected(locks: map<Text, Lock>, lockKey: Text, auth: Auth, now: nat)
    requires Protects(LockOf(locks, lockKey), now) && !IsAdmin(auth)
    ensures LockRefusal(locks, lockKey, auth, now).Some?
  {
  }

  lemma SameNamespaces(s: Store, s': Store, n: Text, p: Text)
    requires Live(s, n, p) && s'.namespaces == s.namespaces
    ensures SameBinding(s, s', n, p)
  {
  }

  lemma StoreSpares(
    env: DistEnv, x: Site, auth: Auth, bucket: Text, key: Text, spec: Spec, payload: Text, initKey: Text, commitKey: Text,
    now: nat, owner: Owner, n: Text, p: Text)
    requires Trusted(env) && SiteSound(env, x) && TokensOk(env.alpha, x.store.replay, owner) && payload != []
    requires !IsAdmin(auth) && OwnToken(auth, owner)
    requires Live(x.store, n, p) && Protects(LockOf(x.locks, LockKey(n, p)), now)
    ensures var t := StoreObject(env, x.store, x.seen, x.locks, auth, bucket, key, spec,
                                 ChunkCiphertext(env.alpha.h, payload), |payload|, initKey, commitKey, now);
            SameBinding(x.store, t.store, n, p)
  {
    hide Trusted, StoreInv, Backed, StoreObject, ChunkCiphertext, Refs, BuildManifest, Kept, BindHappened,
      SmallManifest, ManifestCid, LockKey, LockRefusal, SessionId, Protects, SameBinding, BindRecord, Live, LockOf, IsAdmin,
      TokensOk, OwnToken, ReplayKey;
    KeptStart(env.alpha, x.store, x.seen);
    var staged := ChunkCiphertext(env.alpha.h, payload);
    var m := PayloadManifest(env.alpha, payload, spec, now);
    var t := StoreObject(env, x.store, x.seen, x.locks, auth, bucket, key, spec, staged, |payload|, initKey, commitKey, now);
    StoreKeepsTokens(env, x.store, x.seen, x.locks, auth, bucket, key, spec, payload, initKey, commitKey, now, owner);
    if t.store.namespaces == x.store.namespaces {
      SameNamespaces(x.store, t.store, n, p);
    } else {
      var mid, existing := StoreObjectShape(env, x.store, x.store, x.seen, x.locks, auth, bucket, key, spec, staged,
                                            |payload|, initKey, commitKey, now);
      RefusesProtected(x.locks, LockKey(n, p), auth, now);
      var r := ObjectBind(env, bucket, key, m, RevisionOf(existing), spec, commitKey, now);
      BindSpares(env, x.store, mid, r, t.store, bucket, key, ManifestCid(env.alpha.h, m), RevisionOf(existing),
                 spec.serverMetadata, now, n, p);
    }
  }

  /** An unbind that was signed for bucket and key happens at exactly that bucket and key. */
  lemma SignedUnbindPlace(env: DistEnv, s: Store, r: UnbindRequest, s': Store, record: MutationRecord)
    requires Trusted(env) && UnbindHappened(env.alpha, s, r, s') && r.signedRecord == env.sign(record)
    ensures Canonical(r.namespace, r.path) == Ok((record.namespace, record.path))
    ensures forall n, p :: Live(s, n, p) && (n, p) != (record.namespace, record.path) ==> SameBinding(s, s', n, p)
  {
    hide Canonical, UnbindRefusal, RecordCid, RecordInvalid;
    assert env.alpha.verify(r.signedRecord) == Some(record);
    var where := Canonical(r.namespace, r.path).value;
    assert where == (where.0, where.1) && VerifyUnbind(env.alpha, r, where.0, where.1) == Ok(record);
  }

  /** The request that delete_object sends. */
  function DeleteRequest(env: DistEnv, bucket: Text, key: Text, revision: nat, idempotencyKey: Text, now: nat): UnbindRequest {
    UnbindRequest(bucket, key, revision, false, idempotencyKey, env.sign(DeleteRecord(env, bucket, key, revision, now)))
  }

  function DeleteRecord(env: DistEnv, bucket: Text, key: Text, revision: nat, now: nat): MutationRecord {
    MutationRecord(1, env.alpha.tenant, bucket, key, UnbindKind, None, Some(revision), None, map[], now)
  }

  lemma DeleteSpares(
    env: DistEnv, x: Site, auth: Auth, bucket: Text, key: Text, idempotencyKey: Text, now: nat, n: Text, p: Text)
    requires Trusted(env) && SiteSound(env, x) && !IsAdmin(auth) && CanonicalBucket(bucket) == Ok(bucket)
    ensures var t := DeleteObject(env, x.store, x.seen, x.buckets, x.locks, auth, bucket, key, idempotencyKey, now);
            && StoreInv(env.alpha, t.store) && Backed(t.store.replay, t.seen)
            && (Live(x.store, n, p) && Protects(LockOf(x.locks, LockKey(n, p)), now) ==> SameBinding(x.store, t.store, n, p))
  {
    hide Trusted, StoreInv, Backed, CanonicalBucket, ObjectKey, ScopeRefusal, Kept, LockKey, LockRefusal, Protects,
      SameBinding, Live, LockOf, IsAdmin, ResolveStep, UnbindStep, UnbindHappened, Quiet, Canonical;
    KeptStart(env.alpha, x.store, x.seen);
    KeptBacked(env.alpha, x.store, x.store, x.seen);
    var guarded := Live(x.store, n, p) && Protects(LockOf(x.locks, LockKey(n, p)), now);
    if guarded {
      SameNamespaces(x.store, x.store, n, p);
      RefusesProtected(x.locks, LockKey(n, p), auth, now);
    }
    var k := ObjectKey(key);
    if k.Ok? {
      ResolveStepKeeps(env.alpha, x.store, x.store, x.seen, auth, bucket, k.value, None, None, now);
      var e := ResolveStep(env.alpha, x.store, x.seen, auth, bucket, k.value, None, None, now);
      QuietParts(x.store, e.store);
      KeptBacked(env.alpha, x.store, e.store, e.seen);
      if guarded { SameNamespaces(x.store, e.store, n, p); }
      if e.reply.Ok? {
        var r := DeleteRequest(env, bucket, k.value, e.reply.value.revision, idempotencyKey, now);
        UnbindSpares(env, x.store, e.store, e.seen, auth, r, DeleteRecord(env, bucket, k.value, e.reply.value.revision, now),
                     now, n, p);
      }
    }
  }

  lemma UnbindSpares(
    env: DistEnv, s0: Store, s: Store, seen: Cache, auth: Auth, r: UnbindRequest, record: MutationRecord, now: nat, n: Text,
    p: Text)
    requires Trusted(env) && Kept(env.alpha, s0, s, seen) && s.namespaces == s0.namespaces
    requires r.signedRecord == env.sign(record)
    ensures var t := UnbindStep(env.alpha, s, seen, auth, r, now);
            && StoreInv(env.alpha, t.store) && Backed(t.store.replay, t.seen)
            && (Live(s0, n, p) && (n, p) != (record.namespace, record.path) ==> SameBinding(s0, t.store, n, p))
  {
    hide Trusted, StoreInv, Backed, Kept, UnbindStep, UnbindHappened, Canonical;
    UnbindStepKeeps(env.alpha, s0, s, seen, auth, r, now);
    var t := UnbindStep(env.alpha, s, seen, auth, r, now);
    KeptBacked(env.alpha, s0, t.store, t.seen);
    UnbindStepShape(env.alpha, s, seen, auth, r, now);
    if UnbindHappened(env.alpha, s, r, t.store) { SignedUnbindPlace(env, s, r, t.store, record); }
  }

  /** The request that copy_object sends. */
  function CopyRequest(
    env: DistEnv, bucket: Text, key: Text, target: Text, revision: Option<nat>, idempotencyKey: Text, now: nat): BindRequest
  {
    BindRequest(bucket, key, target, revision, revision.None?, map[], None, idempotencyKey,
                env.sign(BindRecord(env.alpha.tenant, bucket, key, target, revision, map[], now)))
  }

  lemma CopyBindSpares(
    env: DistEnv, s0: Store, s: Store, seen: Cache, auth: Auth, bucket: Text, key: Text, target: Text,
    revision: Option<nat>, idempotencyKey: Text, now: nat, n: Text, p: Text)
    requires Trusted(env) && Kept(env.alpha, s0, s, seen) && s.namespaces == s0.namespaces
    ensures var t := BindStep(env.alpha, s, seen, auth, CopyRequest(env, bucket, key, target, revision, idempotencyKey, now),
                              now, true);
            && StoreInv(env.alpha, t.store) && Backed(t.store.replay, t.seen)
            && (Live(s0, n, p) && (n, p) != (bucket, key) ==> SameBinding(s0, t.store, n, p))
  {
    hide Trusted, StoreInv, Backed, Kept, BindStep, BindHappened, Canonical, BindRecord, SameBinding, Live;
    var r := CopyRequest(env, bucket, key, target, revision, idempotencyKey, now);
    BindStepKeeps(env.alpha, s0, s, seen, auth, r, now, true);
    var t := BindStep(env.alpha, s, seen, auth, r, now, true);
    KeptBacked(env.alpha, s0, t.store, t.seen);
    BindStepShape(env.alpha, s, seen, auth, r, now, true);
    if Live(s0, n, p) && (n, p) != (bucket, key) {
      if BindHappened(env.alpha, s, r, t.store) {
        BindSpares(env, s0, s, r, t.store, bucket, key, target, revision, map[], now, n, p);
      } else {
        SameNamespaces(s0, t.store, n, p);
      }
    }
  }

  lemma CopySpares(
    env: DistEnv, x: Site, auth: Auth, fromBucket: Text, fromKey: Text, readRefusal: Option<ApiError>, toBucket: Text,
    toKey: Text, idempotencyKey: Text, now: nat, n: Text, p: Text)
    requires Trusted(env) && SiteSound(env, x) && !IsAdmin(auth)
    ensures var t := CopyObject(env, x.store, x.seen, x.buckets, x.locks, auth, fromBucket, fromKey, readRefusal, toBucket, toKey,
                                idempotencyKey, now);
            && StoreInv(env.alpha, t.store) && Backed(t.store.replay, t.seen)
            && (Live(x.store, n, p) && Protects(LockOf(x.locks, LockKey(n, p)), now) ==> SameBinding(x.store, t.store, n, p))
  {
    hide Trusted, StoreInv, Backed, RequireBucket, ObjectKey, ScopeRefusal, Kept, LockKey, LockRefusal, Protects,
      SameBinding, Live, LockOf, IsAdmin, ResolveStep, BindStep, Quiet, Canonical, BindRecord;
    KeptStart(env.alpha, x.store, x.seen);
    KeptBacked(env.alpha, x.store, x.store, x.seen);
    var guarded := Live(x.store, n, p) && Protects(LockOf(x.locks, LockKey(n, p)), now);
    if guarded {
      SameNamespaces(x.store, x.store, n, p);
      RefusesProtected(x.locks, LockKey(n, p), auth, now);
    }
    var fb, tb := RequireBucket(x.buckets, fromBucket), RequireBucket(x.buckets, toBucket);
    var fk, tk := ObjectKey(fromKey), ObjectKey(toKey);
    if fb.Ok? && fk.Ok? && tb.Ok? && tk.Ok? {
      ResolveStepKeeps(env.alpha, x.store, x.store, x.seen, auth, fb.value, fk.value, None, None, now);
      var source := ResolveStep(env.alpha, x.store, x.seen, auth, fb.value, fk.value, None, None, now);
      QuietParts(x.store, source.store);
      KeptBacked(env.alpha, x.store, source.store, source.seen);
      if guarded { SameNamespaces(x.store, source.store, n, p); }
      ResolveStepKeeps(env.alpha, x.store, source.store, source.seen, auth, tb.value, tk.value, None, None, now);
      var e := ResolveStep(env.alpha, source.store, source.seen, auth, tb.value, tk.value, None, None, now);
      QuietParts(source.store, e.store);
      KeptBacked(env.alpha, x.store, e.store, e.seen);
      if guarded { SameNamespaces(x.store, e.store, n, p); }
      if source.reply.Ok? && source.reply.value.target.Some? {
        CopyBindSpares(env, x.store, e.store, e.seen, auth, tb.value, tk.value, source.reply.value.target.value,
                       RevisionOf(Existing(e)), idempotencyKey, now, n, p);
      }
    }
  }

  /** One ordinary action leaves a protected live object bound as it was. */
  lemma ActedSpares(env: DistEnv, x: Site, a: Action, owner: Owner, n: Text, p: Text)
    requires Trusted(env) && SiteSound(env, x) && TokensOk(env.alpha, x.store.replay, owner) && Ordinary(a, owner)
    requires Live(x.store, n, p) && Protects(LockOf(x.locks, LockKey(n, p)), a.now)
    ensures SameBinding(x.store, Acted(env, x, a).store, n, p)
  {
    hide Trusted, StoreInv, StoreObject, DeleteObject, CopyObject, PutRetention, PutLegalHold, LockOf, TokensOk, OwnToken,
      LockKey, Protects, CanonicalBucket, RequireBucket, ScopeRefusal, ObjectKey, IsAdmin, ChunkCiphertext, Count, Ascii,
      Concat, Live, SameBinding;
    SameNamespaces(x.store, x.store, n, p);
    match a.op
    case Put(b, k, spec, idem, payload) =>
      if RequireBucket(x.buckets, b).Ok? && ObjectKey(k).Ok? && payload != [] {
        StoreSpares(env, x, a.auth, RequireBucket(x.buckets, b).value, ObjectKey(k).value, spec, payload, idem, idem,
                    a.now, owner, n, p);
      }
    case Complete(b, k, spec, idem, parts) =>
      if RequireBucket(x.buckets, b).Ok? && Concat(parts) != [] {
        StoreSpares(env, x, a.auth, RequireBucket(x.buckets, b).value, k, spec, Concat(parts),
                    Ascii("complete-init-") + idem, Ascii("complete-") + idem, a.now, owner, n, p);
      }
    case Delete(b, k, idem) => DeleteSpares(env, x, a.auth, b, k, idem, a.now, n, p);
    case Copy(fb, fk, rr, tb, tk, idem) => CopySpares(env, x, a.auth, fb, fk, rr, tb, tk, idem, a.now, n, p);
    case _ =>
  }

  // ------------------------------------------------------------------------ runs

  /** The lock still holds, no looser than it was. */
  predicate Tighter(l: Lock, l': Lock, now: nat) {
    && (l.legalHold ==> l'.legalHold)
    && (Active(l, now) ==> RetentionKept(l, l'))
  }

  /**
   Over every run of ordinary actions, none later than `now`, an object that is
   live and locked at the start, by a hold or by a retention beyond `now`, keeps
   its binding, its hold, its mode and at least its retain-until.
   */
  lemma {:induction false} RunProtects(
    env: DistEnv, x: Site, run: seq<Action>, i: nat, owner: Owner, n: Text, p: Text, now: nat)
    requires Trusted(env) && SiteSound(env, x) && TokensOk(env.alpha, x.store.replay, owner) && i <= |run|
    requires forall j :: 0 <= j < i ==> run[j].now <= now && Ordinary(run[j], owner)
    requires Live(x.store, n, p) && Protects(LockOf(x.locks, LockKey(n, p)), now)
    ensures SiteSound(env, SiteAt(env, x, run, i)) && TokensOk(env.alpha, SiteAt(env, x, run, i).store.replay, owner)
    ensures SameBinding(x.store, SiteAt(env, x, run, i).store, n, p)
    ensures Tighter(LockOf(x.locks, LockKey(n, p)), LockOf(SiteAt(env, x, run, i).locks, LockKey(n, p)), now)
    decreases i
  {
    hide Trusted, SiteSound, Acted, SiteAt, LockKey, IsAdmin, IsCompliance, CanonicalBucket, TokensOk, OwnToken;
    SiteSteps(env, x, run, i);
    if i > 0 {
      RunProtects(env, x, run, i - 1, owner, n, p, now);
      var y := SiteAt(env, x, run, i - 1);
      RecordTightens(env, y, run[i - 1], LockKey(n, p));
      ActedKeeps(env, y, run[i - 1], owner);
      ActedSpares(env, y, run[i - 1], owner, n, p);
    }
  }

  /**
   So in every run from an empty site: from the moment an object is live and
   locked, ordinary actions never move it, whatever happened before.
   */
  lemma LockedObjectsStay(
    env: DistEnv, before: seq<Action>, run: seq<Action>, owner: Owner, n: Text, p: Text, now: nat)
    requires Trusted(env) && forall j :: 0 <= j < |before| ==> OwnToken(before[j].auth, owner)
    requires forall j :: 0 <= j < |run| ==> run[j].now <= now && Ordinary(run[j], owner)
    requires var x := SiteAt(env, EMPTY_SITE, before, |before|);
             Live(x.store, n, p) && Protects(LockOf(x.locks, LockKey(n, p)), now)
    ensures var x := SiteAt(env, EMPTY_SITE, before, |before|);
            var y := SiteAt(env, x, run, |run|);
            SameBinding(x.store, y.store, n, p) && Tighter(LockOf(x.locks, LockKey(n, p)), LockOf(y.locks, LockKey(n, p)), now)
  {
    hide Trusted, SiteSound, SiteAt, Live, Protects, LockOf, LockKey, TokensOk, Ordinary, OwnToken, Tighter, SameBinding;
    EmptySiteSound(env, owner);
    RunSound(env, EMPTY_SITE, before, |before|, owner);
    RunProtects(env, SiteAt(env, EMPTY_SITE, before, |before|), run, |run|, owner, n, p, now);
  }

  /** For compliance mode the record rule holds whoever acts, admin.repair included. */
  lemma {:induction false} RunCompliance(env: DistEnv, x: Site, run: seq<Action>, i: nat, lockKey: Text, now: nat)
    requires i <= |run| && forall j :: 0 <= j < i ==> run[j].now <= now
    requires Active(LockOf(x.locks, lockKey), now) && IsCompliance(LockOf(x.locks, lockKey).mode)
    ensures RetentionKept(LockOf(x.locks, lockKey), LockOf(SiteAt(env, x, run, i).locks, lockKey))
    decreases i
  {
    hide Acted, SiteAt, IsAdmin, IsCompliance, LockOf;
    SiteSteps(env, x, run, i);
    if i > 0 {
      RunCompliance(env, x, run, i - 1, lockKey, now);
      RecordTightens(env, SiteAt(env, x, run, i - 1), run[i - 1], lockKey);
    }
  }

  // ------------------------------------------------- delete and the bucket's spelling

  /** Everything about the delete is in order, locks aside: it names a live object and the token is good and fresh. */
  ghost predicate Deletable(env: DistEnv, x: Site, a: Auth, bucket: Text, key: Text, idempotencyKey: Text, now: nat) {
    && RequireBucket(x.buckets, bucket).Ok? && ObjectKey(key).Ok?
    && var b, k := RequireBucket(x.buckets, bucket).value, ObjectKey(key).value;
    && Live(x.store, b, k) && Canonical(b, k) == Ok((b, k)) && !Blank(b) && !Blank(k)
    && ScopeRefusal(env.alpha.tenant, a, MutationScope(), b, k) == None
    && PolicyDenial(a, ResolveMeta(env.alpha, b, k), now) == None
    && PolicyDenial(a, MutationMeta(env.alpha, UnbindOp, b, k, idempotencyKey), now) == None
    && a.claims.jti.Some?
    && ReplayKey(env.alpha.tenant, a.claims.jti.value, UnbindOp, b + [COLON] + k) !in x.store.replay
  }

  lemma UnbindSucceeds(env: DistEnv, s: Store, seen: Cache, auth: Auth, b: Text, k: Text, idempotencyKey: Text, now: nat)
    requires Trusted(env) && Backed(s.replay, seen) && Live(s, b, k) && Canonical(b, k) == Ok((b, k)) && !Blank(b) && !Blank(k)
    requires PolicyDenial(auth, MutationMeta(env.alpha, UnbindOp, b, k, idempotencyKey), now) == None
    requires auth.claims.jti.Some?
    requires ReplayKey(env.alpha.tenant, auth.claims.jti.value, UnbindOp, b + [COLON] + k) !in s.replay
    ensures var r := DeleteRequest(env, b, k, s.namespaces[b].bindings[k].revision, idempotencyKey, now);
            var t := UnbindStep(env.alpha, s, seen, auth, r, now);
            t.reply.Ok? && b in t.store.namespaces && !Live(t.store, b, k)
  {
    hide PolicyDenial, ReplayKey, Canonical, Blank, RecordCid;
    var revision := s.namespaces[b].bindings[k].revision;
    assert env.alpha.verify(env.sign(DeleteRecord(env, b, k, revision, now))) == Some(DeleteRecord(env, b, k, revision, now));
  }

  /**
   A delete that is otherwise in order goes through exactly when no lock is
   found under the bucket as the request spells it, whatever is recorded under
   the bucket it deletes from.
   */
  lemma DeleteGoesThroughIff(
    env: DistEnv, x: Site, auth: Auth, bucket: Text, key: Text, idempotencyKey: Text, now: nat)
    requires Trusted(env) && SiteSound(env, x) && Deletable(env, x, auth, bucket, key, idempotencyKey, now)
    ensures var b, k := RequireBucket(x.buckets, bucket).value, ObjectKey(key).value;
            var t := DeleteObject(env, x.store, x.seen, x.buckets, x.locks, auth, bucket, key, idempotencyKey, now);
            && (t.reply.Ok? <==> LockRefusal(x.locks, LockKey(bucket, k), auth, now) == None)
            && (t.reply.Ok? ==> !Live(t.store, b, k))
  {
    hide Trusted, StoreInv, CanonicalPath, Blank, PolicyDenial, ReplayKey, ScopeRefusal, LockRefusal, LockKey, UnbindStep,
      RequireBucket, ObjectKey, Canonical;
    var b, k := RequireBucket(x.buckets, bucket).value, ObjectKey(key).value;
    UnbindSucceeds(env, x.store, x.seen, auth, b, k, idempotencyKey, now);
  }

  /** Two spellings of one bucket have different lock records. */
  lemma LockKeyOfSpelling(bucket: Text, other: Text, key: Text)
    ensures LockKey(bucket, key) == LockKey(other, key) <==> bucket == other
  {
    var x, y := LockKey(bucket, key), LockKey(other, key);
    var n := |Ascii("object-")|;
    assert x[n..|x| - |key| - 1] == bucket;
    assert y[n..|y| - |key| - 1] == other;
  }

  lemma SpelledDecodes()
    ensures Decoded([0x62, 0x25, 0x36, 0x31]) == Good([0x62, 0x61])
  {
    var s: Text := [0x62, 0x25, 0x36, 0x31];
    var t := s[1..];
    assert t == [0x25, 0x36, 0x31] && t[3..] == [] && EscapeAt(t, 0);
    assert 16 * HexValue(t[1]) + HexValue(t[2]) == 0x61;
    PrependLaws([0x61], [], Good([]));
    assert [0x62] + [0x61] == [0x62, 0x61];
  }

  lemma SpelledBucket()
    ensures CanonicalBucket(Ascii("b%61")) == Ok(Ascii("ba"))
  {
    hide CanonicalPath, CanonicalSegments, Decoded;
    var s: Text := [0x62, 0x25, 0x36, 0x31];
    assert s == Ascii("b%61") && [0x62, 0x61] == Ascii("ba");
    SpelledDecodes();
    CanonicalPathIsDecoded(s);
    assert LeadingSpace(s) == 0 && LeadingSpace([0x62, 0x61]) == 0;
  }

  /** "b%61" names the bucket "ba"; a delete spelled so removes an object of it that is under legal hold. */
  lemma HeldObjectDeleted(env: DistEnv, x: Site, auth: Auth, key: Text, idempotencyKey: Text, now: nat)
    requires Trusted(env) && SiteSound(env, x) && ObjectKey(key).Ok?
    requires x.locks == map[LockKey(Ascii("ba"), ObjectKey(key).value) := Lock(None, true, None)]
    requires Deletable(env, x, auth, Ascii("b%61"), key, idempotencyKey, now)
    ensures RequireBucket(x.buckets, Ascii("b%61")) == Ok(Ascii("ba"))
    ensures var t := DeleteObject(env, x.store, x.seen, x.buckets, x.locks, auth, Ascii("b%61"), key, idempotencyKey, now);
            t.reply.Ok? && Live(x.store, Ascii("ba"), ObjectKey(key).value) && !Live(t.store, Ascii("ba"), ObjectKey(key).value)
  {
    hide Trusted, SiteSound, ObjectKey, DeleteObject, LockKey, CanonicalBucket, Ascii, Canonical, ScopeRefusal, Blank,
      PolicyDenial, ReplayKey;
    SpelledBucket();
    assert |Ascii("b%61")| != |Ascii("ba")|;
    LockKeyOfSpelling(Ascii("b%61"), Ascii("ba"), ObjectKey(key).value);
    DeleteGoesThroughIff(env, x, auth, Ascii("b%61"), key, idempotencyKey, now);
  }
}
