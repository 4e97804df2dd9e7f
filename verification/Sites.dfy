/**
 Runs of the distribution service: object operations, locks, buckets and
 restarts, with the tokens that callers present.
 */
module Sites {
  import opened Basics
  import opened Paths
  import opened Records
  import opened Chunker
  import opened Policy
  import opened Service
  import opened ServiceInvariants
  import opened Distribution
  import opened Uploads
  import opened Objects
  import opened Tokens

  /** One distribution service: the object service's store and cache, the buckets, the lock records. */
  datatype Site = Site(store: Store, seen: Cache, buckets: set<Text>, locks: map<Text, Lock>)

  datatype Op =
    | Put(bucket: Text, key: Text, spec: Spec, idempotencyKey: Text, payload: Text)
    | Complete(bucket: Text, key: Text, spec: Spec, idempotencyKey: Text, parts: seq<Text>)
    | Delete(bucket: Text, key: Text, idempotencyKey: Text)
    | Copy(fromBucket: Text, fromKey: Text, readRefusal: Option<ApiError>, toBucket: Text, toKey: Text, idempotencyKey: Text)
    | Retain(bucket: Text, key: Text, until: Option<nat>, mode: Option<Text>)
    | Hold(bucket: Text, key: Text, hold: bool)
    | SetBuckets(buckets: set<Text>)
    | Restart

  datatype Action = Action(auth: Auth, now: nat, op: Op)

  function Acted(env: DistEnv, x: Site, a: Action): Site {
    match a.op
    case Put(b, k, spec, idem, payload) =>
      var t := PutObject(env, x.store, x.seen, x.buckets, x.locks, a.auth, b, k, spec, idem, payload, a.now);
      x.(store := t.store, seen := t.seen)
    case Complete(b, k, spec, idem, parts) =>
      var t := CompleteMultipart(env, x.store, x.seen, x.buckets, x.locks, a.auth, b, k, spec, idem, parts, a.now);
      x.(store := t.store, seen := t.seen)
    case Delete(b, k, idem) =>
      var t := DeleteObject(env, x.store, x.seen, x.buckets, x.locks, a.auth, b, k, idem, a.now);
      x.(store := t.store, seen := t.seen)
    case Copy(fb, fk, rr, tb, tk, idem) =>
      var t := CopyObject(env, x.store, x.seen, x.buckets, x.locks, a.auth, fb, fk, rr, tb, tk, idem, a.now);
      x.(store := t.store, seen := t.seen)
    case Retain(b, k, until, mode) =>
      x.(locks := PutRetention(env.alpha.tenant, x.buckets, x.locks, a.auth, b, k, until, mode, a.now).0)
    case Hold(b, k, hold) =>
      x.(locks := PutLegalHold(env.alpha.tenant, x.buckets, x.locks, a.auth, b, k, hold).0)
    case SetBuckets(buckets) => x.(buckets := buckets)
    case Restart => x.(seen := map[])
  }

  function SiteAt(env: DistEnv, x: Site, run: seq<Action>, n: nat): Site
    requires n <= |run|
  {
    if n == 0 then x else Acted(env, SiteAt(env, x, run, n - 1), run[n - 1])
  }

  ghost predicate SiteSound(env: DistEnv, x: Site) {
    StoreInv(env.alpha, x.store) && Backed(x.store.replay, x.seen)
  }

  lemma SiteSteps(env: DistEnv, x: Site, run: seq<Action>, n: nat)
    requires n <= |run|
    ensures n == 0 ==> SiteAt(env, x, run, n) == x
    ensures n > 0 ==> SiteAt(env, x, run, n) == Acted(env, SiteAt(env, x, run, n - 1), run[n - 1])
  {
    hide Acted;
  }

  // --------------------------------------------------------------- what runs keep

  lemma DeleteKeeps(
    env: DistEnv, x: Site, auth: Auth, bucket: Text, key: Text, idempotencyKey: Text, now: nat, owner: Owner)
    requires SiteSound(env, x) && TokensOk(env.alpha, x.store.replay, owner) && OwnToken(auth, owner)
    ensures var t := DeleteObject(env, x.store, x.seen, x.buckets, x.locks, auth, bucket, key, idempotencyKey, now);
            Kept(env.alpha, x.store, t.store, t.seen) && TokensOk(env.alpha, t.store.replay, owner)
  {
    hide StoreInv, Backed, RequireBucket, ObjectKey, ScopeRefusal, Kept, LockKey, LockRefusal, ResolveStep, UnbindStep,
      Quiet, TokensOk, NewKeys, OwnToken;
    KeptStart(env.alpha, x.store, x.seen);
    var b, k := RequireBucket(x.buckets, bucket), ObjectKey(key);
    if b.Ok? && k.Ok? {
      ResolveStepKeeps(env.alpha, x.store, x.store, x.seen, auth, b.value, k.value, None, None, now);
      ResolveReplay(env.alpha, x.store, x.seen, auth, b.value, k.value, None, None, now);
      var e := ResolveStep(env.alpha, x.store, x.seen, auth, b.value, k.value, None, None, now);
      if e.reply.Ok? {
        var revision := e.reply.value.revision;
        var record := MutationRecord(1, env.alpha.tenant, b.value, k.value, UnbindKind, None, Some(revision), None, map[], now);
        var r := UnbindRequest(b.value, k.value, revision, false, idempotencyKey, env.sign(record));
        UnbindStepKeeps(env.alpha, x.store, e.store, e.seen, auth, r, now);
        UnbindKeys(env.alpha, e.store, e.seen, auth, r, now, None);
        var t := UnbindStep(env.alpha, e.store, e.seen, auth, r, now);
        OtherKeepsTokens(env.alpha, x.store, t.store, t.seen, auth, owner);
      }
    }
  }

  lemma CopyKeeps(
    env: DistEnv, x: Site, auth: Auth, fromBucket: Text, fromKey: Text, readRefusal: Option<ApiError>, toBucket: Text,
    toKey: Text, idempotencyKey: Text, now: nat, owner: Owner)
    requires SiteSound(env, x) && TokensOk(env.alpha, x.store.replay, owner) && OwnToken(auth, owner)
    ensures var t := CopyObject(env, x.store, x.seen, x.buckets, x.locks, auth, fromBucket, fromKey, readRefusal, toBucket,
                                toKey, idempotencyKey, now);
            Kept(env.alpha, x.store, t.store, t.seen) && TokensOk(env.alpha, t.store.replay, owner)
  {
    hide StoreInv, Backed, RequireBucket, ObjectKey, ScopeRefusal, Kept, LockKey, LockRefusal, ResolveStep, BindStep,
      Quiet, TokensOk, NewKeys, OwnToken, BindRecord;
    KeptStart(env.alpha, x.store, x.seen);
    var fb, tb := RequireBucket(x.buckets, fromBucket), RequireBucket(x.buckets, toBucket);
    var fk, tk := ObjectKey(fromKey), ObjectKey(toKey);
    if fb.Ok? && fk.Ok? && tb.Ok? && tk.Ok? {
      ResolveStepKeeps(env.alpha, x.store, x.store, x.seen, auth, fb.value, fk.value, None, None, now);
      ResolveReplay(env.alpha, x.store, x.seen, auth, fb.value, fk.value, None, None, now);
      var source := ResolveStep(env.alpha, x.store, x.seen, auth, fb.value, fk.value, None, None, now);
      ResolveStepKeeps(env.alpha, x.store, source.store, source.seen, auth, tb.value, tk.value, None, None, now);
      ResolveReplay(env.alpha, source.store, source.seen, auth, tb.value, tk.value, None, None, now);
      var e := ResolveStep(env.alpha, source.store, source.seen, auth, tb.value, tk.value, None, None, now);
      if source.reply.Ok? && source.reply.value.target.Some? {
        var target, revision := source.reply.value.target.value, RevisionOf(Existing(e));
        var r := BindRequest(tb.value, tk.value, target, revision, revision.None?, map[], None, idempotencyKey,
                             env.sign(BindRecord(env.alpha.tenant, tb.value, tk.value, target, revision, map[], now)));
        BindStepKeeps(env.alpha, x.store, e.store, e.seen, auth, r, now, true);
        BindKeys(env.alpha, e.store, e.seen, auth, r, now, true, None);
        var t := BindStep(env.alpha, e.store, e.seen, auth, r, now, true);
        OtherKeepsTokens(env.alpha, x.store, t.store, t.seen, auth, owner);
      }
    }
  }

  lemma PutKeeps(env: DistEnv, x: Site, a: Action, owner: Owner)
    requires SiteSound(env, x) && TokensOk(env.alpha, x.store.replay, owner) && OwnToken(a.auth, owner) && a.op.Put?
    ensures var t := PutObject(env, x.store, x.seen, x.buckets, x.locks, a.auth, a.op.bucket, a.op.key, a.op.spec,
                               a.op.idempotencyKey, a.op.payload, a.now);
            Kept(env.alpha, x.store, t.store, t.seen) && TokensOk(env.alpha, t.store.replay, owner)
  {
    hide StoreInv, Backed, StoreObject, RequireBucket, ScopeRefusal, ObjectKey, ChunkCiphertext, Kept, TokensOk, OwnToken,
      FirstTime, PayloadManifest;
    KeptStart(env.alpha, x.store, x.seen);
    var b, k := RequireBucket(x.buckets, a.op.bucket), ObjectKey(a.op.key);
    if b.Ok? && k.Ok? && a.op.payload != [] {
      StoreKeepsTokens(env, x.store, x.seen, x.locks, a.auth, b.value, k.value, a.op.spec, a.op.payload,
                       a.op.idempotencyKey, a.op.idempotencyKey, a.now, owner);
    }
  }

  lemma CompleteKeeps(env: DistEnv, x: Site, a: Action, owner: Owner)
    requires SiteSound(env, x) && TokensOk(env.alpha, x.store.replay, owner) && OwnToken(a.auth, owner) && a.op.Complete?
    ensures var t := CompleteMultipart(env, x.store, x.seen, x.buckets, x.locks, a.auth, a.op.bucket, a.op.key, a.op.spec,
                                       a.op.idempotencyKey, a.op.parts, a.now);
            Kept(env.alpha, x.store, t.store, t.seen) && TokensOk(env.alpha, t.store.replay, owner)
  {
    hide StoreInv, Backed, StoreObject, RequireBucket, ScopeRefusal, ChunkCiphertext, Kept, TokensOk, OwnToken,
      FirstTime, PayloadManifest, Count, Concat, Ascii;
    KeptStart(env.alpha, x.store, x.seen);
    var b := RequireBucket(x.buckets, a.op.bucket);
    if b.Ok? && Concat(a.op.parts) != [] {
      StoreKeepsTokens(env, x.store, x.seen, x.locks, a.auth, b.value, a.op.key, a.op.spec, Concat(a.op.parts),
                       Ascii("complete-init-") + a.op.idempotencyKey, Ascii("complete-") + a.op.idempotencyKey, a.now, owner);
    }
  }

  /** Every action keeps the store sound and the token ids in order. */
  lemma ActedKeeps(env: DistEnv, x: Site, a: Action, owner: Owner)
    requires SiteSound(env, x) && TokensOk(env.alpha, x.store.replay, owner) && OwnToken(a.auth, owner)
    ensures SiteSound(env, Acted(env, x, a)) && TokensOk(env.alpha, Acted(env, x, a).store.replay, owner)
  {
    hide StoreInv, PutObject, CompleteMultipart, DeleteObject, CopyObject, PutRetention, PutLegalHold, Kept, TokensOk, OwnToken;
    var t := Acted(env, x, a);
    match a.op {
      case Put(_, _, _, _, _) => PutKeeps(env, x, a, owner);
      case Complete(_, _, _, _, _) => CompleteKeeps(env, x, a, owner);
      case Delete(b, k, idem) => DeleteKeeps(env, x, a.auth, b, k, idem, a.now, owner);
      case Copy(fb, fk, rr, tb, tk, idem) => CopyKeeps(env, x, a.auth, fb, fk, rr, tb, tk, idem, a.now, owner);
      case _ => KeptStart(env.alpha, x.store, t.seen);
    }
    KeptBacked(env.alpha, x.store, t.store, t.seen);
  }

  lemma {:induction false} RunSound(env: DistEnv, x: Site, run: seq<Action>, n: nat, owner: Owner)
    requires SiteSound(env, x) && TokensOk(env.alpha, x.store.replay, owner) && n <= |run|
    requires forall j :: 0 <= j < n ==> OwnToken(run[j].auth, owner)
    ensures SiteSound(env, SiteAt(env, x, run, n)) && TokensOk(env.alpha, SiteAt(env, x, run, n).store.replay, owner)
    decreases n
  {
    hide SiteSound, TokensOk, Acted, SiteAt, OwnToken;
    SiteSteps(env, x, run, n);
    if n > 0 {
      RunSound(env, x, run, n - 1, owner);
      ActedKeeps(env, SiteAt(env, x, run, n - 1), run[n - 1], owner);
    }
  }

  /** A site that nothing has happened to. */
  const EMPTY_SITE: Site := Site(EMPTY_STORE, map[], {}, map[])

  lemma EmptySiteSound(env: DistEnv, owner: Owner)
    ensures SiteSound(env, EMPTY_SITE) && TokensOk(env.alpha, EMPTY_SITE.store.replay, owner)
  {
    EmptyStoreInv(env.alpha);
    hide StoreInv;
  }

  // ------------------------------------------------------------- write, then read

  /** With the ids in order, a first init is also a first commit. */
  lemma FirstIsFresh(env: Env, s: Store, auth: Auth, m: Manifest, owner: Owner)
    requires TokensOk(env, s.replay, owner) && OwnToken(auth, owner) && FirstTime(env, s, auth, m)
    ensures FreshWrite(env, s, auth, m)
  {
    hide SmallManifest, ManifestCid, SessionId, ReplayKey;
    if SmallManifest(m) && auth.claims.jti.Some? { TokensOfCaller(env, s.replay, auth, ManifestCid(env.h, m), owner); }
  }

  /**
   In every run from an empty site in which token ids belong to one token each,
   an object that a put_object reports stored reads back as its payload, and any
   range as that slice, until its path is mutated or its manifest rolled back.
   */
  lemma RunPutThenGet(
    env: DistEnv, before: seq<Action>, a: Action, owner: Owner, d: Deployment, run: seq<Call>, reader: Auth,
    selector: Selector, range: Option<Range>, later: nat)
    requires Trusted(env) && CollisionFree(env.alpha.h) && a.op.Put?
    requires OwnToken(a.auth, owner) && forall j :: 0 <= j < |before| ==> OwnToken(before[j].auth, owner)
    requires var x := SiteAt(env, EMPTY_SITE, before, |before|);
             PutObject(env, x.store, x.seen, x.buckets, x.locks, a.auth, a.op.bucket, a.op.key, a.op.spec,
                       a.op.idempotencyKey, a.op.payload, a.now).reply.Ok?
    ensures CanonicalPath(a.op.bucket).Good? && CanonicalPath(a.op.key).Good?
    ensures var x := SiteAt(env, EMPTY_SITE, before, |before|);
            var b, k := CanonicalPath(a.op.bucket).value, CanonicalPath(a.op.key).value;
            && Canonical(b, k) == Ok((b, k))
            && ReadsBack(env.alpha,
                         PutObject(env, x.store, x.seen, x.buckets, x.locks, a.auth, a.op.bucket, a.op.key, a.op.spec,
                                   a.op.idempotencyKey, a.op.payload, a.now),
                         d, b, k, run, a.op.payload, reader, selector, range, later)
  {
    hide Trusted, CollisionFree, OwnToken, SiteAt, StoreInv, Backed, TokensOk, PutObject, CanonicalPath, Canonical, ReadsBack,
      FirstTime, FreshWrite, PayloadManifest;
    var x := SiteAt(env, EMPTY_SITE, before, |before|);
    EmptySiteSound(env, owner);
    RunSound(env, EMPTY_SITE, before, |before|, owner);
    PutIsFirst(env, x, a, owner);
    FirstIsFresh(env.alpha, x.store, a.auth, PayloadManifest(env.alpha, a.op.payload, a.op.spec, a.now), owner);
    PutThenGet(env, x.store, x.seen, x.buckets, x.locks, a.auth, a.op.bucket, a.op.key, a.op.spec, a.op.idempotencyKey,
               a.op.payload, a.now, d, run, reader, selector, range, later);
  }

  /** A put that succeeds is its token id's first of that manifest. */
  lemma PutIsFirst(env: DistEnv, x: Site, a: Action, owner: Owner)
    requires SiteSound(env, x) && TokensOk(env.alpha, x.store.replay, owner) && OwnToken(a.auth, owner) && a.op.Put?
    requires PutObject(env, x.store, x.seen, x.buckets, x.locks, a.auth, a.op.bucket, a.op.key, a.op.spec,
                       a.op.idempotencyKey, a.op.payload, a.now).reply.Ok?
    ensures FirstTime(env.alpha, x.store, a.auth, PayloadManifest(env.alpha, a.op.payload, a.op.spec, a.now))
  {
    hide StoreInv, Backed, TokensOk, OwnToken, StoreObject, RequireBucket, ObjectKey, ScopeRefusal, ChunkCiphertext, FirstTime,
      Kept, PayloadManifest;
    StoreKeepsTokens(env, x.store, x.seen, x.locks, a.auth, RequireBucket(x.buckets, a.op.bucket).value,
                     ObjectKey(a.op.key).value, a.op.spec, a.op.payload, a.op.idempotencyKey, a.op.idempotencyKey, a.now,
                     owner);
  }

  lemma CompleteIsFirst(env: DistEnv, x: Site, a: Action, owner: Owner)
    requires SiteSound(env, x) && TokensOk(env.alpha, x.store.replay, owner) && OwnToken(a.auth, owner) && a.op.Complete?
    requires CompleteMultipart(env, x.store, x.seen, x.buckets, x.locks, a.auth, a.op.bucket, a.op.key, a.op.spec,
                               a.op.idempotencyKey, a.op.parts, a.now).reply.Ok?
    ensures FirstTime(env.alpha, x.store, a.auth, PayloadManifest(env.alpha, Concat(a.op.parts), a.op.spec, a.now))
  {
    hide StoreInv, Backed, TokensOk, OwnToken, StoreObject, RequireBucket, ScopeRefusal, ChunkCiphertext, FirstTime,
      Kept, PayloadManifest, Count, Concat, Ascii;
    StoreKeepsTokens(env, x.store, x.seen, x.locks, a.auth, RequireBucket(x.buckets, a.op.bucket).value, a.op.key, a.op.spec,
                     Concat(a.op.parts), Ascii("complete-init-") + a.op.idempotencyKey,
                     Ascii("complete-") + a.op.idempotencyKey, a.now, owner);
  }

  /** Likewise a completed multipart upload reads back as the concatenation of its parts. */
  lemma RunCompleteThenGet(
    env: DistEnv, before: seq<Action>, a: Action, owner: Owner, d: Deployment, run: seq<Call>, reader: Auth,
    selector: Selector, range: Option<Range>, later: nat)
    requires Trusted(env) && CollisionFree(env.alpha.h) && a.op.Complete?
    requires OwnToken(a.auth, owner) && forall j :: 0 <= j < |before| ==> OwnToken(before[j].auth, owner)
    requires var x := SiteAt(env, EMPTY_SITE, before, |before|);
             CompleteMultipart(env, x.store, x.seen, x.buckets, x.locks, a.auth, a.op.bucket, a.op.key, a.op.spec,
                               a.op.idempotencyKey, a.op.parts, a.now).reply.Ok?
    ensures CanonicalPath(a.op.bucket).Good?
    ensures var x := SiteAt(env, EMPTY_SITE, before, |before|);
            ReadsBack(env.alpha,
                      CompleteMultipart(env, x.store, x.seen, x.buckets, x.locks, a.auth, a.op.bucket, a.op.key, a.op.spec,
                                        a.op.idempotencyKey, a.op.parts, a.now),
                      d, CanonicalPath(a.op.bucket).value, a.op.key, run, Concat(a.op.parts), reader, selector, range, later)
  {
    hide Trusted, CollisionFree, OwnToken, SiteAt, StoreInv, Backed, TokensOk, CompleteMultipart, CanonicalPath, ReadsBack,
      FirstTime, FreshWrite, PayloadManifest, Concat;
    var x := SiteAt(env, EMPTY_SITE, before, |before|);
    EmptySiteSound(env, owner);
    RunSound(env, EMPTY_SITE, before, |before|, owner);
    CompleteIsFirst(env, x, a, owner);
    FirstIsFresh(env.alpha, x.store, a.auth, PayloadManifest(env.alpha, Concat(a.op.parts), a.op.spec, a.now), owner);
    CompleteThenGet(env, x.store, x.seen, x.buckets, x.locks, a.auth, a.op.bucket, a.op.key, a.op.spec, a.op.idempotencyKey,
                    a.op.parts, a.now, d, run, reader, selector, range, later);
  }
}
