/**
 The lock requests themselves: when they are granted, what they write, and that
 what they write protects.
 */
module Retention {
  import opened Basics
  import opened Paths
  import opened Policy
  import opened Service
  import opened Access
  import opened Distribution
  import opened Uploads
  import opened Tokens
  import opened Sites
  import opened Locks

  // ------------------------------------------------------------------ who, and where

  /** The caller is of the tenant, may mutate, and its prefixes cover bucket and key. */
  predicate MayMutate(tenant: Text, auth: Auth, bucket: Text, key: Text) {
    && auth.claims.tenant == tenant
    && (WriteScope in auth.claims.ops || BindScope in auth.claims.ops || UnbindScope in auth.claims.ops)
    && Covers(auth.claims.namespacePrefix, Some(bucket)) && Covers(auth.claims.pathPrefix, Some(key))
  }

  lemma ScopeRefusalIff(tenant: Text, auth: Auth, bucket: Text, key: Text)
    ensures ScopeRefusal(tenant, auth, MutationScope(), bucket, key) == None <==> MayMutate(tenant, auth, bucket, key)
  {
    hide SegmentPrefixMatches, Covers;
    CoversIff(auth.claims.namespacePrefix, Some(bucket));
    CoversIff(auth.claims.pathPrefix, Some(key));
    var ops := auth.claims.ops;
    assert HasAny(auth, MutationScope()) <==> WriteScope in ops || BindScope in ops || UnbindScope in ops;
  }

  /** A bucket name: one segment, not blank, before and after decoding. */
  predicate NamesBucket(bucket: Text, canonical: Text) {
    && !Blank(bucket) && 0x2F !in bucket && CanonicalPath(bucket) == Good(canonical)
    && !Blank(canonical) && 0x2F !in canonical
  }

  lemma CanonicalBucketIff(bucket: Text, canonical: Text)
    ensures CanonicalBucket(bucket) == Ok(canonical) <==> NamesBucket(bucket, canonical)
  {
    hide CanonicalPath, Blank;
  }

  /** A request for this existing bucket and this key by someone who may change them. */
  predicate Addresses(
    tenant: Text, buckets: set<Text>, auth: Auth, bucket: Text, key: Text, b: Text, k: Text)
  {
    && NamesBucket(bucket, b) && CanonicalPath(key) == Good(k) && MayMutate(tenant, auth, b, k)
    && exists again :: again in buckets && NamesBucket(b, again)
  }

  lemma LockPlaceIff(tenant: Text, buckets: set<Text>, auth: Auth, bucket: Text, key: Text, b: Text, k: Text)
    requires CanonicalPath(bucket) == Good(b) && CanonicalPath(key) == Good(k)
    ensures LockPlace(tenant, buckets, auth, bucket, key).Ok? <==> Addresses(tenant, buckets, auth, bucket, key, b, k)
    ensures Addresses(tenant, buckets, auth, bucket, key, b, k) ==>
              LockPlace(tenant, buckets, auth, bucket, key) == Ok(Ascii("object-") + b + [0x2D] + k)
  {
    hide CanonicalPath, ScopeRefusal, MayMutate, NamesBucket, Ascii, CanonicalBucket;
    CanonicalBucketIff(bucket, b);
    ScopeRefusalIff(tenant, auth, b, k);
    assert CanonicalBucket(bucket).Ok? ==> CanonicalBucket(bucket) == Ok(b) by { BucketIsPath(bucket); }
    forall again ensures CanonicalBucket(b) == Ok(again) <==> NamesBucket(b, again) { CanonicalBucketIff(b, again); }
  }

  lemma BucketIsPath(bucket: Text)
    ensures CanonicalBucket(bucket).Ok? ==> CanonicalPath(bucket) == Good(CanonicalBucket(bucket).value)
  {
    hide CanonicalPath, Blank;
  }

  // -------------------------------------------------------------------- what is written

  /** "compliance", each letter in either case. */
  predicate SaysCompliance(mode: Option<Text>) {
    && mode.Some? && |mode.value| == 10
    && forall i :: 0 <= i < 10 ==>
         mode.value[i] == Ascii("compliance")[i] || mode.value[i] == Ascii("COMPLIANCE")[i]
  }

  lemma ComplianceIff(mode: Option<Text>)
    ensures IsCompliance(mode) <==> SaysCompliance(mode)
  {
    var low, up := Ascii("compliance"), Ascii("COMPLIANCE");
    assert low == [0x63, 0x6F, 0x6D, 0x70, 0x6C, 0x69, 0x61, 0x6E, 0x63, 0x65];
    assert up == [0x43, 0x4F, 0x4D, 0x50, 0x4C, 0x49, 0x41, 0x4E, 0x43, 0x45];
    if mode.Some? && |mode.value| == 10 {
      forall i | 0 <= i < 10
        ensures Lower(mode.value[i]) == Lower(low[i]) <==> mode.value[i] == low[i] || mode.value[i] == up[i]
      {
        LetterCase(mode.value[i], low[i]);
      }
    }
  }

  lemma LetterCase(b: byte, low: byte)
    requires 0x61 <= low <= 0x7A
    ensures Lower(b) == Lower(low) <==> b == low || b == low - 32
  {
  }

  /** No retention is running, or it is prolonged in its mode, or an administrator changes one that is not compliance. */
  predicate MayRetain(l: Lock, until: Option<nat>, mode: Option<Text>, auth: Auth, now: nat) {
    || l.until.None? || l.until.value <= now
    || (until.Some? && l.until.value <= until.value && mode == l.mode)
    || (AdminRepair in auth.claims.ops && !SaysCompliance(l.mode))
  }

  lemma RetentionRefusalIff(l: Lock, until: Option<nat>, mode: Option<Text>, auth: Auth, now: nat)
    ensures RetentionRefusal(l, until, mode, auth, now) == None <==> MayRetain(l, until, mode, auth, now)
  {
    hide IsCompliance, SaysCompliance;
    ComplianceIff(l.mode);
  }

  /** The record at a key, or the one a missing record stands for. */
  function Held(locks: map<Text, Lock>, key: Text): Lock {
    if key in locks then locks[key] else Lock(None, false, None)
  }

  /** put_object_retention: granted exactly then, and it writes exactly the retention asked for. */
  lemma RetentionWrites(
    tenant: Text, buckets: set<Text>, locks: map<Text, Lock>, auth: Auth, bucket: Text, key: Text, until: Option<nat>,
    mode: Option<Text>, now: nat, b: Text, k: Text)
    requires CanonicalPath(bucket) == Good(b) && CanonicalPath(key) == Good(k)
    ensures var (locks', r) := PutRetention(tenant, buckets, locks, auth, bucket, key, until, mode, now);
            var place := Ascii("object-") + b + [0x2D] + k;
            var l := Held(locks, place);
            && (r.Ok? <==> Addresses(tenant, buckets, auth, bucket, key, b, k) && MayRetain(l, until, mode, auth, now))
            && (r.Ok? ==> r.value == Lock(until, l.legalHold, mode) && locks' == locks[place := r.value])
            && (r.Err? ==> locks' == locks)
  {
    hide CanonicalPath, Addresses, MayRetain, RetentionRefusal, LockPlace, Ascii;
    LockPlaceIff(tenant, buckets, auth, bucket, key, b, k);
    RetentionRefusalIff(Held(locks, Ascii("object-") + b + [0x2D] + k), until, mode, auth, now);
  }

  /** put_object_legal_hold: likewise; only an administrator lifts a hold. */
  lemma HoldWrites(
    tenant: Text, buckets: set<Text>, locks: map<Text, Lock>, auth: Auth, bucket: Text, key: Text, hold: bool, b: Text,
    k: Text)
    requires CanonicalPath(bucket) == Good(b) && CanonicalPath(key) == Good(k)
    ensures var (locks', r) := PutLegalHold(tenant, buckets, locks, auth, bucket, key, hold);
            var place := Ascii("object-") + b + [0x2D] + k;
            var l := Held(locks, place);
            && (r.Ok? <==> Addresses(tenant, buckets, auth, bucket, key, b, k) &&
                           (l.legalHold ==> hold || AdminRepair in auth.claims.ops))
            && (r.Ok? ==> r.value == Lock(l.until, hold, l.mode) && locks' == locks[place := r.value])
            && (r.Err? ==> locks' == locks)
  {
    hide CanonicalPath, Addresses, LockPlace, Ascii;
    LockPlaceIff(tenant, buckets, auth, bucket, key, b, k);
  }

  /** A lock stands in the way exactly as a hold, or as a running retention of anyone but an administrator. */
  lemma LockRefusesIff(locks: map<Text, Lock>, lockKey: Text, auth: Auth, now: nat)
    ensures var l := Held(locks, lockKey);
            && (LockRefusal(locks, lockKey, auth, now) == Some(LegalHoldActive) <==> l.legalHold)
            && (LockRefusal(locks, lockKey, auth, now) == Some(LockConflict) <==>
                !l.legalHold && l.until.Some? && now < l.until.value && AdminRepair !in auth.claims.ops)
            && (LockRefusal(locks, lockKey, auth, now) == None <==>
                !l.legalHold && (l.until.Some? && now < l.until.value ==> AdminRepair in auth.claims.ops))
  {
  }

  // ---------------------------------------------------------------------- what it protects

  /**
   Once put_object_retention has succeeded on a live object, ordinary actions
   leave its binding alone until the time it was given.
   */
  lemma RetainedObjectsStay(
    env: DistEnv, x: Site, a: Action, run: seq<Action>, i: nat, owner: Owner, b: Text, k: Text, now: nat)
    requires Trusted(env) && SiteSound(env, x) && TokensOk(env.alpha, x.store.replay, owner) && OwnToken(a.auth, owner)
    requires a.op.Retain? && CanonicalPath(a.op.bucket) == Good(b) && CanonicalPath(a.op.key) == Good(k)
    requires PutRetention(env.alpha.tenant, x.buckets, x.locks, a.auth, a.op.bucket, a.op.key, a.op.until, a.op.mode,
                          a.now).1.Ok?
    requires a.op.until.Some? && now < a.op.until.value && Live(x.store, b, k)
    requires i <= |run| && forall j :: 0 <= j < i ==> run[j].now <= now && Ordinary(run[j], owner)
    ensures var y := SiteAt(env, Acted(env, x, a), run, i);
            && SameBinding(x.store, y.store, b, k)
            && var l := Held(y.locks, LockKey(b, k));
            l.until.Some? && l.until.value >= a.op.until.value && l.mode == a.op.mode
  {
    hide Trusted, SiteSound, TokensOk, OwnToken, CanonicalPath, SiteAt, Live, SameBinding, PutRetention, Ordinary, PutObject,
      CompleteMultipart, DeleteObject, CopyObject, PutLegalHold, Addresses, MayRetain, Ascii;
    RetentionWrites(env.alpha.tenant, x.buckets, x.locks, a.auth, a.op.bucket, a.op.key, a.op.until, a.op.mode, a.now, b, k);
    ActedKeeps(env, x, a, owner);
    RunProtects(env, Acted(env, x, a), run, i, owner, b, k, now);
  }

  /** And once a legal hold has been put on it, until an administrator lifts the hold. */
  lemma HeldObjectsStay(
    env: DistEnv, x: Site, a: Action, run: seq<Action>, i: nat, owner: Owner, b: Text, k: Text, now: nat)
    requires Trusted(env) && SiteSound(env, x) && TokensOk(env.alpha, x.store.replay, owner) && OwnToken(a.auth, owner)
    requires a.op.Hold? && a.op.hold && CanonicalPath(a.op.bucket) == Good(b) && CanonicalPath(a.op.key) == Good(k)
    requires PutLegalHold(env.alpha.tenant, x.buckets, x.locks, a.auth, a.op.bucket, a.op.key, a.op.hold).1.Ok?
    requires Live(x.store, b, k)
    requires i <= |run| && forall j :: 0 <= j < i ==> run[j].now <= now && Ordinary(run[j], owner)
    ensures var y := SiteAt(env, Acted(env, x, a), run, i);
            SameBinding(x.store, y.store, b, k) && Held(y.locks, LockKey(b, k)).legalHold
  {
    hide Trusted, SiteSound, TokensOk, OwnToken, CanonicalPath, SiteAt, Live, SameBinding, PutLegalHold, Ordinary, PutObject,
      CompleteMultipart, DeleteObject, CopyObject, PutRetention, Addresses, Ascii;
    HoldWrites(env.alpha.tenant, x.buckets, x.locks, a.auth, a.op.bucket, a.op.key, a.op.hold, b, k);
    ActedKeeps(env, x, a, owner);
    RunProtects(env, Acted(env, x, a), run, i, owner, b, k, now);
  }
}
