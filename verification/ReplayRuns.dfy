/**
 Replay protection over runs of the service: which authorisations a call makes,
 and that of all those with one replay key only the first is fresh.
 */
module ReplayRuns {
  import opened Basics
  import opened Paths
  import opened Records
  import opened Policy
  import opened Service
  import opened ServiceInvariants
  import opened ServiceTheorems
  import opened Tokens

  /** The authorisation of a bind or unbind is asked for once its record has verified. */
  ghost predicate BindAsks(env: Env, r: BindRequest, meta: Meta) {
    var where := Canonical(r.namespace, r.path);
    && where.Ok? && VerifyBind(env, r, where.value.0, where.value.1).Ok?
    && meta == MutationMeta(env, BindOp, where.value.0, where.value.1, r.idempotencyKey)
  }

  ghost predicate UnbindAsks(env: Env, auth: Auth, r: UnbindRequest, meta: Meta) {
    var where := Canonical(r.namespace, r.path);
    && where.Ok? && VerifyUnbind(env, r, where.value.0, where.value.1).Ok?
    && !(r.hardDelete && AdminRepair !in auth.claims.ops)
    && meta == MutationMeta(env, UnbindOp, where.value.0, where.value.1, r.idempotencyKey)
  }

  /** The store and cache in which a commit's own authorisation leaves the bind inside it. */
  function AfterCommitAuth(env: Env, s: Store, seen: Cache, auth: Auth, r: CommitRequest, now: nat): Step<Verdict>
    requires r.sessionId in s.sessions
  {
    Authorize(s, seen, auth, CommitMeta(env, r, s.sessions[r.sessionId]), now)
  }

  function WithManifest(s: Store, session: Session, now: nat): Store {
    var cid := session.manifestCid;
    s.(manifests := s.manifests[cid := ManifestRecord(session.manifest, cid, cid, session.storageClass, now)])
  }

  /** The call asks for this authorisation and is granted it with this verdict; a commit asks for two. */
  ghost predicate Granted(env: Env, s: Store, seen: Cache, auth: Auth, now: nat, q: Request, meta: Meta, v: Verdict) {
    match q
    case Init(r) =>
      InitInvalid(env, r).None? && meta == InitMeta(env, r) && Authorize(s, seen, auth, meta, now).reply == Ok(v)
    case Chunk(r, bytes) =>
      && ChunkInvalid(s, env.h, r, bytes).None? && r.sessionId in s.sessions
      && meta == ChunkMeta(env, r, s.sessions[r.sessionId], |bytes|) && Authorize(s, seen, auth, meta, now).reply == Ok(v)
    case Commit(r) =>
      && r.sessionId in s.sessions && s.sessions[r.sessionId].manifestCid == r.manifestCid
      && var session := s.sessions[r.sessionId];
      || (meta == CommitMeta(env, r, session) && Authorize(s, seen, auth, meta, now).reply == Ok(v))
      || (CommitStores(env, s, seen, auth, r, now) && session.atomicBind.Some? &&
          BindAsks(env, CommitBind(session.atomicBind.value, r, session.manifestCid), meta) &&
          var a := AfterCommitAuth(env, s, seen, auth, r, now);
          Authorize(WithManifest(a.store, session, now), a.seen, auth, meta, now).reply == Ok(v))
    case DirectBind(r) => BindAsks(env, r, meta) && Authorize(s, seen, auth, meta, now).reply == Ok(v)
    case DirectUnbind(r) => UnbindAsks(env, auth, r, meta) && Authorize(s, seen, auth, meta, now).reply == Ok(v)
    case _ => false
  }

  function KeyOf(auth: Auth, meta: Meta): Text
    requires auth.claims.jti.Some?
  {
    ReplayKey(meta.tenant, auth.claims.jti.value, meta.operation, meta.subject)
  }

  /** What a grant means: fresh iff nothing was recorded, a retry repeats the record, and the record stays. */
  ghost predicate Recorded(replay: Cache, replay': Cache, auth: Auth, meta: Meta, v: Verdict) {
    && auth.claims.jti.Some?
    && var key := KeyOf(auth, meta);
    && (v == Fresh <==> key !in replay) && (v == Fresh || v == Retry)
    && (key in replay ==> meta.idempotencyKey == Some(replay[key]))
    && key in replay' && replay'[key] == meta.idempotencyKey.GetOr([])
  }

  lemma GrantRecords(s: Store, seen: Cache, auth: Auth, meta: Meta, now: nat, v: Verdict)
    requires Backed(s.replay, seen) && IsMutation(meta.operation) && Authorize(s, seen, auth, meta, now).reply == Ok(v)
    ensures Recorded(s.replay, Authorize(s, seen, auth, meta, now).store.replay, auth, meta, v)
  {
    hide ReplayKey, SegmentPrefixMatches, DenialLogged;
  }

  lemma RecordedLater(replay: Cache, replay': Cache, replay'': Cache, auth: Auth, meta: Meta, v: Verdict)
    requires Recorded(replay, replay', auth, meta, v) && Within(replay', replay'')
    ensures Recorded(replay, replay'', auth, meta, v)
  {
    hide KeyOf;
  }

  lemma SameWithin(replay: Cache)
    ensures Within(replay, replay)
  {
  }

  lemma InitRecords(env: Env, s: Store, seen: Cache, auth: Auth, now: nat, r: InitRequest, meta: Meta, v: Verdict)
    requires Backed(s.replay, seen) && Granted(env, s, seen, auth, now, Init(r), meta, v)
    ensures Recorded(s.replay, InitStep(env, s, seen, auth, r, now).store.replay, auth, meta, v)
  {
    hide Authorize, InitInvalid, ManifestCid, SessionId, Missing, Recorded, SmallManifest;
    GrantRecords(s, seen, auth, meta, now, v);
  }

  lemma ChunkRecords(
    env: Env, s: Store, seen: Cache, auth: Auth, now: nat, r: ChunkRequest, bytes: Text, meta: Meta, v: Verdict)
    requires Backed(s.replay, seen) && Granted(env, s, seen, auth, now, Chunk(r, bytes), meta, v)
    ensures Recorded(s.replay, ChunkStep(env, s, seen, auth, r, bytes, now).store.replay, auth, meta, v)
  {
    hide Authorize, ChunkInvalid, Recorded, Decimal, SmallManifest;
    GrantRecords(s, seen, auth, meta, now, v);
  }

  lemma BindRecords(
    env: Env, s: Store, seen: Cache, auth: Auth, now: nat, r: BindRequest, direct: bool, meta: Meta, v: Verdict)
    requires Backed(s.replay, seen) && BindAsks(env, r, meta) && Authorize(s, seen, auth, meta, now).reply == Ok(v)
    ensures Recorded(s.replay, BindStep(env, s, seen, auth, r, now, direct).store.replay, auth, meta, v)
  {
    hide Authorize, Canonical, VerifyBind, BindAuthorized, Recorded;
    GrantRecords(s, seen, auth, meta, now, v);
    var (name, path) := Canonical(r.namespace, r.path).value;
    var a := Authorize(s, seen, auth, meta, now);
    BoundReplay(env, a.store, v, r, name, path, VerifyBind(env, r, name, path).value, now, direct);
  }

  lemma UnbindRecords(env: Env, s: Store, seen: Cache, auth: Auth, now: nat, r: UnbindRequest, meta: Meta, v: Verdict)
    requires Backed(s.replay, seen) && Granted(env, s, seen, auth, now, DirectUnbind(r), meta, v)
    ensures Recorded(s.replay, UnbindStep(env, s, seen, auth, r, now).store.replay, auth, meta, v)
  {
    hide Authorize, Canonical, VerifyUnbind, UnbindAuthorized, Recorded;
    GrantRecords(s, seen, auth, meta, now, v);
    var (name, path) := Canonical(r.namespace, r.path).value;
    var a := Authorize(s, seen, auth, meta, now);
    UnboundReplay(env, a.store, v, r, name, path, VerifyUnbind(env, r, name, path).value, now);
  }

  // ------------------------------------------------------- the two of a commit

  /** From a commit's own authorisation on, the replay records only grow. */
  lemma CommitGrows(env: Env, s: Store, seen: Cache, auth: Auth, r: CommitRequest, now: nat)
    requires StoreInv(env, s) && Backed(s.replay, seen) && r.sessionId in s.sessions
    requires s.sessions[r.sessionId].manifestCid == r.manifestCid
    ensures Within(AfterCommitAuth(env, s, seen, auth, r, now).store.replay,
                   CommitStep(env, s, seen, auth, r, now).store.replay)
  {
    hide StoreInv, Backed, Kept, Authorize, ManifestCid, SessionId, CommitMeta, CommitStored, AllPresent, SmallManifest, Within;
    KeptStart(env, s, seen);
    SessionAt(env, s, s, seen, r.sessionId);
    var session := s.sessions[r.sessionId];
    var meta := CommitMeta(env, r, session);
    AuthorizeKeeps(env, s, s, seen, auth, meta, now);
    var a := Authorize(s, seen, auth, meta, now);
    KeptParts(env, s, a.store, a.seen);
    KeptStart(env, a.store, a.seen);
    SameWithin(a.store.replay);
    if AllPresent(a.store.chunks, session.manifest.chunkRefs) {
      CommitStoredKeeps(env, a.store, a.store, a.seen, auth, r, session, now);
      var t := CommitStored(env, a.store, a.seen, auth, r, session, now);
      KeptParts(env, a.store, t.store, t.seen);
    }
  }

  lemma KeptParts(env: Env, s: Store, s': Store, seen: Cache)
    requires Kept(env, s, s', seen)
    ensures StoreInv(env, s') && Backed(s'.replay, seen) && Within(s.replay, s'.replay)
  {
    hide StoreInv, Backed, Within, JournalsGrow;
  }

  /** After the bind inside it, the commit records nothing more. */
  lemma CommitAfterBind(env: Env, s: Store, seen: Cache, auth: Auth, r: CommitRequest, session: Session, now: nat)
    requires session.atomicBind.Some?
    ensures CommitStored(env, s, seen, auth, r, session, now).store.replay ==
            BindStep(env, WithManifest(s, session, now), seen, auth,
                     CommitBind(session.atomicBind.value, r, session.manifestCid), now, false).store.replay
  {
    hide BindStep, CommitBind, CommitFinished, SmallManifest;
    var b := BindStep(env, WithManifest(s, session, now), seen, auth,
                      CommitBind(session.atomicBind.value, r, session.manifestCid), now, false);
    CommitFinishedParts(env, b.store, r, session, now);
  }

  lemma CommitRecords(env: Env, s: Store, seen: Cache, auth: Auth, now: nat, r: CommitRequest, meta: Meta, v: Verdict)
    requires StoreInv(env, s) && Backed(s.replay, seen) && Granted(env, s, seen, auth, now, Commit(r), meta, v)
    ensures Recorded(s.replay, CommitStep(env, s, seen, auth, r, now).store.replay, auth, meta, v)
  {
    hide StoreInv, Backed, Authorize, Recorded, CommitStep, CommitStored, AllPresent, SmallManifest, BindAsks, CommitBind, Kept,
      WithManifest, BindStep, Permitted, VerdictFor, Quiet, Within;
    var session := s.sessions[r.sessionId];
    var t := CommitStep(env, s, seen, auth, r, now);
    var own := CommitMeta(env, r, session);
    if meta == own && Authorize(s, seen, auth, meta, now).reply == Ok(v) {
      GrantRecords(s, seen, auth, meta, now, v);
      CommitGrows(env, s, seen, auth, r, now);
      RecordedLater(s.replay, Authorize(s, seen, auth, own, now).store.replay, t.store.replay, auth, meta, v);
    } else {
      CommitStepStores(env, s, seen, auth, r, now);
      KeptStart(env, s, seen);
      AuthorizeKeeps(env, s, s, seen, auth, own, now);
      var a := Authorize(s, seen, auth, own, now);
      KeptParts(env, s, a.store, a.seen);
      var stored := WithManifest(a.store, session, now);
      assert stored.replay == a.store.replay by { ManifestReplay(a.store, session, now); }
      BindRecords(env, stored, a.seen, auth, now, CommitBind(session.atomicBind.value, r, session.manifestCid), false, meta, v);
      CommitAfterBind(env, a.store, a.seen, auth, r, session, now);
      BindAsksParts(env, CommitBind(session.atomicBind.value, r, session.manifestCid), meta);
      InnerRecorded(env, s, seen, auth, r, now, meta, v, t.store.replay);
    }
  }

  lemma BindAsksParts(env: Env, r: BindRequest, meta: Meta)
    requires BindAsks(env, r, meta)
    ensures meta.tenant == env.tenant && meta.operation == BindOp
  {
    hide Canonical, VerifyBind;
  }

  lemma ManifestReplay(s: Store, session: Session, now: nat)
    ensures WithManifest(s, session, now).replay == s.replay
  {
  }

  /** The commit's own record is another key, so the bind's verdict is the one it had before the commit. */
  lemma InnerRecorded(
    env: Env, s: Store, seen: Cache, auth: Auth, r: CommitRequest, now: nat, meta: Meta, v: Verdict, replay: Cache)
    requires r.sessionId in s.sessions && meta.tenant == env.tenant && meta.operation == BindOp
    requires Recorded(AfterCommitAuth(env, s, seen, auth, r, now).store.replay, replay, auth, meta, v)
    ensures Recorded(s.replay, replay, auth, meta, v)
  {
    hide Authorize, ReplayKey, SmallManifest;
    var own := CommitMeta(env, r, s.sessions[r.sessionId]);
    var jti := auth.claims.jti.value;
    CommitKeyIsNoBindKey(env.tenant, jti, own.subject, meta.subject);
    OwnKeyOnly(s, seen, auth, own, now, KeyOf(auth, meta));
  }

  /** An authorisation leaves every other key's record as it was. */
  lemma OwnKeyOnly(s: Store, seen: Cache, auth: Auth, meta: Meta, now: nat, key: Text)
    requires auth.claims.jti.Some? && key != KeyOf(auth, meta)
    ensures var replay := Authorize(s, seen, auth, meta, now).store.replay;
            (key in replay <==> key in s.replay) && (key in replay ==> replay[key] == s.replay[key])
  {
    hide PolicyDenial, ReplayKey, DenialLogged;
    DenialReplayKept(s, meta, now);
    DenialReplayKept(s.(replay := DurableAfter(seen, s.replay, KeyOf(auth, meta), meta.idempotencyKey)), meta, now);
  }

  // ----------------------------------------------------------------------- runs

  lemma CallRecords(env: Env, s: Store, seen: Cache, auth: Auth, now: nat, q: Request, meta: Meta, v: Verdict)
    requires StoreInv(env, s) && Backed(s.replay, seen) && Granted(env, s, seen, auth, now, q, meta, v)
    ensures Recorded(s.replay, Effect(env, s, seen, auth, now, q).0.replay, auth, meta, v)
  {
    hide StoreInv, Backed, Recorded, InitStep, ChunkStep, CommitStep, BindStep, UnbindStep, GetStep, ResolveStep, ListStep,
      PollStep, Authorize, BindAsks, UnbindAsks, CommitStores, ChunkInvalid, InitInvalid, SmallManifest;
    match q
    case Init(r) => InitRecords(env, s, seen, auth, now, r, meta, v);
    case Chunk(r, bytes) => ChunkRecords(env, s, seen, auth, now, r, bytes, meta, v);
    case Commit(r) => CommitRecords(env, s, seen, auth, now, r, meta, v);
    case DirectBind(r) => BindRecords(env, s, seen, auth, now, r, true, meta, v);
    case DirectUnbind(r) => UnbindRecords(env, s, seen, auth, now, r, meta, v);
  }

  ghost predicate CallGranted(env: Env, d: Deployment, c: Call, meta: Meta, v: Verdict) {
    c.Call? && Granted(env, d.store, d.CacheOf(c.instance), c.auth, c.now, c.request, meta, v)
  }

  /**
   In every run of the service, with any instances and restarts, of the granted
   authorisations with one replay key only the first can be fresh, and every
   later one states the idempotency key of the first; a commit's own and that of
   the bind inside it included.
   */
  lemma RunFreshAtMostOnce(
    env: Env, d: Deployment, run: seq<Call>, i: nat, j: nat, m: Meta, v: Verdict, m': Meta, v': Verdict)
    requires Sound(env, d) && i < j < |run|
    requires CallGranted(env, DeploymentAt(env, d, run, i), run[i], m, v)
    requires CallGranted(env, DeploymentAt(env, d, run, j), run[j], m', v')
    requires run[i].auth.claims.jti.Some? && run[j].auth.claims.jti.Some?
    requires KeyOf(run[i].auth, m) == KeyOf(run[j].auth, m')
    ensures v' == Retry && m'.idempotencyKey == Some(m.idempotencyKey.GetOr([]))
  {
    hide StoreInv, Granted, DeploymentAt, Effect, KeyOf, JournalsGrow, Backed;
    RunKeeps(env, d, run, 0, i);
    RunKeeps(env, d, run, i + 1, j);
    RunKeeps(env, d, run, 0, j);
    DeploymentSteps(env, d, run, i + 1);
    var a, b := DeploymentAt(env, d, run, i), DeploymentAt(env, d, run, j);
    SoundCache(env, a, run[i].instance);
    SoundCache(env, b, run[j].instance);
    CallRecords(env, a.store, a.CacheOf(run[i].instance), run[i].auth, run[i].now, run[i].request, m, v);
    CallRecords(env, b.store, b.CacheOf(run[j].instance), run[j].auth, run[j].now, run[j].request, m', v');
  }

  lemma SoundCache(env: Env, d: Deployment, i: nat)
    requires Sound(env, d)
    ensures StoreInv(env, d.store) && Backed(d.store.replay, d.CacheOf(i))
  {
    hide StoreInv;
  }
}
