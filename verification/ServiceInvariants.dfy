/**
 What every request keeps: content addressing, committed manifests with all
 their chunks, namespaces that agree with their journals, and an event log
 without gaps; and what no request ever takes back.
 */
module ServiceInvariants {
  import opened Basics
  import opened Paths
  import opened Records
  import opened Namespaces
  import opened Policy
  import opened Service
  import Events
  import Listing

  /** Every chunk is stored under its own hash. */
  ghost predicate ChunksOk(env: Env, chunks: map<Text, Text>) {
    forall c :: c in chunks ==> env.h(chunks[c]) == c
  }

  ghost predicate SessionsOk(env: Env, sessions: map<Text, Session>) {
    forall id :: id in sessions ==>
      id == SessionId(sessions[id].manifestCid) &&
      sessions[id].manifestCid == ManifestCid(env.h, sessions[id].manifest)
  }

  /** Every committed manifest is stored under its own CID, with all its chunks present. */
  ghost predicate ManifestsOk(env: Env, chunks: map<Text, Text>, manifests: map<Text, ManifestRecord>) {
    forall cid :: cid in manifests ==>
      && manifests[cid].manifestCid == manifests[cid].objectCid == cid
      && cid == ManifestCid(env.h, manifests[cid].manifest)
      && AllPresent(chunks, manifests[cid].manifest.chunkRefs)
  }

  ghost predicate NamespacesOk(namespaces: map<Text, Namespace>) {
    forall n :: n in namespaces ==> Inv(n, namespaces[n])
  }

  ghost predicate StoreInv(env: Env, s: Store) {
    && ChunksOk(env, s.chunks) && SessionsOk(env, s.sessions) && ManifestsOk(env, s.chunks, s.manifests)
    && NamespacesOk(s.namespaces) && Events.LogInv(s.log)
  }

  /** Nothing is cached that is not durable. */
  ghost predicate Backed(replay: Cache, seen: Cache) {
    seen.Keys <= replay.Keys
  }

  ghost predicate Within<K, V>(m: map<K, V>, m': map<K, V>) {
    forall k :: k in m ==> k in m' && m'[k] == m[k]
  }

  ghost predicate JournalsGrow(m: map<Text, Namespace>, m': map<Text, Namespace>) {
    forall n :: n in m ==> n in m' && Extends(m[n], m'[n])
  }

  /** What only ever grows: chunks, journals, replay records, recorded bind replies, the log. */
  ghost predicate Evolves(s: Store, s': Store) {
    && Within(s.chunks, s'.chunks)
    && JournalsGrow(s.namespaces, s'.namespaces)
    && Within(s.replay, s'.replay)
    && s.bindReplies.Keys <= s'.bindReplies.Keys
    && Events.Grown(s.log, s'.log)
  }

  lemma EvolvesReflexive(s: Store)
    ensures Evolves(s, s)
  {
  }

  lemma EvolvesTransitive(a: Store, b: Store, c: Store)
    requires Evolves(a, b) && Evolves(b, c)
    ensures Evolves(a, c)
  {
  }

  lemma EmptyStoreInv(env: Env)
    ensures StoreInv(env, EMPTY_STORE) && Backed(EMPTY_STORE.replay, map[])
  {
  }

  /** s' and its cache are sound, and s' has evolved from s0. */
  ghost predicate Kept(env: Env, s0: Store, s': Store, seen': Cache) {
    StoreInv(env, s') && Backed(s'.replay, seen') && Evolves(s0, s')
  }

  lemma KeptStart(env: Env, s: Store, seen: Cache)
    requires StoreInv(env, s) && Backed(s.replay, seen)
    ensures Kept(env, s, s, seen)
  {
    hide StoreInv, Backed, Evolves;
    EvolvesReflexive(s);
  }

  /** Only the replay records and the log change. */
  ghost predicate Quiet(s: Store, s': Store) {
    && s'.chunks == s.chunks && s'.manifests == s.manifests && s'.sessions == s.sessions
    && s'.namespaces == s.namespaces && s'.bindReplies == s.bindReplies && s'.unbindReplies == s.unbindReplies
    && s'.initReplies == s.initReplies && s'.commitReplies == s.commitReplies
  }

  // --------------------------------------------------- single changes to a store

  lemma LoggedKeeps(env: Env, s0: Store, s: Store, seen: Cache, e: Events.EventRecord)
    requires Kept(env, s0, s, seen)
    ensures Kept(env, s0, Logged(s, e), seen)
  {
    hide ChunksOk, SessionsOk, ManifestsOk, NamespacesOk, Backed, Within, JournalsGrow;
    Events.AppendKeepsInv(s.log, e);
  }

  lemma ReplayKeeps(env: Env, s0: Store, s: Store, seen: Cache, key: Text, idem: Option<Text>)
    requires Kept(env, s0, s, seen)
    ensures Kept(env, s0, s.(replay := DurableAfter(seen, s.replay, key, idem)), CacheAfter(seen, key, idem))
  {
    hide ChunksOk, SessionsOk, ManifestsOk, NamespacesOk, JournalsGrow, Events.Grown;
  }

  lemma NamespaceKeeps(env: Env, s0: Store, s: Store, seen: Cache, name: Text, ns: Namespace)
    requires Kept(env, s0, s, seen) && Inv(name, ns) && Extends(NamespaceOf(s, name), ns)
    ensures Kept(env, s0, s.(namespaces := s.namespaces[name := ns]), seen)
  {
    hide ChunksOk, SessionsOk, ManifestsOk, Backed, Within, Inv, Events.Grown;
  }

  lemma RepliesKeep(
    env: Env, s0: Store, s: Store, seen: Cache, binds: map<Text, BindReply>, unbinds: map<Text, UnbindReply>,
    inits: map<Text, InitReply>, commits: map<Text, CommitReply>)
    requires Kept(env, s0, s, seen) && s.bindReplies.Keys <= binds.Keys
    ensures Kept(env, s0, s.(bindReplies := binds, unbindReplies := unbinds, initReplies := inits,
                             commitReplies := commits), seen)
  {
    hide ChunksOk, SessionsOk, ManifestsOk, NamespacesOk, Backed, Within, JournalsGrow, Events.Grown;
  }

  lemma SessionKeeps(env: Env, s0: Store, s: Store, seen: Cache, session: Session)
    requires Kept(env, s0, s, seen) && session.manifestCid == ManifestCid(env.h, session.manifest)
    ensures Kept(env, s0, s.(sessions := s.sessions[SessionId(session.manifestCid) := session]), seen)
  {
    hide ChunksOk, ManifestsOk, NamespacesOk, Backed, Evolves, ManifestCid, SessionId;
    SameGrowth(s0, s, s.(sessions := s.sessions[SessionId(session.manifestCid) := session]));
  }

  lemma SameGrowth(s0: Store, s: Store, s': Store)
    requires Evolves(s0, s)
    requires s'.chunks == s.chunks && s'.namespaces == s.namespaces && s'.replay == s.replay
    requires s'.bindReplies == s.bindReplies && s'.log == s.log
    ensures Evolves(s0, s')
  {
    hide Within, JournalsGrow, Events.Grown;
  }

  lemma ChunkKeeps(env: Env, s0: Store, s: Store, seen: Cache, bytes: Text)
    requires Kept(env, s0, s, seen)
    ensures var cid := env.h(bytes);
            Kept(env, s0, if cid in s.chunks then s else s.(chunks := s.chunks[cid := bytes]), seen)
  {
    hide SessionsOk, NamespacesOk, Backed, JournalsGrow, ManifestCid, Events.Grown;
  }

  lemma ManifestKeeps(env: Env, s0: Store, s: Store, seen: Cache, record: ManifestRecord)
    requires Kept(env, s0, s, seen)
    requires record.manifestCid == record.objectCid == ManifestCid(env.h, record.manifest)
    requires AllPresent(s.chunks, record.manifest.chunkRefs)
    ensures Kept(env, s0, s.(manifests := s.manifests[record.manifestCid := record]), seen)
  {
    hide ChunksOk, SessionsOk, NamespacesOk, Backed, Evolves, ManifestCid, AllPresent;
    SameGrowth(s0, s, s.(manifests := s.manifests[record.manifestCid := record]));
  }

  lemma ManifestDropKeeps(env: Env, s0: Store, s: Store, seen: Cache, cid: Text)
    requires Kept(env, s0, s, seen)
    ensures Kept(env, s0, s.(manifests := s.manifests - {cid}), seen)
  {
    hide ChunksOk, SessionsOk, NamespacesOk, Backed, Evolves, ManifestCid, AllPresent;
    SameGrowth(s0, s, s.(manifests := s.manifests - {cid}));
  }

  // -------------------------------------------------------------- authorisation

  lemma AuthorizeKeeps(env: Env, s0: Store, s: Store, seen: Cache, auth: Auth, meta: Meta, now: nat)
    requires Kept(env, s0, s, seen)
    ensures var a := Authorize(s, seen, auth, meta, now); Kept(env, s0, a.store, a.seen)
  {
    hide Kept, PolicyDenial, DurableVerdict, DurableAfter, CacheAfter, Logged, ReplayKey;
    var denied := Event(now, Events.AuthDenied, meta.namespace, meta.path, None, None, map[]);
    LoggedKeeps(env, s0, s, seen, denied);
    if auth.claims.jti.Some? {
      var key := ReplayKey(meta.tenant, auth.claims.jti.value, meta.operation, meta.subject);
      ReplayKeeps(env, s0, s, seen, key, meta.idempotencyKey);
      var s' := s.(replay := DurableAfter(seen, s.replay, key, meta.idempotencyKey));
      LoggedKeeps(env, s0, s', CacheAfter(seen, key, meta.idempotencyKey), denied);
    }
  }

  lemma AuthorizeQuiet(s: Store, seen: Cache, auth: Auth, meta: Meta, now: nat)
    ensures Quiet(s, Authorize(s, seen, auth, meta, now).store)
  {
    hide PolicyDenial, DurableVerdict, DurableAfter, CacheAfter, ReplayKey, IsMutation, DenialLogged, Quiet;
    DenialQuiet(s, meta, now);
    if auth.claims.jti.Some? {
      var key := ReplayKey(meta.tenant, auth.claims.jti.value, meta.operation, meta.subject);
      ReplayQuiet(s, DurableAfter(seen, s.replay, key, meta.idempotencyKey), meta, now);
    }
  }

  lemma DenialQuiet(s: Store, meta: Meta, now: nat)
    ensures Quiet(s, s) && Quiet(s, DenialLogged(s, meta, now))
  {
    hide Event, Events.Append;
  }

  lemma ReplayQuiet(s: Store, replay: Cache, meta: Meta, now: nat)
    ensures Quiet(s, s.(replay := replay)) && Quiet(s, DenialLogged(s.(replay := replay), meta, now))
  {
    hide Event, Events.Append;
  }

  lemma GrantedLogsNothing(s: Store, seen: Cache, auth: Auth, meta: Meta, now: nat)
    requires Authorize(s, seen, auth, meta, now).reply.Ok?
    ensures Authorize(s, seen, auth, meta, now).store.log == s.log
  {
    hide PolicyDenial, ReplayKey;
  }

  /** Fresh exactly when there was no durable record; a retry repeats the recorded idempotency key. */
  lemma AuthorizeVerdict(s: Store, seen: Cache, auth: Auth, meta: Meta, now: nat)
    requires Backed(s.replay, seen) && IsMutation(meta.operation)
    requires Authorize(s, seen, auth, meta, now).reply.Ok?
    ensures auth.claims.jti.Some?
    ensures var a := Authorize(s, seen, auth, meta, now);
            var key := ReplayKey(meta.tenant, auth.claims.jti.value, meta.operation, meta.subject);
            && key in a.store.replay && a.store.replay[key] == meta.idempotencyKey.GetOr([])
            && (a.reply.value == Fresh <==> key !in s.replay)
            && (a.reply.value == Retry || a.reply.value == Fresh)
  {
    hide ReplayKey, SegmentPrefixMatches;
  }

  // ------------------------------------------------------------ namespace steps

  lemma NamespaceOfInv(env: Env, s: Store, name: Text)
    requires StoreInv(env, s)
    ensures Inv(name, NamespaceOf(s, name))
  {
    EmptyInv(name);
    hide ChunksOk, SessionsOk, ManifestsOk, Inv;
  }

  lemma BindAppliedKeeps(
    env: Env, s0: Store, s: Store, seen: Cache, r: BindRequest, name: Text, path: Text, record: MutationRecord, now: nat)
    requires Kept(env, s0, s, seen)
    requires VerifyBind(env, r, name, path) == Ok(record)
    requires BindRefusal(NamespaceOf(s, name), path, r.ifRevision, r.ifAbsent) == None
    ensures Kept(env, s0, BindApplied(env, s, r, name, path, record, now), seen)
  {
    var ns := NamespaceOf(s, name);
    NamespaceOfInv(env, s, name);
    hide Kept;
    BindKeepsInv(env.h, name, ns, path, record, r.target, r.metadata, r.ifAbsent);
    var ns' := Bind(env.h, ns, path, record, r.target, r.metadata);
    hide Inv, Extends, Bind, VerifyBind, BindRefusal;
    NamespaceKeeps(env, s0, s, seen, name, ns');
    LoggedKeeps(env, s0, s.(namespaces := s.namespaces[name := ns']), seen,
                Event(now, Events.NamespaceBound, Some(name), Some(path), Some(r.target), Some(ns.nextRevision), r.metadata));
  }

  lemma BindAuthorizedKeeps(
    env: Env, s0: Store, s: Store, seen: Cache, verdict: Verdict, r: BindRequest, name: Text, path: Text,
    record: MutationRecord, now: nat, direct: bool)
    requires Kept(env, s0, s, seen) && VerifyBind(env, r, name, path) == Ok(record)
    ensures Kept(env, s0, BindAuthorized(env, s, verdict, r, name, path, record, now, direct).0, seen)
  {
    hide Kept, VerifyBind, BindApplied, NamespaceOf, BindRefusal, RecordCid;
    if BindRefusal(NamespaceOf(s, name), path, r.ifRevision, r.ifAbsent) == None {
      BindAppliedKeeps(env, s0, s, seen, r, name, path, record, now);
      var s' := BindApplied(env, s, r, name, path, record, now);
      var reply := BindReply(NamespaceOf(s, name).nextRevision, RecordCid(env.h, record), s.log.next);
      RepliesKeep(env, s0, s', seen, s'.bindReplies[env.h(r.idempotencyKey) := reply], s'.unbindReplies,
                  s'.initReplies, s'.commitReplies);
    }
  }

  lemma BindStepKeeps(env: Env, s0: Store, s: Store, seen: Cache, auth: Auth, r: BindRequest, now: nat, direct: bool)
    requires Kept(env, s0, s, seen)
    ensures var b := BindStep(env, s, seen, auth, r, now, direct); Kept(env, s0, b.store, b.seen)
  {
    hide Kept, Authorize, VerifyBind, BindAuthorized, Canonical, MutationMeta;
    var where := Canonical(r.namespace, r.path);
    if where.Ok? {
      var (name, path) := where.value;
      var record := VerifyBind(env, r, name, path);
      var meta := MutationMeta(env, BindOp, name, path, r.idempotencyKey);
      AuthorizeKeeps(env, s0, s, seen, auth, meta, now);
      var a := Authorize(s, seen, auth, meta, now);
      if record.Ok? && a.reply.Ok? {
        BindAuthorizedKeeps(env, s0, a.store, a.seen, a.reply.value, r, name, path, record.value, now, direct);
      }
    }
  }

  lemma UnbindAppliedKeeps(
    env: Env, s0: Store, s: Store, seen: Cache, r: UnbindRequest, name: Text, path: Text, record: MutationRecord, now: nat)
    requires Kept(env, s0, s, seen)
    requires VerifyUnbind(env, r, name, path) == Ok(record)
    requires UnbindRefusal(NamespaceOf(s, name), path, r.ifRevision) == None
    ensures Kept(env, s0, UnbindApplied(env, s, r, name, path, record, now), seen)
  {
    var ns := NamespaceOf(s, name);
    NamespaceOfInv(env, s, name);
    hide Kept;
    UnbindKeepsInv(env.h, name, ns, path, record, r.hardDelete);
    var ns' := Unbind(env.h, ns, path, record, r.hardDelete);
    hide Inv, Extends, Unbind, VerifyUnbind, UnbindRefusal;
    NamespaceKeeps(env, s0, s, seen, name, ns');
    LoggedKeeps(env, s0, s.(namespaces := s.namespaces[name := ns']), seen,
                Event(now, if r.hardDelete then Events.NamespaceUnbound else Events.NamespaceTombstoned,
                      Some(name), Some(path), None, Some(ns.nextRevision), map[]));
  }

  lemma UnbindAuthorizedKeeps(
    env: Env, s0: Store, s: Store, seen: Cache, verdict: Verdict, r: UnbindRequest, name: Text, path: Text,
    record: MutationRecord, now: nat)
    requires Kept(env, s0, s, seen) && VerifyUnbind(env, r, name, path) == Ok(record)
    ensures Kept(env, s0, UnbindAuthorized(env, s, verdict, r, name, path, record, now).0, seen)
  {
    hide Kept, VerifyUnbind, UnbindApplied, NamespaceOf, UnbindRefusal, RecordCid;
    if UnbindRefusal(NamespaceOf(s, name), path, r.ifRevision) == None {
      UnbindAppliedKeeps(env, s0, s, seen, r, name, path, record, now);
      var s' := UnbindApplied(env, s, r, name, path, record, now);
      var reply := UnbindReply(NamespaceOf(s, name).nextRevision, RecordCid(env.h, record), s.log.next, !r.hardDelete);
      RepliesKeep(env, s0, s', seen, s'.bindReplies, s'.unbindReplies[env.h(r.idempotencyKey) := reply],
                  s'.initReplies, s'.commitReplies);
    }
  }

  lemma UnbindStepKeeps(env: Env, s0: Store, s: Store, seen: Cache, auth: Auth, r: UnbindRequest, now: nat)
    requires Kept(env, s0, s, seen)
    ensures var u := UnbindStep(env, s, seen, auth, r, now); Kept(env, s0, u.store, u.seen)
  {
    hide Kept, Authorize, VerifyUnbind, UnbindAuthorized, Canonical, MutationMeta;
    var where := Canonical(r.namespace, r.path);
    if where.Ok? {
      var (name, path) := where.value;
      var record := VerifyUnbind(env, r, name, path);
      var meta := MutationMeta(env, UnbindOp, name, path, r.idempotencyKey);
      AuthorizeKeeps(env, s0, s, seen, auth, meta, now);
      var a := Authorize(s, seen, auth, meta, now);
      if record.Ok? && a.reply.Ok? {
        UnbindAuthorizedKeeps(env, s0, a.store, a.seen, a.reply.value, r, name, path, record.value, now);
      }
    }
  }

  // -------------------------------------------------------------------- uploads

  lemma InitStepKeeps(env: Env, s0: Store, s: Store, seen: Cache, auth: Auth, r: InitRequest, now: nat)
    requires Kept(env, s0, s, seen)
    ensures var t := InitStep(env, s, seen, auth, r, now); Kept(env, s0, t.store, t.seen)
  {
    hide Kept, Authorize, InitInvalid, ManifestCid, SessionId, Missing, InitMeta;
    AuthorizeKeeps(env, s0, s, seen, auth, InitMeta(env, r), now);
    var a := Authorize(s, seen, auth, InitMeta(env, r), now);
    var cid := ManifestCid(env.h, r.manifest);
    var session := Session(r.manifest, cid, r.storageClass, r.atomicBind, {}, false);
    SessionKeeps(env, s0, a.store, a.seen, session);
    var s' := a.store.(sessions := a.store.sessions[SessionId(cid) := session]);
    var reply := InitReply(SessionId(cid), Missing(a.store.chunks, r.manifest.chunkRefs), cid, now + UPLOAD_WINDOW_MS);
    RepliesKeep(env, s0, s', a.seen, s'.bindReplies, s'.unbindReplies,
                s'.initReplies[env.h(r.idempotencyKey) := reply], s'.commitReplies);
  }

  lemma SessionAt(env: Env, s0: Store, s: Store, seen: Cache, id: Text)
    requires Kept(env, s0, s, seen) && id in s.sessions
    ensures id == SessionId(s.sessions[id].manifestCid)
    ensures s.sessions[id].manifestCid == ManifestCid(env.h, s.sessions[id].manifest)
  {
    hide ManifestCid, SessionId, ManifestsOk, NamespacesOk, ChunksOk, Evolves, Backed;
  }

  lemma ChunkSession(s: Store, h: Hash, r: ChunkRequest, bytes: Text)
    requires ChunkInvalid(s, h, r, bytes).None?
    ensures r.sessionId in s.sessions && h(bytes) == r.cid
  {
    hide FindRef;
  }

  lemma ChunkStepKeeps(
    env: Env, s0: Store, s: Store, seen: Cache, auth: Auth, r: ChunkRequest, bytes: Text, now: nat)
    requires Kept(env, s0, s, seen)
    ensures var t := ChunkStep(env, s, seen, auth, r, bytes, now); Kept(env, s0, t.store, t.seen)
  {
    hide Kept, Authorize, ChunkInvalid, ManifestCid, SessionId, ChunkMeta;
    if ChunkInvalid(s, env.h, r, bytes).None? {
      ChunkSession(s, env.h, r, bytes);
      SessionAt(env, s0, s, seen, r.sessionId);
      var session := s.sessions[r.sessionId];
      var meta := ChunkMeta(env, r, session, |bytes|);
      AuthorizeKeeps(env, s0, s, seen, auth, meta, now);
      var a := Authorize(s, seen, auth, meta, now);
      ChunkKeeps(env, s0, a.store, a.seen, bytes);
      var s1 := if r.cid in a.store.chunks then a.store else a.store.(chunks := a.store.chunks[r.cid := bytes]);
      SessionKeeps(env, s0, s1, a.seen, session.(uploaded := session.uploaded + {r.index}));
    }
  }

  lemma CommitFinishedKeeps(env: Env, s0: Store, s: Store, seen: Cache, r: CommitRequest, session: Session, now: nat)
    requires Kept(env, s0, s, seen) && r.sessionId == SessionId(session.manifestCid)
    requires session.manifestCid == ManifestCid(env.h, session.manifest)
    ensures Kept(env, s0, CommitFinished(env, s, r, session, now), seen)
  {
    hide Kept, ManifestCid, SessionId;
    var e := Event(now, Events.ObjectCommitted, BindNamespace(session.atomicBind), BindPath(session.atomicBind),
                   Some(session.manifestCid), None, map[]);
    LoggedKeeps(env, s0, s, seen, e);
    var s1 := Logged(s, e);
    SessionKeeps(env, s0, s1, seen, session.(committed := true));
    var s2 := s1.(sessions := s1.sessions[SessionId(session.manifestCid) := session.(committed := true)]);
    RepliesKeep(env, s0, s2, seen, s2.bindReplies, s2.unbindReplies, s2.initReplies,
                s2.commitReplies[env.h(r.idempotencyKey) := CommitReply(session.manifestCid, s.log.next)]);
  }

  lemma CommitStoredKeeps(
    env: Env, s0: Store, s: Store, seen: Cache, auth: Auth, r: CommitRequest, session: Session, now: nat)
    requires Kept(env, s0, s, seen) && r.sessionId == SessionId(session.manifestCid)
    requires session.manifestCid == ManifestCid(env.h, session.manifest)
    requires AllPresent(s.chunks, session.manifest.chunkRefs)
    ensures var t := CommitStored(env, s, seen, auth, r, session, now); Kept(env, s0, t.store, t.seen)
  {
    hide Kept, ManifestCid, SessionId, BindStep, CommitFinished, AllPresent, CommitBind;
    var cid := session.manifestCid;
    var record := ManifestRecord(session.manifest, cid, cid, session.storageClass, now);
    ManifestKeeps(env, s0, s, seen, record);
    var stored := s.(manifests := s.manifests[cid := record]);
    if session.atomicBind.None? {
      CommitFinishedKeeps(env, s0, stored, seen, r, session, now);
    } else {
      var request := CommitBind(session.atomicBind.value, r, cid);
      BindStepKeeps(env, s0, stored, seen, auth, request, now, false);
      var b := BindStep(env, stored, seen, auth, request, now, false);
      ManifestDropKeeps(env, s0, b.store, b.seen, cid);
      CommitFinishedKeeps(env, s0, b.store, b.seen, r, session, now);
    }
  }

  lemma CommitStepKeeps(env: Env, s0: Store, s: Store, seen: Cache, auth: Auth, r: CommitRequest, now: nat)
    requires Kept(env, s0, s, seen)
    ensures var t := CommitStep(env, s, seen, auth, r, now); Kept(env, s0, t.store, t.seen)
  {
    hide Kept, Authorize, ManifestCid, SessionId, CommitMeta, CommitStored, AllPresent;
    if r.sessionId in s.sessions {
      SessionAt(env, s0, s, seen, r.sessionId);
      var session := s.sessions[r.sessionId];
      var meta := CommitMeta(env, r, session);
      AuthorizeKeeps(env, s0, s, seen, auth, meta, now);
      var a := Authorize(s, seen, auth, meta, now);
      if AllPresent(a.store.chunks, session.manifest.chunkRefs) {
        CommitStoredKeeps(env, s0, a.store, a.seen, auth, r, session, now);
      }
    }
  }

  // ---------------------------------------------------------------------- reads

  lemma {:induction false} AuthorizeFiltersKeeps(
    env: Env, s0: Store, s: Store, seen: Cache, auth: Auth, filters: seq<Events.Filter>, i: nat, now: nat)
    requires Kept(env, s0, s, seen) && i <= |filters|
    ensures var a := AuthorizeFilters(env, s, seen, auth, filters, i, now);
            Kept(env, s0, a.store, a.seen) && Quiet(s, a.store)
    decreases |filters| - i
  {
    hide Kept, Authorize, Ascii, Decimal;
    if i < |filters| {
      var f := filters[i];
      var meta := SubscribeMeta(env, Ascii("events:filter:") + Decimal(i), f.namespacePrefix, f.pathExact);
      AuthorizeKeeps(env, s0, s, seen, auth, meta, now);
      AuthorizeQuiet(s, seen, auth, meta, now);
      var a := Authorize(s, seen, auth, meta, now);
      AuthorizeFiltersKeeps(env, s0, a.store, a.seen, auth, filters, i + 1, now);
    }
  }

  lemma PollStepKeeps(
    env: Env, s0: Store, s: Store, seen: Cache, auth: Auth, r: SubscribeRequest, cursor: nat, now: nat)
    requires Kept(env, s0, s, seen)
    ensures var t := PollStep(env, s, seen, auth, r, cursor, now); Kept(env, s0, t.store, t.seen) && Quiet(s, t.store)
  {
    hide Kept, Authorize, AuthorizeFilters, ForeignScope, SubscribeMeta, Ascii, Events.Poll, Events.StartAt;
    AuthorizeKeeps(env, s0, s, seen, auth, SubscribeMeta(env, Ascii("events"), None, None), now);
    AuthorizeQuiet(s, seen, auth, SubscribeMeta(env, Ascii("events"), None, None), now);
    AuthorizeFiltersKeeps(env, s0, s, seen, auth, r.filters, 0, now);
  }

  lemma GetStepKeeps(
    env: Env, s0: Store, s: Store, seen: Cache, auth: Auth, selector: Selector, range: Option<Range>, now: nat)
    requires Kept(env, s0, s, seen)
    ensures var t := GetStep(env, s, seen, auth, selector, range, now); Kept(env, s0, t.store, t.seen) && Quiet(s, t.store)
  {
    hide Kept, Authorize, ReadRecord, ResolveSelector, SelectorComplete;
    var res := ResolveSelector(s, selector);
    if res.Ok? {
      AuthorizeKeeps(env, s0, s, seen, auth, ReadMeta(env, GetOp, res.value), now);
      AuthorizeQuiet(s, seen, auth, ReadMeta(env, GetOp, res.value), now);
    }
  }

  lemma ResolveStepKeeps(
    env: Env, s0: Store, s: Store, seen: Cache, auth: Auth, namespace: Text, path: Text, at: Option<nat>,
    ifRevision: Option<nat>, now: nat)
    requires Kept(env, s0, s, seen)
    ensures var t := ResolveStep(env, s, seen, auth, namespace, path, at, ifRevision, now);
            Kept(env, s0, t.store, t.seen) && Quiet(s, t.store)
  {
    hide Kept, Authorize, Canonical, SnapshotAt, NamespaceOf, ResolveMeta;
    var where := Canonical(namespace, path);
    if where.Ok? {
      AuthorizeKeeps(env, s0, s, seen, auth, ResolveMeta(env, where.value.0, where.value.1), now);
      AuthorizeQuiet(s, seen, auth, ResolveMeta(env, where.value.0, where.value.1), now);
    }
  }

  lemma ListStepKeeps(env: Env, s0: Store, s: Store, seen: Cache, auth: Auth, r: ListRequest, now: nat)
    requires Kept(env, s0, s, seen)
    ensures var t := ListStep(env, s, seen, auth, r, now); Kept(env, s0, t.store, t.seen) && Quiet(s, t.store)
  {
    hide Kept, Authorize, CanonicalPath, Ascii, Listing.ListPage;
    var name := CanonicalPath(r.namespace);
    var prefix := if r.prefix.Some? then CanonicalPath(r.prefix.value) else Good([]);
    if name.Good? && prefix.Good? {
      var wanted := if r.prefix.Some? then Some(prefix.value) else None;
      var meta := Meta(ListOp, env.tenant, Ascii("list:") + name.value, Some(name.value), wanted,
                       None, None, None, None, None, None);
      AuthorizeKeeps(env, s0, s, seen, auth, meta, now);
      AuthorizeQuiet(s, seen, auth, meta, now);
    }
  }

  // ----------------------------------------------------------------------- runs

  lemma EffectKeeps(env: Env, s0: Store, s: Store, seen: Cache, auth: Auth, now: nat, q: Request)
    requires Kept(env, s0, s, seen)
    ensures var (s', seen') := Effect(env, s, seen, auth, now, q); Kept(env, s0, s', seen')
  {
    hide Kept, InitStep, ChunkStep, CommitStep, BindStep, UnbindStep, GetStep, ResolveStep, ListStep, PollStep;
    match q
    case Init(r) => InitStepKeeps(env, s0, s, seen, auth, r, now);
    case Chunk(r, bytes) => ChunkStepKeeps(env, s0, s, seen, auth, r, bytes, now);
    case Commit(r) => CommitStepKeeps(env, s0, s, seen, auth, r, now);
    case DirectBind(r) => BindStepKeeps(env, s0, s, seen, auth, r, now, true);
    case DirectUnbind(r) => UnbindStepKeeps(env, s0, s, seen, auth, r, now);
    case Get(selector, range) => GetStepKeeps(env, s0, s, seen, auth, selector, range, now);
    case Resolve(n, p, at, rev) => ResolveStepKeeps(env, s0, s, seen, auth, n, p, at, rev, now);
    case List(r) => ListStepKeeps(env, s0, s, seen, auth, r, now);
    case Subscribe(r, cursor) => PollStepKeeps(env, s0, s, seen, auth, r, cursor, now);
  }

  /** The invariant of the whole deployment. */
  ghost predicate Sound(env: Env, d: Deployment) {
    StoreInv(env, d.store) && forall i :: i in d.caches ==> Backed(d.store.replay, d.caches[i])
  }

  lemma AfterKeeps(env: Env, d: Deployment, c: Call)
    requires Sound(env, d)
    ensures Sound(env, After(env, d, c)) && Evolves(d.store, After(env, d, c).store)
  {
    hide StoreInv, Effect;
    EvolvesReflexive(d.store);
    match c
    case Restarted(_) =>
    case Call(i, auth, now, q) =>
      KeptStart(env, d.store, d.CacheOf(i));
      EffectKeeps(env, d.store, d.store, d.CacheOf(i), auth, now, q);
  }

  /** In every run the invariant holds throughout, and later states extend earlier ones. */
  lemma {:induction false} RunKeeps(env: Env, d: Deployment, run: seq<Call>, m: nat, n: nat)
    requires Sound(env, d) && m <= n <= |run|
    ensures Sound(env, DeploymentAt(env, d, run, n))
    ensures Evolves(DeploymentAt(env, d, run, m).store, DeploymentAt(env, d, run, n).store)
    decreases n
  {
    hide Sound, Evolves, After;
    EvolvesReflexive(DeploymentAt(env, d, run, m).store);
    if n > 0 {
      RunKeeps(env, d, run, 0, n - 1);
      AfterKeeps(env, DeploymentAt(env, d, run, n - 1), run[n - 1]);
      if m < n {
        RunKeeps(env, d, run, m, n - 1);
        EvolvesTransitive(DeploymentAt(env, d, run, m).store, DeploymentAt(env, d, run, n - 1).store,
                          DeploymentAt(env, d, run, n).store);
      }
    }
  }
}
