/**
 AlphaService as the object it is: records that its methods read and rewrite,
 each method proved to take exactly the step that the Service module specifies.
 */
module Alpha {
  import opened Basics
  import opened Paths
  import opened Records
  import opened Reading
  import opened Namespaces
  import opened Policy
  import opened Service
  import Events
  import Listing

  class AlphaService {
    const env: Env
    const replayCache: ReplayCache
    var chunks: map<Text, Text>
    var manifests: map<Text, ManifestRecord>
    var sessions: map<Text, Session>
    var namespaces: map<Text, Namespace>
    var replay: map<Text, Text>
    var bindReplies: map<Text, BindReply>
    var unbindReplies: map<Text, UnbindReply>
    var initReplies: map<Text, InitReply>
    var commitReplies: map<Text, CommitReply>
    var events: map<nat, Events.EventRecord>
    var nextEvent: nat

    /** The records as one value. */
    ghost function State(): Store
      reads this
    {
      Store(chunks, manifests, sessions, namespaces, replay, bindReplies, unbindReplies, initReplies, commitReplies,
            Events.Log(events, nextEvent))
    }

    constructor (env: Env)
      ensures this.env == env && fresh(replayCache)
      ensures State() == EMPTY_STORE && replayCache.seen == map[]
    {
      this.env := env;
      replayCache := new ReplayCache();
      chunks, manifests, sessions, namespaces, replay := map[], map[], map[], map[], map[];
      bindReplies, unbindReplies, initReplies, commitReplies := map[], map[], map[], map[];
      events, nextEvent := map[], 1;
    }

    /** append_event: advance the counter, then store the record under the number it held. */
    method AppendEvent(e: Events.EventRecord) returns (number: nat)
      modifies this`events, this`nextEvent
      ensures State() == Logged(old(State()), e) && number == old(nextEvent)
    {
      number := nextEvent;
      nextEvent := number + 1;
      events := events[number := e.(number := number)];
    }

    method DenyLogged(meta: Meta, now: nat)
      modifies this`events, this`nextEvent
      ensures State() == DenialLogged(old(State()), meta, now)
    {
      var _ := AppendEvent(Event(now, Events.AuthDenied, meta.namespace, meta.path, None, None, map[]));
    }

    /** authorize, with the durable record created when it is absent. */
    method Authorize(auth: Auth, meta: Meta, now: nat) returns (r: Result<Verdict>)
      modifies this`replay, this`events, this`nextEvent, replayCache
      ensures Step(State(), replayCache.seen, r) ==
              Service.Authorize(old(State()), old(replayCache.seen), auth, meta, now)
    {
      hide ReplayKey, Logged, Event, PolicyDenial;
      var denial := PolicyDenial(auth, meta, now);
      if denial.Some? {
        DenyLogged(meta, now);
        return Err(Denied(denial.value));
      }
      if !IsMutation(meta.operation) || auth.claims.jti.None? { return Ok(Fresh); }
      var key := ReplayKey(meta.tenant, auth.claims.jti.value, meta.operation, meta.subject);
      var verdict := replayCache.Observe(key, meta.idempotencyKey);
      if verdict != Refused {
        if key !in replay {
          replay := replay[key := meta.idempotencyKey.GetOr([])];
        } else if meta.idempotencyKey == Some(replay[key]) {
          verdict := Retry;
        } else {
          verdict := Refused;
        }
      }
      if verdict == Refused {
        DenyLogged(meta, now);
        return Err(Denied(ReplayDetected));
      }
      r := Ok(verdict);
    }

    // ---------------------------------------------------------------- mutations

    /** bind_internal from the precondition checks on. */
    method BindAuthorized(
      verdict: Verdict, r: BindRequest, name: Text, path: Text, record: MutationRecord, now: nat, direct: bool)
      returns (reply: Result<BindReply>)
      modifies this`namespaces, this`bindReplies, this`events, this`nextEvent
      ensures (State(), reply) ==
              Service.BindAuthorized(env, old(State()), verdict, r, name, path, record, now, direct)
    {
      hide RecordCid, Bind, Logged, Event, BindRefusal;
      var key := env.h(r.idempotencyKey);
      if direct && verdict == Retry && key in bindReplies { return Ok(bindReplies[key]); }
      var ns := if name in namespaces then namespaces[name] else Namespaces.EMPTY;
      var refusal := BindRefusal(ns, path, r.ifRevision, r.ifAbsent);
      if refusal == Some(PreconditionRequired) { return Err(PreconditionRequired); }
      if r.target !in manifests { return Err(ManifestNotFound); }
      if refusal.Some? { return Err(refusal.value); }
      namespaces := namespaces[name := Bind(env.h, ns, path, record, r.target, r.metadata)];
      var number := AppendEvent(Event(now, Events.NamespaceBound, Some(name), Some(path), Some(r.target),
                                      Some(ns.nextRevision), r.metadata));
      var done := BindReply(ns.nextRevision, RecordCid(env.h, record), number);
      if direct { bindReplies := bindReplies[key := done]; }
      reply := Ok(done);
    }

    method BindInternal(auth: Auth, r: BindRequest, now: nat, direct: bool) returns (reply: Result<BindReply>)
      modifies this`replay, this`namespaces, this`bindReplies, this`events, this`nextEvent, replayCache
      ensures Step(State(), replayCache.seen, reply) ==
              BindStep(env, old(State()), old(replayCache.seen), auth, r, now, direct)
    {
      hide Canonical, VerifyBind, Service.Authorize, Service.BindAuthorized, MutationMeta;
      var where := Canonical(r.namespace, r.path);
      if where.Err? { return Err(where.error); }
      var (name, path) := where.value;
      var record := VerifyBind(env, r, name, path);
      if record.Err? { return Err(record.error); }
      var verdict := Authorize(auth, MutationMeta(env, BindOp, name, path, r.idempotencyKey), now);
      if verdict.Err? { return Err(verdict.error); }
      reply := BindAuthorized(verdict.value, r, name, path, record.value, now, direct);
    }

    method UnbindAuthorized(
      verdict: Verdict, r: UnbindRequest, name: Text, path: Text, record: MutationRecord, now: nat)
      returns (reply: Result<UnbindReply>)
      modifies this`namespaces, this`unbindReplies, this`events, this`nextEvent
      ensures (State(), reply) == Service.UnbindAuthorized(env, old(State()), verdict, r, name, path, record, now)
    {
      hide RecordCid, Unbind, Logged, Event, UnbindRefusal;
      var key := env.h(r.idempotencyKey);
      if verdict == Retry && key in unbindReplies { return Ok(unbindReplies[key]); }
      var ns := if name in namespaces then namespaces[name] else Namespaces.EMPTY;
      var refusal := UnbindRefusal(ns, path, r.ifRevision);
      if refusal.Some? { return Err(refusal.value); }
      namespaces := namespaces[name := Unbind(env.h, ns, path, record, r.hardDelete)];
      var number := AppendEvent(Event(now, if r.hardDelete then Events.NamespaceUnbound else Events.NamespaceTombstoned,
                                      Some(name), Some(path), None, Some(ns.nextRevision), map[]));
      var done := UnbindReply(ns.nextRevision, RecordCid(env.h, record), number, !r.hardDelete);
      unbindReplies := unbindReplies[key := done];
      reply := Ok(done);
    }

    method UnbindInternal(auth: Auth, r: UnbindRequest, now: nat) returns (reply: Result<UnbindReply>)
      modifies this`replay, this`namespaces, this`unbindReplies, this`events, this`nextEvent, replayCache
      ensures Step(State(), replayCache.seen, reply) ==
              UnbindStep(env, old(State()), old(replayCache.seen), auth, r, now)
    {
      hide Canonical, VerifyUnbind, Service.Authorize, Service.UnbindAuthorized, MutationMeta;
      var where := Canonical(r.namespace, r.path);
      if where.Err? { return Err(where.error); }
      var (name, path) := where.value;
      var record := VerifyUnbind(env, r, name, path);
      if record.Err? { return Err(record.error); }
      if r.hardDelete && AdminRepair !in auth.claims.ops { return Err(HardDeleteRequiresAdmin); }
      var verdict := Authorize(auth, MutationMeta(env, UnbindOp, name, path, r.idempotencyKey), now);
      if verdict.Err? { return Err(verdict.error); }
      reply := UnbindAuthorized(verdict.value, r, name, path, record.value, now);
    }

    // ------------------------------------------------------------------ uploads

    method PutInit(auth: Auth, r: InitRequest, now: nat) returns (reply: Result<InitReply>)
      modifies this`replay, this`sessions, this`initReplies, this`events, this`nextEvent, replayCache
      ensures Step(State(), replayCache.seen, reply) ==
              InitStep(env, old(State()), old(replayCache.seen), auth, r, now)
    {
      hide Service.Authorize, InitInvalid, ManifestCid, SessionId, InitMeta, Missing, SmallManifest;
      var invalid := InitInvalid(env, r);
      if invalid.Some? { return Err(invalid.value); }
      var cid := ManifestCid(env.h, r.manifest);
      var verdict := Authorize(auth, InitMeta(env, r), now);
      if verdict.Err? { return Err(verdict.error); }
      var key := env.h(r.idempotencyKey);
      if verdict.value == Retry && key in initReplies { return Ok(initReplies[key]); }
      var done := InitReply(SessionId(cid), Missing(chunks, r.manifest.chunkRefs), cid, now + UPLOAD_WINDOW_MS);
      sessions := sessions[SessionId(cid) := Session(r.manifest, cid, r.storageClass, r.atomicBind, {}, false)];
      initReplies := initReplies[key := done];
      reply := Ok(done);
    }

    method PutChunk(auth: Auth, r: ChunkRequest, bytes: Text, now: nat) returns (reply: Result<ChunkReply>)
      modifies this`replay, this`chunks, this`sessions, this`events, this`nextEvent, replayCache
      ensures Step(State(), replayCache.seen, reply) ==
              ChunkStep(env, old(State()), old(replayCache.seen), auth, r, bytes, now)
    {
      hide Service.Authorize, ChunkMeta, FindRef, SmallManifest;
      if env.h(bytes) != r.cid { return Err(ChunkCidMismatch); }
      if r.sessionId !in sessions { return Err(UploadSessionNotFound); }
      var session := sessions[r.sessionId];
      if session.committed { return Err(UploadSessionCommitted); }
      var ref := FindRef(session.manifest.chunkRefs, r.index);
      if ref.None? { return Err(UnknownChunkIndex); }
      if ref.value.cid != r.cid || ref.value.offset != r.offset || ref.value.storedLen != r.length {
        return Err(ChunkDescriptorMismatch);
      }
      if r.length != |bytes| { return Err(ChunkLengthMismatch); }
      if |bytes| > MAX_CHUNK_SIZE { return Err(ChunkTooLarge); }
      var verdict := Authorize(auth, ChunkMeta(env, r, session, |bytes|), now);
      if verdict.Err? { return Err(verdict.error); }
      var duplicate := r.cid in chunks;
      if !duplicate { chunks := chunks[r.cid := bytes]; }
      sessions := sessions[r.sessionId := session.(uploaded := session.uploaded + {r.index})];
      reply := Ok(ChunkReply(!duplicate, duplicate));
    }

    /** Whether every chunk of the list is stored: the loop stops at the first that is not. */
    method ChunksPresent(refs: seq<ChunkRef>) returns (present: bool)
      ensures present <==> AllPresent(chunks, refs)
    {
      var i := 0;
      while i < |refs|
        invariant 0 <= i <= |refs|
        invariant forall k :: 0 <= k < i ==> refs[k].cid in chunks
      {
        if refs[i].cid !in chunks { return false; }
        i := i + 1;
      }
      return true;
    }

    /** The end of a commit. */
    method FinishCommit(r: CommitRequest, session: Session, now: nat) returns (reply: CommitReply)
      modifies this`sessions, this`commitReplies, this`events, this`nextEvent
      ensures State() == CommitFinished(env, old(State()), r, session, now)
      ensures reply == CommitReply(session.manifestCid, old(nextEvent))
    {
      hide Event, SmallManifest;
      var number := AppendEvent(Event(now, Events.ObjectCommitted, BindNamespace(session.atomicBind),
                                      BindPath(session.atomicBind), Some(session.manifestCid), None, map[]));
      reply := CommitReply(session.manifestCid, number);
      sessions := sessions[r.sessionId := session.(committed := true)];
      commitReplies := commitReplies[env.h(r.idempotencyKey) := reply];
    }

    /** The manifest is stored before its bind is tried, and deleted again when the bind fails. */
    method StoreAndBind(auth: Auth, r: CommitRequest, session: Session, now: nat) returns (reply: Result<CommitReply>)
      modifies this`replay, this`manifests, this`namespaces, this`sessions, this`bindReplies, this`commitReplies,
        this`events, this`nextEvent, replayCache
      ensures Step(State(), replayCache.seen, reply) ==
              CommitStored(env, old(State()), old(replayCache.seen), auth, r, session, now)
    {
      hide BindStep, CommitFinished, CommitBind, SmallManifest;
      var cid := session.manifestCid;
      manifests := manifests[cid := ManifestRecord(session.manifest, cid, cid, session.storageClass, now)];
      if session.atomicBind.Some? {
        var bound := BindInternal(auth, CommitBind(session.atomicBind.value, r, cid), now, false);
        if bound.Err? {
          manifests := manifests - {cid};
          return Err(bound.error);
        }
      }
      var done := FinishCommit(r, session, now);
      reply := Ok(done);
    }

    method PutCommit(auth: Auth, r: CommitRequest, now: nat) returns (reply: Result<CommitReply>)
      modifies this`replay, this`manifests, this`namespaces, this`sessions, this`bindReplies, this`commitReplies,
        this`events, this`nextEvent, replayCache
      ensures Step(State(), replayCache.seen, reply) ==
              CommitStep(env, old(State()), old(replayCache.seen), auth, r, now)
    {
      hide Service.Authorize, CommitMeta, AllPresent, CommitStored, SmallManifest;
      if r.sessionId !in sessions { return Err(UploadSessionNotFound); }
      var session := sessions[r.sessionId];
      if session.manifestCid != r.manifestCid { return Err(ManifestCidMismatch); }
      var verdict := Authorize(auth, CommitMeta(env, r, session), now);
      if verdict.Err? { return Err(verdict.error); }
      var key := env.h(r.idempotencyKey);
      if verdict.value == Retry && key in commitReplies { return Ok(commitReplies[key]); }
      var present := ChunksPresent(session.manifest.chunkRefs);
      if !present { return Err(MissingChunk); }
      reply := StoreAndBind(auth, r, session, now);
    }

    // -------------------------------------------------------------------- reads

    method Get(auth: Auth, selector: Selector, range: Option<Range>, now: nat) returns (reply: Result<GetReply>)
      modifies this`replay, this`events, this`nextEvent, replayCache
      ensures Step(State(), replayCache.seen, reply) ==
              GetStep(env, old(State()), old(replayCache.seen), auth, selector, range, now)
    {
      hide Service.Authorize, ResolveSelector, SelectorComplete, ReadMeta, Fragments, SmallManifest;
      if !SelectorComplete(selector) { return Err(MissingSelector); }
      if range.Some? && range.value.start > range.value.end { return Err(InvalidRange); }
      var res := Selected(selector);
      if res.Err? { return Err(res.error); }
      var verdict := Authorize(auth, ReadMeta(env, GetOp, res.value), now);
      if verdict.Err? { return Err(verdict.error); }
      if res.value.manifestCid !in manifests { return Err(ManifestNotFound); }
      reply := ReadManifest(manifests[res.value.manifestCid], range);
    }

    /** selector_resolution. */
    method Selected(selector: Selector) returns (r: Result<Resolution>)
      ensures r == ResolveSelector(State(), selector)
    {
      hide Canonical;
      match selector
      case ByCid(cid) => return Ok(Resolution(cid, None, None));
      case ByPath(namespace, path) =>
        var where := Canonical(namespace, path);
        if where.Err? { return Err(where.error); }
        if where.value.0 !in namespaces || where.value.1 !in namespaces[where.value.0].bindings {
          return Err(PathNotBound);
        }
        var b := namespaces[where.value.0].bindings[where.value.1];
        if b.tombstone { return Err(PathTombstoned); }
        if b.manifest.None? { return Err(PathNotBound); }
        return Ok(Resolution(b.manifest.value, Some(namespace), Some(path)));
    }

    method ReadManifest(record: ManifestRecord, range: Option<Range>) returns (reply: Result<GetReply>)
      ensures reply == ReadRecord(State(), record, range)
    {
      hide Fragments, SmallManifest;
      var a, b := 0, SatSub(record.manifest.logicalSize, 1);
      if range.Some? {
        if range.value.end >= record.manifest.logicalSize { return Err(InvalidRange); }
        a, b := range.value.start, range.value.end;
      }
      var f := ReadFragments(chunks, record.manifest.chunkRefs, a, b);
      if f.Err? { return Err(f.error); }
      reply := Ok(GetReply(record, f.value));
    }

    method Resolve(auth: Auth, namespace: Text, path: Text, at: Option<nat>, ifRevision: Option<nat>, now: nat)
      returns (reply: Result<Binding>)
      modifies this`replay, this`events, this`nextEvent, replayCache
      ensures Step(State(), replayCache.seen, reply) ==
              ResolveStep(env, old(State()), old(replayCache.seen), auth, namespace, path, at, ifRevision, now)
    {
      hide Service.Authorize, Canonical, ResolveMeta, SnapshotAt;
      var where := Canonical(namespace, path);
      if where.Err? { return Err(where.error); }
      var (name, p) := where.value;
      var verdict := Authorize(auth, ResolveMeta(env, name, p), now);
      if verdict.Err? { return Err(verdict.error); }
      var bindings := TakeSnapshot(if name in namespaces then namespaces[name] else Namespaces.EMPTY, at);
      if p !in bindings { return Err(PathNotBound); }
      if ifRevision.Some? && bindings[p].revision != ifRevision.value { return Err(RevisionConflict); }
      reply := Ok(bindings[p]);
    }

    method List(auth: Auth, r: ListRequest, now: nat) returns (reply: Result<Listing.Page>)
      modifies this`replay, this`events, this`nextEvent, replayCache
      ensures Step(State(), replayCache.seen, reply) ==
              ListStep(env, old(State()), old(replayCache.seen), auth, r, now)
    {
      hide Service.Authorize, CanonicalPath, Listing.ListPage, Ascii;
      var name := CanonicalPath(r.namespace);
      var prefix := if r.prefix.Some? then CanonicalPath(r.prefix.value) else Good([]);
      if name.Bad? { return Err(InvalidNamespace); }
      if prefix.Bad? { return Err(InvalidPrefix); }
      var wanted := if r.prefix.Some? then Some(prefix.value) else None;
      var verdict := Authorize(auth, Meta(ListOp, env.tenant, Ascii("list:") + name.value, Some(name.value), wanted,
                                          None, None, None, None, None, None), now);
      if verdict.Err? { return Err(verdict.error); }
      reply := Listing.ListPage(Listing.Query(env.tenant, name.value, wanted, r.includeTombstones),
                                if name.value in namespaces then namespaces[name.value] else Namespaces.EMPTY,
                                r.cursor, r.limit.GetOr(100));
    }

    // ------------------------------------------------------------- subscriptions

    /** One authorisation per filter, or one for the whole log when there is no filter. */
    method AuthorizeSubscription(auth: Auth, filters: seq<Events.Filter>, now: nat) returns (r: Result<()>)
      requires filters != []
      modifies this`replay, this`events, this`nextEvent, replayCache
      ensures Step(State(), replayCache.seen, r) ==
              AuthorizeFilters(env, old(State()), old(replayCache.seen), auth, filters, 0, now)
    {
      hide Service.Authorize, Ascii, Decimal;
      var i := 0;
      while i < |filters|
        invariant 0 <= i <= |filters|
        invariant AuthorizeFilters(env, State(), replayCache.seen, auth, filters, i, now) ==
                  AuthorizeFilters(env, old(State()), old(replayCache.seen), auth, filters, 0, now)
      {
        var f := filters[i];
        var verdict := Authorize(auth, SubscribeMeta(env, Ascii("events:filter:") + Decimal(i), f.namespacePrefix,
                                                     f.pathExact), now);
        if verdict.Err? { return Err(verdict.error); }
        i := i + 1;
      }
      r := Ok(());
    }

    /** The window of stored events after the cursor, filtered; the cursor moves past the last one delivered. */
    method DeliverAfter(filters: seq<Events.Filter>, cursor: nat, batchMax: nat) returns (r: Events.PollResult)
      ensures r == Events.Poll(State().log, filters, cursor, batchMax)
    {
      hide Events.Window, Events.Select;
      var window := Events.ReadRecordsAfter(Events.Log(events, nextEvent), cursor, batchMax);
      var delivered := Events.Select(filters, window);
      var next := cursor;
      if delivered != [] { next := delivered[|delivered| - 1].number + 1; }
      r := Events.PollResult(delivered, next);
    }

    method SubscribePoll(auth: Auth, r: SubscribeRequest, cursor: nat, now: nat) returns (reply: Result<Events.PollResult>)
      modifies this`replay, this`events, this`nextEvent, replayCache
      ensures Step(State(), replayCache.seen, reply) ==
              PollStep(env, old(State()), old(replayCache.seen), auth, r, cursor, now)
    {
      hide Service.Authorize, AuthorizeFilters, ForeignScope, Events.Poll, Events.StartAt, Ascii;
      if ForeignScope(env, r.filters) { return Err(TenantScopeMismatch); }
      if r.filters == [] {
        var verdict := Authorize(auth, SubscribeMeta(env, Ascii("events"), None, None), now);
        if verdict.Err? { return Err(verdict.error); }
      } else {
        var allowed := AuthorizeSubscription(auth, r.filters, now);
        if allowed.Err? { return Err(allowed.error); }
      }
      var start := Events.StartAt(Events.Log(events, nextEvent), env.tenant, r.cursor, r.fromNumber);
      if start.Err? { return Err(start.error); }
      var polled := DeliverAfter(r.filters, cursor, r.batchMax.GetOr(64));
      reply := Ok(polled);
    }
  }
}
