/**
 AlphaService over one tenant's partition of the store, each request one step:
 the upload protocol, the namespace mutations, the reads, and authorisation
 with replay protection in front of all of them.
 */
module Service {
  import opened Basics
  import opened Paths
  import opened Records
  import opened Namespaces
  import opened Policy
  import opened Reading
  import Events
  import Listing

  type Binding = Namespaces.Binding

  /** Manifests as the wire types can carry them. */
  type WireManifest = m: Manifest | SmallManifest(m)
    witness Manifest(0, [], 0, 0, [], [], [], 0, EncryptionDescriptor([], [], [], [], ServerVisible, [], map[], map[]))

  /** The tenant whose partition this is, the content hash and the signature check. */
  datatype Env = Env(tenant: Text, h: Hash, verify: Text -> Option<MutationRecord>)

  datatype AtomicBind = AtomicBind(
    namespace: Text, path: Text, ifRevision: Option<nat>, metadata: Metadata, ttl: Option<nat>, signedRecord: Text)

  datatype Session = Session(
    manifest: WireManifest, manifestCid: Text, storageClass: Text, atomicBind: Option<AtomicBind>,
    uploaded: set<nat>, committed: bool)

  datatype ManifestRecord = ManifestRecord(
    manifest: WireManifest, manifestCid: Text, objectCid: Text, storageClass: Text, committedAt: nat)

  datatype BindReply = BindReply(revision: nat, recordCid: Text, eventNumber: nat)
  datatype UnbindReply = UnbindReply(revision: nat, recordCid: Text, eventNumber: nat, tombstone: bool)
  datatype InitReply = InitReply(sessionId: Text, missing: seq<nat>, manifestCid: Text, deadline: nat)
  datatype ChunkReply = ChunkReply(stored: bool, duplicate: bool)
  datatype CommitReply = CommitReply(objectCid: Text, eventNumber: nat)

  /** The persistent records of one tenant, by kind. */
  datatype Store = Store(
    chunks: map<Text, Text>,
    manifests: map<Text, ManifestRecord>,
    sessions: map<Text, Session>,
    namespaces: map<Text, Namespace>,
    replay: Cache,
    bindReplies: map<Text, BindReply>,
    unbindReplies: map<Text, UnbindReply>,
    initReplies: map<Text, InitReply>,
    commitReplies: map<Text, CommitReply>,
    log: Events.Log)

  const EMPTY_STORE: Store :=
    Store(map[], map[], map[], map[], map[], map[], map[], map[], map[], Events.EMPTY_LOG)

  function NamespaceOf(s: Store, name: Text): Namespace {
    if name in s.namespaces then s.namespaces[name] else Namespaces.EMPTY
  }

  datatype Step<+T> = Step(store: Store, seen: Cache, reply: Result<T>)

  function Event(
    now: nat, t: Events.EventType, namespace: Option<Text>, path: Option<Text>, cid: Option<Text>,
    revision: Option<nat>, payload: Metadata): Events.EventRecord
  {
    Events.EventRecord(0, now, t, namespace, path, cid, revision, payload)
  }

  function Logged(s: Store, e: Events.EventRecord): Store {
    s.(log := Events.Append(s.log, e))
  }

  // -------------------------------------------------------------- authorisation

  function DenialLogged(s: Store, meta: Meta, now: nat): Store {
    Logged(s, Event(now, Events.AuthDenied, meta.namespace, meta.path, None, None, map[]))
  }

  /** AlphaService::authorize: policy, then the replay cache, then the durable replay record. */
  function Authorize(s: Store, seen: Cache, auth: Auth, meta: Meta, now: nat): Step<Verdict> {
    var denial := PolicyDenial(auth, meta, now);
    if denial.Some? then Step(DenialLogged(s, meta, now), seen, Err(Denied(denial.value)))
    else if !IsMutation(meta.operation) || auth.claims.jti.None? then Step(s, seen, Ok(Fresh))
    else
      var key := ReplayKey(meta.tenant, auth.claims.jti.value, meta.operation, meta.subject);
      var verdict := DurableVerdict(seen, s.replay, key, meta.idempotencyKey);
      var s' := s.(replay := DurableAfter(seen, s.replay, key, meta.idempotencyKey));
      var seen' := CacheAfter(seen, key, meta.idempotencyKey);
      if verdict == Refused then Step(DenialLogged(s', meta, now), seen', Err(Denied(ReplayDetected)))
      else Step(s', seen', Ok(verdict))
  }

  // ------------------------------------------------------------------ mutations

  datatype BindRequest = BindRequest(
    namespace: Text, path: Text, target: Text, ifRevision: Option<nat>, ifAbsent: bool, metadata: Metadata,
    ttl: Option<nat>, idempotencyKey: Text, signedRecord: Text)

  datatype UnbindRequest = UnbindRequest(
    namespace: Text, path: Text, ifRevision: nat, hardDelete: bool, idempotencyKey: Text, signedRecord: Text)

  function Canonical(namespace: Text, path: Text): Result<(Text, Text)> {
    var n := CanonicalPath(namespace);
    var p := CanonicalPath(path);
    if n.Bad? then Err(InvalidNamespace) else if p.Bad? then Err(InvalidPath) else Ok((n.value, p.value))
  }

  /** One whitespace character at the front of a UTF-8 text: its length in bytes, or 0. */
  function LeadingSpace(t: Text): (n: nat)
    ensures n <= |t|
  {
    if |t| >= 1 && (9 <= t[0] <= 13 || t[0] == 32) then 1
    else if |t| >= 2 && t[0] == 0xC2 && t[1] in {0x85, 0xA0} then 2
    else if |t| >= 3 && (t[..3] == [0xE1, 0x9A, 0x80] || t[..3] == [0xE3, 0x80, 0x80] || t[..3] == [0xE2, 0x81, 0x9F])
    then 3
    else if |t| >= 3 && t[0] == 0xE2 && t[1] == 0x80 && (0x80 <= t[2] <= 0x8A || t[2] in {0xA8, 0xA9, 0xAF}) then 3
    else 0
  }

  /** `trim().is_empty()`. */
  predicate Blank(t: Text)
    decreases |t|
  {
    t == [] || (LeadingSpace(t) > 0 && Blank(t[LeadingSpace(t)..]))
  }

  function RecordInvalid(r: MutationRecord): Option<ApiError> {
    if Blank(r.namespace) then Some(MissingNamespace)
    else if Blank(r.path) then Some(MissingPath)
    else if r.kind == BindKind && r.target.GetOr([]) == [] then Some(MissingTargetCid)
    else None
  }

  /** The signed record must say exactly what the request says. */
  function VerifyBind(env: Env, r: BindRequest, name: Text, path: Text): Result<MutationRecord> {
    var record := env.verify(r.signedRecord);
    if record.None? then Err(SignedRecordInvalid)
    else
      var m := record.value;
      if m.tenant != env.tenant || m.namespace != name || m.path != path || m.kind != BindKind ||
         m.target != Some(r.target) || m.ifRevision != r.ifRevision || m.ttl != r.ttl || m.metadata != r.metadata
      then Err(SignedRecordMismatch)
      else if RecordInvalid(m).Some? then Err(RecordInvalid(m).value)
      else Ok(m)
  }

  function VerifyUnbind(env: Env, r: UnbindRequest, name: Text, path: Text): Result<MutationRecord> {
    var record := env.verify(r.signedRecord);
    if record.None? then Err(SignedRecordInvalid)
    else
      var m := record.value;
      if m.tenant != env.tenant || m.namespace != name || m.path != path ||
         m.kind != (if r.hardDelete then HardDeleteKind else UnbindKind) || m.ifRevision != Some(r.ifRevision)
      then Err(SignedRecordMismatch)
      else if RecordInvalid(m).Some? then Err(RecordInvalid(m).value)
      else Ok(m)
  }

  function MutationMeta(env: Env, op: Operation, name: Text, path: Text, idempotencyKey: Text): Meta {
    Meta(op, env.tenant, name + [COLON] + path, Some(name), Some(path), None, None, None, None, None,
         Some(idempotencyKey))
  }

  /** Applying a bind that has passed every check. */
  function BindApplied(
    env: Env, s: Store, r: BindRequest, name: Text, path: Text, record: MutationRecord, now: nat): Store
  {
    var ns := NamespaceOf(s, name);
    Logged(s.(namespaces := s.namespaces[name := Bind(env.h, ns, path, record, r.target, r.metadata)]),
           Event(now, Events.NamespaceBound, Some(name), Some(path), Some(r.target), Some(ns.nextRevision), r.metadata))
  }

  /** What remains of bind_internal once the request is authorised; `direct` is persist_idempotency. */
  function BindAuthorized(
    env: Env, s: Store, verdict: Verdict, r: BindRequest, name: Text, path: Text, record: MutationRecord, now: nat,
    direct: bool): (Store, Result<BindReply>)
  {
    var key := env.h(r.idempotencyKey);
    var ns := NamespaceOf(s, name);
    var refusal := BindRefusal(ns, path, r.ifRevision, r.ifAbsent);
    if direct && verdict == Retry && key in s.bindReplies then (s, Ok(s.bindReplies[key]))
    else if refusal == Some(PreconditionRequired) then (s, Err(PreconditionRequired))
    else if r.target !in s.manifests then (s, Err(ManifestNotFound))
    else if refusal.Some? then (s, Err(refusal.value))
    else
      var reply := BindReply(ns.nextRevision, RecordCid(env.h, record), s.log.next);
      var s' := BindApplied(env, s, r, name, path, record, now);
      (if direct then s'.(bindReplies := s'.bindReplies[key := reply]) else s', Ok(reply))
  }

  /** bind_internal; the bind inside a commit is not direct. */
  function BindStep(env: Env, s: Store, seen: Cache, auth: Auth, r: BindRequest, now: nat, direct: bool): Step<BindReply> {
    var where := Canonical(r.namespace, r.path);
    if where.Err? then Step(s, seen, Err(where.error)) else
      var (name, path) := where.value;
      var record := VerifyBind(env, r, name, path);
      if record.Err? then Step(s, seen, Err(record.error)) else
        var a := Authorize(s, seen, auth, MutationMeta(env, BindOp, name, path, r.idempotencyKey), now);
        if a.reply.Err? then Step(a.store, a.seen, Err(a.reply.error)) else
          var (s', reply) := BindAuthorized(env, a.store, a.reply.value, r, name, path, record.value, now, direct);
          Step(s', a.seen, reply)
  }

  function UnbindApplied(
    env: Env, s: Store, r: UnbindRequest, name: Text, path: Text, record: MutationRecord, now: nat): Store
  {
    var ns := NamespaceOf(s, name);
    Logged(s.(namespaces := s.namespaces[name := Unbind(env.h, ns, path, record, r.hardDelete)]),
           Event(now, if r.hardDelete then Events.NamespaceUnbound else Events.NamespaceTombstoned,
                 Some(name), Some(path), None, Some(ns.nextRevision), map[]))
  }

  function UnbindAuthorized(
    env: Env, s: Store, verdict: Verdict, r: UnbindRequest, name: Text, path: Text, record: MutationRecord, now: nat)
    : (Store, Result<UnbindReply>)
  {
    var key := env.h(r.idempotencyKey);
    var ns := NamespaceOf(s, name);
    var refusal := UnbindRefusal(ns, path, r.ifRevision);
    if verdict == Retry && key in s.unbindReplies then (s, Ok(s.unbindReplies[key]))
    else if refusal.Some? then (s, Err(refusal.value))
    else
      var reply := UnbindReply(ns.nextRevision, RecordCid(env.h, record), s.log.next, !r.hardDelete);
      var s' := UnbindApplied(env, s, r, name, path, record, now);
      (s'.(unbindReplies := s'.unbindReplies[key := reply]), Ok(reply))
  }

  function UnbindStep(env: Env, s: Store, seen: Cache, auth: Auth, r: UnbindRequest, now: nat): Step<UnbindReply> {
    var where := Canonical(r.namespace, r.path);
    if where.Err? then Step(s, seen, Err(where.error)) else
      var (name, path) := where.value;
      var record := VerifyUnbind(env, r, name, path);
      if record.Err? then Step(s, seen, Err(record.error))
      else if r.hardDelete && AdminRepair !in auth.claims.ops then Step(s, seen, Err(HardDeleteRequiresAdmin))
      else
        var a := Authorize(s, seen, auth, MutationMeta(env, UnbindOp, name, path, r.idempotencyKey), now);
        if a.reply.Err? then Step(a.store, a.seen, Err(a.reply.error)) else
          var (s', reply) := UnbindAuthorized(env, a.store, a.reply.value, r, name, path, record.value, now);
          Step(s', a.seen, reply)
  }

  // -------------------------------------------------------------------- uploads

  datatype InitRequest = InitRequest(
    manifest: WireManifest, idempotencyKey: Text, profileId: Text, keyPolicyId: Text, visibility: Visibility,
    storageClass: Text, atomicBind: Option<AtomicBind>)

  datatype ChunkRequest = ChunkRequest(sessionId: Text, index: nat, cid: Text, offset: nat, length: nat)

  datatype CommitRequest = CommitRequest(sessionId: Text, manifestCid: Text, idempotencyKey: Text)

  const MAX_CHUNK_SIZE: nat := 4 * 1024 * 1024
  const UPLOAD_WINDOW_MS: nat := 15 * 60 * 1000

  /** Manifest::validate; it does not ask whether the chunks tile the object. */
  function ManifestInvalid(m: Manifest): Option<ApiError> {
    if m.chunkRefs == [] then Some(EmptyChunkRefs)
    else if m.storedSize == 0 || m.logicalSize == 0 then Some(ZeroSizedManifest)
    else if Blank(m.encryption.contentSuite) || Blank(m.encryption.wrappingSuite) then Some(MissingSuite)
    else if m.encryption.wrappedKeys == [] then Some(MissingWrappedKeys)
    else None
  }

  function InitInvalid(env: Env, r: InitRequest): Option<ApiError> {
    var m := r.manifest;
    if ManifestInvalid(m).Some? then ManifestInvalid(m)
    else if m.tenant != env.tenant then Some(ManifestTenantMismatch)
    else if m.encryption.keyPolicyId != r.keyPolicyId then Some(ManifestKeyPolicyMismatch)
    else if m.encryption.profileId != r.profileId then Some(ManifestProfileMismatch)
    else if m.encryption.visibility != r.visibility then Some(ManifestVisibilityMismatch)
    else None
  }

  function SessionId(manifestCid: Text): Text { Ascii("session-") + manifestCid }

  function BindNamespace(b: Option<AtomicBind>): Option<Text> { if b.Some? then Some(b.value.namespace) else None }

  function BindPath(b: Option<AtomicBind>): Option<Text> { if b.Some? then Some(b.value.path) else None }

  function Missing(chunks: map<Text, Text>, refs: seq<ChunkRef>): seq<nat> {
    if refs == [] then []
    else (if refs[0].cid in chunks then [] else [refs[0].index]) + Missing(chunks, refs[1..])
  }

  function InitMeta(env: Env, r: InitRequest): Meta {
    Meta(PutInitOp, env.tenant, ManifestCid(env.h, r.manifest), BindNamespace(r.atomicBind), BindPath(r.atomicBind),
         Some(r.manifest.storedSize), Some(r.storageClass), Some(r.keyPolicyId), Some(r.profileId),
         Some(r.visibility), Some(r.idempotencyKey))
  }

  function InitStep(env: Env, s: Store, seen: Cache, auth: Auth, r: InitRequest, now: nat): Step<InitReply> {
    if InitInvalid(env, r).Some? then Step(s, seen, Err(InitInvalid(env, r).value)) else
      var cid := ManifestCid(env.h, r.manifest);
      var a := Authorize(s, seen, auth, InitMeta(env, r), now);
      if a.reply.Err? then Step(a.store, a.seen, Err(a.reply.error)) else
        var key := env.h(r.idempotencyKey);
        if a.reply.value == Retry && key in a.store.initReplies
        then Step(a.store, a.seen, Ok(a.store.initReplies[key]))
        else
          var id := SessionId(cid);
          var reply := InitReply(id, Missing(a.store.chunks, r.manifest.chunkRefs), cid, now + UPLOAD_WINDOW_MS);
          var session := Session(r.manifest, cid, r.storageClass, r.atomicBind, {}, false);
          Step(a.store.(sessions := a.store.sessions[id := session],
                        initReplies := a.store.initReplies[key := reply]),
               a.seen, Ok(reply))
  }

  /** The first chunk reference with the given index. */
  function FindRef(refs: seq<ChunkRef>, index: nat): Option<ChunkRef> {
    if refs == [] then None
    else if refs[0].index == index then Some(refs[0])
    else FindRef(refs[1..], index)
  }

  function Decimal(n: nat): Text {
    if n < 10 then [0x30 + n] else Decimal(n / 10) + [0x30 + n % 10]
  }

  function ChunkMeta(env: Env, r: ChunkRequest, session: Session, size: nat): Meta {
    Meta(PutChunkOp, env.tenant, r.sessionId + [COLON] + Decimal(r.index), None, None, Some(size),
         Some(session.storageClass), Some(session.manifest.encryption.keyPolicyId),
         Some(session.manifest.encryption.profileId), None, None)
  }

  function ChunkInvalid(s: Store, h: Hash, r: ChunkRequest, bytes: Text): Option<ApiError> {
    if h(bytes) != r.cid then Some(ChunkCidMismatch)
    else if r.sessionId !in s.sessions then Some(UploadSessionNotFound)
    else if s.sessions[r.sessionId].committed then Some(UploadSessionCommitted)
    else
      var ref := FindRef(s.sessions[r.sessionId].manifest.chunkRefs, r.index);
      if ref.None? then Some(UnknownChunkIndex)
      else if ref.value.cid != r.cid || ref.value.offset != r.offset || ref.value.storedLen != r.length
      then Some(ChunkDescriptorMismatch)
      else if r.length != |bytes| then Some(ChunkLengthMismatch)
      else if |bytes| > MAX_CHUNK_SIZE then Some(ChunkTooLarge)
      else None
  }

  function ChunkStep(env: Env, s: Store, seen: Cache, auth: Auth, r: ChunkRequest, bytes: Text, now: nat): Step<ChunkReply> {
    if ChunkInvalid(s, env.h, r, bytes).Some? then Step(s, seen, Err(ChunkInvalid(s, env.h, r, bytes).value)) else
      var session := s.sessions[r.sessionId];
      var a := Authorize(s, seen, auth, ChunkMeta(env, r, session, |bytes|), now);
      if a.reply.Err? then Step(a.store, a.seen, Err(a.reply.error)) else
        var duplicate := r.cid in a.store.chunks;
        Step(a.store.(chunks := if duplicate then a.store.chunks else a.store.chunks[r.cid := bytes],
                      sessions := a.store.sessions[r.sessionId :=
                                                     session.(uploaded := session.uploaded + {r.index})]),
             a.seen, Ok(ChunkReply(!duplicate, duplicate)))
  }

  predicate AllPresent(chunks: map<Text, Text>, refs: seq<ChunkRef>) {
    forall i :: 0 <= i < |refs| ==> refs[i].cid in chunks
  }

  function CommitMeta(env: Env, r: CommitRequest, session: Session): Meta {
    Meta(PutCommitOp, env.tenant, r.sessionId, BindNamespace(session.atomicBind), BindPath(session.atomicBind),
         Some(session.manifest.storedSize), Some(session.storageClass),
         Some(session.manifest.encryption.keyPolicyId), Some(session.manifest.encryption.profileId), None,
         Some(r.idempotencyKey))
  }

  function CommitBind(b: AtomicBind, r: CommitRequest, objectCid: Text): BindRequest {
    BindRequest(b.namespace, b.path, objectCid, b.ifRevision, b.ifRevision.None?, b.metadata, b.ttl,
                r.idempotencyKey, b.signedRecord)
  }

  /** The end of a commit: the event, the session and the reply record. */
  function CommitFinished(env: Env, s: Store, r: CommitRequest, session: Session, now: nat): Store {
    var s1 := Logged(s, Event(now, Events.ObjectCommitted, BindNamespace(session.atomicBind),
                              BindPath(session.atomicBind), Some(session.manifestCid), None, map[]));
    s1.(sessions := s1.sessions[r.sessionId := session.(committed := true)],
        commitReplies := s1.commitReplies[env.h(r.idempotencyKey) := CommitReply(session.manifestCid, s.log.next)])
  }

  /** Storing the manifest and binding it: when the bind fails the manifest record is deleted again. */
  function CommitStored(
    env: Env, s: Store, seen: Cache, auth: Auth, r: CommitRequest, session: Session, now: nat): Step<CommitReply>
  {
    var cid := session.manifestCid;
    var record := ManifestRecord(session.manifest, cid, cid, session.storageClass, now);
    var stored := s.(manifests := s.manifests[cid := record]);
    if session.atomicBind.None? then
      Step(CommitFinished(env, stored, r, session, now), seen, Ok(CommitReply(cid, stored.log.next)))
    else
      var b := BindStep(env, stored, seen, auth, CommitBind(session.atomicBind.value, r, cid), now, false);
      if b.reply.Err? then Step(b.store.(manifests := b.store.manifests - {cid}), b.seen, Err(b.reply.error))
      else Step(CommitFinished(env, b.store, r, session, now), b.seen, Ok(CommitReply(cid, b.store.log.next)))
  }

  function CommitStep(env: Env, s: Store, seen: Cache, auth: Auth, r: CommitRequest, now: nat): Step<CommitReply> {
    if r.sessionId !in s.sessions then Step(s, seen, Err(UploadSessionNotFound))
    else if s.sessions[r.sessionId].manifestCid != r.manifestCid then Step(s, seen, Err(ManifestCidMismatch))
    else
      var session := s.sessions[r.sessionId];
      var a := Authorize(s, seen, auth, CommitMeta(env, r, session), now);
      if a.reply.Err? then Step(a.store, a.seen, Err(a.reply.error)) else
        var key := env.h(r.idempotencyKey);
        if a.reply.value == Retry && key in a.store.commitReplies
        then Step(a.store, a.seen, Ok(a.store.commitReplies[key]))
        else if !AllPresent(a.store.chunks, session.manifest.chunkRefs) then Step(a.store, a.seen, Err(MissingChunk))
        else CommitStored(env, a.store, a.seen, auth, r, session, now)
  }

  // ---------------------------------------------------------------------- reads

  datatype Selector = ByCid(cid: Text) | ByPath(namespace: Text, path: Text)

  datatype Resolution = Resolution(manifestCid: Text, namespace: Option<Text>, path: Option<Text>)

  datatype Range = Range(start: nat, end: nat)

  datatype GetReply = GetReply(record: ManifestRecord, fragments: seq<Fragment>)

  function ResolveSelector(s: Store, selector: Selector): Result<Resolution> {
    match selector
    case ByCid(cid) => Ok(Resolution(cid, None, None))
    case ByPath(namespace, path) =>
      var where := Canonical(namespace, path);
      if where.Err? then Err(where.error) else
        var bindings := NamespaceOf(s, where.value.0).bindings;
        if where.value.1 !in bindings then Err(PathNotBound) else
          var b := bindings[where.value.1];
          if b.tombstone then Err(PathTombstoned)
          else if b.manifest.None? then Err(PathNotBound)
          else Ok(Resolution(b.manifest.value, Some(namespace), Some(path)))
  }

  predicate SelectorComplete(selector: Selector) {
    match selector
    case ByCid(cid) => cid != []
    case ByPath(namespace, path) => namespace != [] && path != []
  }

  function ReadMeta(env: Env, op: Operation, res: Resolution): Meta {
    Meta(op, env.tenant, res.manifestCid, res.namespace, res.path, None, None, None, None, None, None)
  }

  /** The chunk-stream read of a committed manifest. */
  function ReadRecord(s: Store, record: ManifestRecord, range: Option<Range>): Result<GetReply> {
    var size := record.manifest.logicalSize;
    if range.Some? && range.value.end >= size then Err(InvalidRange)
    else
      var (a, b) := if range.Some? then (range.value.start, range.value.end) else (0, SatSub(size, 1));
      var f := Fragments(s.chunks, record.manifest.chunkRefs, a, b);
      if f.Err? then Err(f.error) else Ok(GetReply(record, f.value))
  }

  function GetStep(
    env: Env, s: Store, seen: Cache, auth: Auth, selector: Selector, range: Option<Range>, now: nat): Step<GetReply>
  {
    if !SelectorComplete(selector) then Step(s, seen, Err(MissingSelector))
    else if range.Some? && range.value.start > range.value.end then Step(s, seen, Err(InvalidRange))
    else
      var res := ResolveSelector(s, selector);
      if res.Err? then Step(s, seen, Err(res.error)) else
        var a := Authorize(s, seen, auth, ReadMeta(env, GetOp, res.value), now);
        if a.reply.Err? then Step(a.store, a.seen, Err(a.reply.error))
        else if res.value.manifestCid !in a.store.manifests then Step(a.store, a.seen, Err(ManifestNotFound))
        else Step(a.store, a.seen, ReadRecord(a.store, a.store.manifests[res.value.manifestCid], range))
  }

  function ResolveMeta(env: Env, name: Text, path: Text): Meta {
    Meta(ResolveOp, env.tenant, name + [COLON] + path, Some(name), Some(path), None, None, None, None, None, None)
  }

  function ResolveStep(
    env: Env, s: Store, seen: Cache, auth: Auth, namespace: Text, path: Text, at: Option<nat>,
    ifRevision: Option<nat>, now: nat): Step<Binding>
  {
    var where := Canonical(namespace, path);
    if where.Err? then Step(s, seen, Err(where.error)) else
      var (name, p) := where.value;
      var a := Authorize(s, seen, auth, ResolveMeta(env, name, p), now);
      if a.reply.Err? then Step(a.store, a.seen, Err(a.reply.error)) else
        var snapshot := SnapshotAt(NamespaceOf(a.store, name), at);
        if p !in snapshot then Step(a.store, a.seen, Err(PathNotBound))
        else if ifRevision.Some? && snapshot[p].revision != ifRevision.value
        then Step(a.store, a.seen, Err(RevisionConflict))
        else Step(a.store, a.seen, Ok(snapshot[p]))
  }

  datatype ListRequest = ListRequest(
    namespace: Text, prefix: Option<Text>, cursor: Option<Text>, limit: Option<nat>, includeTombstones: bool)

  function ListStep(env: Env, s: Store, seen: Cache, auth: Auth, r: ListRequest, now: nat): Step<Listing.Page> {
    var name := CanonicalPath(r.namespace);
    var prefix := if r.prefix.Some? then CanonicalPath(r.prefix.value) else Good([]);
    if name.Bad? then Step(s, seen, Err(InvalidNamespace))
    else if prefix.Bad? then Step(s, seen, Err(InvalidPrefix))
    else
      var wanted := if r.prefix.Some? then Some(prefix.value) else None;
      var meta := Meta(ListOp, env.tenant, Ascii("list:") + name.value, Some(name.value), wanted,
                       None, None, None, None, None, None);
      var a := Authorize(s, seen, auth, meta, now);
      if a.reply.Err? then Step(a.store, a.seen, Err(a.reply.error)) else
        Step(a.store, a.seen,
             Listing.ListPage(Listing.Query(env.tenant, name.value, wanted, r.includeTombstones),
                              NamespaceOf(a.store, name.value), r.cursor, r.limit.GetOr(100)))
  }

  datatype SubscribeRequest = SubscribeRequest(
    filters: seq<Events.Filter>, cursor: Option<Text>, fromNumber: Option<nat>, batchMax: Option<nat>)

  function SubscribeMeta(env: Env, subject: Text, namespace: Option<Text>, path: Option<Text>): Meta {
    Meta(SubscribeOp, env.tenant, subject, namespace, path, None, None, None, None, None, None)
  }

  /** Every filter is authorised on its own, in order. */
  function AuthorizeFilters(
    env: Env, s: Store, seen: Cache, auth: Auth, filters: seq<Events.Filter>, i: nat, now: nat): Step<()>
    requires i <= |filters|
    decreases |filters| - i
  {
    if i == |filters| then Step(s, seen, Ok(())) else
      var f := filters[i];
      var a := Authorize(s, seen, auth,
                         SubscribeMeta(env, Ascii("events:filter:") + Decimal(i), f.namespacePrefix, f.pathExact), now);
      if a.reply.Err? then Step(a.store, a.seen, Err(a.reply.error))
      else AuthorizeFilters(env, a.store, a.seen, auth, filters, i + 1, now)
  }

  predicate ForeignScope(env: Env, filters: seq<Events.Filter>) {
    exists i :: 0 <= i < |filters| && filters[i].tenantScope.Some? && filters[i].tenantScope.value != env.tenant
  }

  /** subscribe_poll: the checks of subscribe_start on the request, then one window from the threaded cursor. */
  function PollStep(
    env: Env, s: Store, seen: Cache, auth: Auth, r: SubscribeRequest, cursor: nat, now: nat): Step<Events.PollResult>
  {
    if ForeignScope(env, r.filters) then Step(s, seen, Err(TenantScopeMismatch)) else
      var a :=
        if r.filters == [] then
          var one := Authorize(s, seen, auth, SubscribeMeta(env, Ascii("events"), None, None), now);
          Step(one.store, one.seen, if one.reply.Err? then Err(one.reply.error) else Ok(()))
        else AuthorizeFilters(env, s, seen, auth, r.filters, 0, now);
      if a.reply.Err? then Step(a.store, a.seen, Err(a.reply.error)) else
        var start := Events.StartAt(a.store.log, env.tenant, r.cursor, r.fromNumber);
        if start.Err? then Step(a.store, a.seen, Err(start.error))
        else Step(a.store, a.seen, Ok(Events.Poll(a.store.log, r.filters, cursor, r.batchMax.GetOr(64))))
  }

  // ----------------------------------------------------------------------- runs

  datatype Request =
    | Init(init: InitRequest)
    | Chunk(chunk: ChunkRequest, bytes: Text)
    | Commit(commit: CommitRequest)
    | DirectBind(bind: BindRequest)
    | DirectUnbind(unbind: UnbindRequest)
    | Get(selector: Selector, range: Option<Range>)
    | Resolve(namespace: Text, path: Text, at: Option<nat>, ifRevision: Option<nat>)
    | List(list: ListRequest)
    | Subscribe(subscribe: SubscribeRequest, cursor: nat)

  /** What a request leaves behind: the store and the instance's replay cache. */
  function Effect(env: Env, s: Store, seen: Cache, auth: Auth, now: nat, q: Request): (Store, Cache) {
    match q
    case Init(r) => var t := InitStep(env, s, seen, auth, r, now); (t.store, t.seen)
    case Chunk(r, bytes) => var t := ChunkStep(env, s, seen, auth, r, bytes, now); (t.store, t.seen)
    case Commit(r) => var t := CommitStep(env, s, seen, auth, r, now); (t.store, t.seen)
    case DirectBind(r) => var t := BindStep(env, s, seen, auth, r, now, true); (t.store, t.seen)
    case DirectUnbind(r) => var t := UnbindStep(env, s, seen, auth, r, now); (t.store, t.seen)
    case Get(selector, range) => var t := GetStep(env, s, seen, auth, selector, range, now); (t.store, t.seen)
    case Resolve(n, p, at, rev) => var t := ResolveStep(env, s, seen, auth, n, p, at, rev, now); (t.store, t.seen)
    case List(r) => var t := ListStep(env, s, seen, auth, r, now); (t.store, t.seen)
    case Subscribe(r, cursor) => var t := PollStep(env, s, seen, auth, r, cursor, now); (t.store, t.seen)
  }

  /** A request to one of the instances, or the restart of one. */
  datatype Call = Call(instance: nat, auth: Auth, now: nat, request: Request) | Restarted(instance: nat)

  /** One store shared by any number of service instances, each with its own cache. */
  datatype Deployment = Deployment(store: Store, caches: map<nat, Cache>) {
    function CacheOf(i: nat): Cache { if i in caches then caches[i] else map[] }
  }

  function After(env: Env, d: Deployment, c: Call): Deployment {
    match c
    case Restarted(i) => d.(caches := d.caches[i := map[]])
    case Call(i, auth, now, q) =>
      var (s, seen) := Effect(env, d.store, d.CacheOf(i), auth, now, q);
      Deployment(s, d.caches[i := seen])
  }

  /** The deployment in which the n-th call of a run happens. */
  function DeploymentAt(env: Env, d: Deployment, run: seq<Call>, n: nat): Deployment
    requires n <= |run|
  {
    if n == 0 then d else After(env, DeploymentAt(env, d, run, n - 1), run[n - 1])
  }
}
