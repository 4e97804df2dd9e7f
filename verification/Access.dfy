/**
 Who may do what: when a request is authorised, said condition by condition, and
 that nothing is answered or changed otherwise.
 */
module Access {
  import opened Basics
  import opened Paths
  import opened Records
  import opened Namespaces
  import opened Policy
  import opened Service
  import opened ServiceInvariants
  import opened ServiceTheorems
  import Events
  import Listing

  // ------------------------------------------------------------------- the conditions

  /** What each scope of a token stands for. */
  function Grants(scope: Scope): set<Operation> {
    match scope
    case ReadScope => {InfoOp, HeadOp, GetOp, ResolveOp, ListOp, SubscribeOp}
    case WriteScope => {BindOp, UnbindOp, PutInitOp, PutChunkOp, PutCommitOp}
    case BindScope => {BindOp, UnbindOp}
    case UnbindScope => {UnbindOp}
    case ListScope => {ListOp}
    case SubscribeScope => {SubscribeOp}
    case _ => {}
  }

  predicate Holds(c: Claims, op: Operation) {
    exists i :: 0 <= i < |c.ops| && op in Grants(c.ops[i])
  }

  predicate InForce(c: Claims, now: nat) {
    now <= c.expiresAt && (c.notBefore.Some? ==> c.notBefore.value <= now)
  }

  /** A token restricted to a prefix covers only names that canonicalise to something under it. */
  predicate Covers(prefix: Option<Text>, name: Option<Text>) {
    prefix.Some? ==>
      && name.Some? && CanonicalPath(prefix.value).Good? && CanonicalPath(name.value).Good?
      && Under(CanonicalPath(prefix.value).value, CanonicalPath(name.value).value)
  }

  predicate Allowed(auth: Auth, meta: Meta, now: nat) {
    var c, op := auth.claims, meta.operation;
    && InForce(c, now) && c.tenant == meta.tenant && Holds(c, op)
    && (op in {BindOp, UnbindOp, PutInitOp, PutChunkOp, PutCommitOp} ==> auth.channelBound && c.jti.Some?)
    && (op in {PutInitOp, PutChunkOp, PutCommitOp} ==> meta.keyPolicyId.Some? && meta.profileId.Some?)
    && (c.keyPolicyId.Some? && meta.keyPolicyId.Some? ==> c.keyPolicyId == meta.keyPolicyId)
    && (c.visibility.Some? && meta.visibility.Some? ==> c.visibility == meta.visibility)
    && Covers(c.pathPrefix, meta.path) && Covers(c.namespacePrefix, meta.namespace)
    && (c.maxObjectSize.Some? && meta.contentSize.Some? ==> meta.contentSize.value <= c.maxObjectSize.value)
    && (c.storageClasses != [] && meta.storageClass.Some? ==> meta.storageClass.value in c.storageClasses)
  }

  lemma GrantsIsScope(scope: Scope, op: Operation)
    ensures ScopeAllows(scope, op) <==> op in Grants(scope)
  {
  }

  lemma HoldsIff(c: Claims, op: Operation)
    ensures Holds(c, op) <==> exists i :: 0 <= i < |c.ops| && ScopeAllows(c.ops[i], op)
  {
    forall i | 0 <= i < |c.ops| ensures ScopeAllows(c.ops[i], op) <==> op in Grants(c.ops[i]) {
      GrantsIsScope(c.ops[i], op);
    }
  }

  lemma CoversIff(prefix: Option<Text>, name: Option<Text>)
    ensures Covers(prefix, name) <==>
            !(prefix.Some? && (name.None? || !SegmentPrefixMatches(prefix.value, name.value)))
  {
    hide CanonicalPath, SegmentPrefixMatches, Under;
    if prefix.Some? && name.Some? { SegmentPrefixMatchesExactly(prefix.value, name.value); }
  }

  /** The policy raises no objection exactly when every condition is met. */
  lemma PolicyAllowsIff(auth: Auth, meta: Meta, now: nat)
    ensures PolicyDenial(auth, meta, now) == None <==> Allowed(auth, meta, now)
  {
    hide SegmentPrefixMatches, ScopeAllows, Covers, Holds;
    HoldsIff(auth.claims, meta.operation);
    CoversIff(auth.claims.pathPrefix, meta.path);
    CoversIff(auth.claims.namespacePrefix, meta.namespace);
  }

  /** And what it objects to is a condition that fails. */
  lemma DenialNames(auth: Auth, meta: Meta, now: nat)
    requires PolicyDenial(auth, meta, now).Some?
    ensures var c := auth.claims;
            match PolicyDenial(auth, meta, now).value {
              case ExpiredToken => c.expiresAt < now
              case NotYetValid => c.notBefore.Some? && now < c.notBefore.value
              case WrongTenant => c.tenant != meta.tenant
              case ScopeNotGranted => !Holds(c, meta.operation)
              case MissingChannelBinding => !auth.channelBound
              case MissingKeyPolicyId => meta.keyPolicyId == None
              case MissingEncryptionProfileId => meta.profileId == None
              case MissingJti => c.jti == None
              case KeyPolicyMismatch => c.keyPolicyId != meta.keyPolicyId
              case VisibilityMismatch => c.visibility != meta.visibility
              case PathScopeMismatch => !Covers(c.pathPrefix, meta.path)
              case NamespaceScopeMismatch => !Covers(c.namespacePrefix, meta.namespace)
              case TooLarge =>
                c.maxObjectSize.Some? && meta.contentSize.Some? && c.maxObjectSize.value < meta.contentSize.value
              case StorageClassMismatch => meta.storageClass.Some? && meta.storageClass.value !in c.storageClasses
              case ReplayDetected => false
            }
  {
    hide SegmentPrefixMatches, ScopeAllows, Covers, Holds;
    HoldsIff(auth.claims, meta.operation);
    CoversIff(auth.claims.pathPrefix, meta.path);
    CoversIff(auth.claims.namespacePrefix, meta.namespace);
  }

  /** The token's record for this mutation: none yet, or the same idempotency key in store and cache. */
  predicate Unreplayed(replay: Cache, seen: Cache, auth: Auth, meta: Meta)
    requires auth.claims.jti.Some?
  {
    var key := ReplayKey(meta.tenant, auth.claims.jti.value, meta.operation, meta.subject);
    key in replay ==>
      meta.idempotencyKey == Some(replay[key]) && (key in seen ==> seen[key] == replay[key])
  }

  /** A request is authorised exactly when it is allowed and, for a mutation, not a replay. */
  lemma AuthorizedIff(s: Store, seen: Cache, auth: Auth, meta: Meta, now: nat)
    requires Backed(s.replay, seen)
    ensures Authorize(s, seen, auth, meta, now).reply.Ok? <==>
            && Allowed(auth, meta, now)
            && (meta.operation in {BindOp, UnbindOp, PutInitOp, PutChunkOp, PutCommitOp} ==>
                  Unreplayed(s.replay, seen, auth, meta))
  {
    hide PolicyDenial, Allowed, ReplayKey, DenialLogged, Authorize;
    PolicyAllowsIff(auth, meta, now);
    AllowedParts(auth, meta, now);
    if IsMutation(meta.operation) {
      AuthorizeIff(s, seen, auth, meta, now);
    } else {
      ReadAuthorized(s, seen, auth, meta, now);
    }
  }

  lemma AllowedParts(auth: Auth, meta: Meta, now: nat)
    ensures Allowed(auth, meta, now) && IsMutation(meta.operation) ==> auth.claims.jti.Some?
  {
    hide Covers, Holds;
  }

  lemma ReadAuthorized(s: Store, seen: Cache, auth: Auth, meta: Meta, now: nat)
    requires !IsMutation(meta.operation)
    ensures Authorize(s, seen, auth, meta, now).reply.Ok? <==> PolicyDenial(auth, meta, now) == None
  {
    hide PolicyDenial, ReplayKey, DenialLogged;
  }

  /** A refusal is logged as exactly one event that names what was asked for; a grant is not logged. */
  lemma RefusalIsLogged(s: Store, seen: Cache, auth: Auth, meta: Meta, now: nat)
    ensures var a := Authorize(s, seen, auth, meta, now);
            && (a.reply.Ok? ==> a.store.log == s.log)
            && (a.reply.Err? ==>
                  && a.reply.error.Denied? && a.store.log.next == s.log.next + 1
                  && a.store.log.records ==
                     s.log.records[s.log.next := Events.EventRecord(s.log.next, now, Events.AuthDenied, meta.namespace,
                                                                    meta.path, None, None, map[])])
  {
    hide PolicyDenial, ReplayKey, DurableVerdict, DurableAfter, CacheAfter, DenialLogged;
    DenialEntry(s, meta, now);
    if auth.claims.jti.Some? {
      var key := ReplayKey(meta.tenant, auth.claims.jti.value, meta.operation, meta.subject);
      DenialEntry(s.(replay := DurableAfter(seen, s.replay, key, meta.idempotencyKey)), meta, now);
    }
  }

  lemma DenialEntry(s: Store, meta: Meta, now: nat)
    ensures DenialLogged(s, meta, now).log ==
            Events.Log(s.log.records[s.log.next := Events.EventRecord(s.log.next, now, Events.AuthDenied, meta.namespace,
                                                                      meta.path, None, None, map[])], s.log.next + 1)
  {
  }

  // ----------------------------------------------------------------- request by request

  function OperationOf(q: Request): Operation {
    match q
    case Init(_) => PutInitOp
    case Chunk(_, _) => PutChunkOp
    case Commit(_) => PutCommitOp
    case DirectBind(_) => BindOp
    case DirectUnbind(_) => UnbindOp
    case Get(_, _) => GetOp
    case Resolve(_, _, _, _) => ResolveOp
    case List(_) => ListOp
    case Subscribe(_, _) => SubscribeOp
  }

  /** The token is in force, of this tenant, and holds the operation; mutations need a bound channel and an id. */
  predicate MayCall(env: Env, auth: Auth, now: nat, q: Request) {
    && InForce(auth.claims, now) && auth.claims.tenant == env.tenant && Holds(auth.claims, OperationOf(q))
    && (q.Init? || q.Chunk? || q.Commit? || q.DirectBind? || q.DirectUnbind? ==>
          auth.channelBound && auth.claims.jti.Some?)
  }

  predicate CoversBoth(c: Claims, namespace: Option<Text>, path: Option<Text>) {
    Covers(c.namespacePrefix, namespace) && Covers(c.pathPrefix, path)
  }

  predicate CoversPlace(c: Claims, namespace: Text, path: Text) {
    var where := Canonical(namespace, path);
    where.Ok? && CoversBoth(c, Some(where.value.0), Some(where.value.1))
  }

  predicate CoversBind(c: Claims, b: Option<AtomicBind>) {
    if b.Some? then CoversBoth(c, Some(b.value.namespace), Some(b.value.path)) else CoversBoth(c, None, None)
  }

  predicate SizeAndClass(c: Claims, size: nat, class_: Text) {
    && (c.maxObjectSize.Some? ==> size <= c.maxObjectSize.value)
    && (c.storageClasses != [] ==> class_ in c.storageClasses)
  }

  /** What the token's restrictions say about the request's own names and sizes. */
  predicate InScope(env: Env, s: Store, c: Claims, q: Request) {
    match q
    case Init(r) => CoversBind(c, r.atomicBind) && SizeAndClass(c, r.manifest.storedSize, r.storageClass)
    case Chunk(r, bytes) =>
      && c.namespacePrefix.None? && c.pathPrefix.None?
      && r.sessionId in s.sessions && SizeAndClass(c, |bytes|, s.sessions[r.sessionId].storageClass)
    case Commit(r) =>
      && r.sessionId in s.sessions
      && var session := s.sessions[r.sessionId];
      CoversBind(c, session.atomicBind) && SizeAndClass(c, session.manifest.storedSize, session.storageClass)
    case DirectBind(r) => CoversPlace(c, r.namespace, r.path)
    case DirectUnbind(r) => CoversPlace(c, r.namespace, r.path) && (r.hardDelete ==> AdminRepair in c.ops)
    case Get(selector, _) =>
      if selector.ByCid? then CoversBoth(c, None, None) else CoversBoth(c, Some(selector.namespace), Some(selector.path))
    case Resolve(n, p, _, _) => CoversPlace(c, n, p)
    case List(r) =>
      && CanonicalPath(r.namespace).Good? && (r.prefix.Some? ==> CanonicalPath(r.prefix.value).Good?)
      && CoversBoth(c, Some(CanonicalPath(r.namespace).value),
                    if r.prefix.Some? then Some(CanonicalPath(r.prefix.value).value) else None)
    case Subscribe(r, _) =>
      if r.filters == [] then CoversBoth(c, None, None)
      else forall i :: 0 <= i < |r.filters| ==>
             && CoversBoth(c, r.filters[i].namespacePrefix, r.filters[i].pathExact)
             && (r.filters[i].tenantScope.Some? ==> r.filters[i].tenantScope.value == env.tenant)
  }

  predicate Entitled(env: Env, s: Store, auth: Auth, now: nat, q: Request) {
    MayCall(env, auth, now, q) && InScope(env, s, auth.claims, q)
  }

  /** The request is answered, not refused. */
  predicate Answered(env: Env, s: Store, seen: Cache, auth: Auth, now: nat, q: Request) {
    match q
    case Init(r) => InitStep(env, s, seen, auth, r, now).reply.Ok?
    case Chunk(r, bytes) => ChunkStep(env, s, seen, auth, r, bytes, now).reply.Ok?
    case Commit(r) => CommitStep(env, s, seen, auth, r, now).reply.Ok?
    case DirectBind(r) => BindStep(env, s, seen, auth, r, now, true).reply.Ok?
    case DirectUnbind(r) => UnbindStep(env, s, seen, auth, r, now).reply.Ok?
    case Get(selector, range) => GetStep(env, s, seen, auth, selector, range, now).reply.Ok?
    case Resolve(n, p, at, rev) => ResolveStep(env, s, seen, auth, n, p, at, rev, now).reply.Ok?
    case List(r) => ListStep(env, s, seen, auth, r, now).reply.Ok?
    case Subscribe(r, cursor) => PollStep(env, s, seen, auth, r, cursor, now).reply.Ok?
  }

  lemma GrantMeans(s: Store, seen: Cache, auth: Auth, meta: Meta, now: nat)
    requires Authorize(s, seen, auth, meta, now).reply.Ok?
    ensures Allowed(auth, meta, now)
  {
    hide PolicyDenial, Allowed, ReplayKey, DenialLogged;
    PolicyAllowsIff(auth, meta, now);
  }

  /** A refused request: an error, and nothing but the log and the replay records may have changed. */
  ghost predicate Refused(s: Store, s': Store, ok: bool) { !ok && Quiet(s, s') }

  lemma InitGate(env: Env, s: Store, seen: Cache, auth: Auth, r: InitRequest, now: nat)
    ensures var t := InitStep(env, s, seen, auth, r, now);
            Entitled(env, s, auth, now, Init(r)) || Refused(s, t.store, t.reply.Ok?)
  {
    hide Authorize, InitInvalid, ManifestCid, SessionId, Missing, SmallManifest, Quiet, Covers, Holds, InForce;
    QuietReflexive(s);
    AuthorizeQuiet(s, seen, auth, InitMeta(env, r), now);
    if Authorize(s, seen, auth, InitMeta(env, r), now).reply.Ok? { GrantMeans(s, seen, auth, InitMeta(env, r), now); }
  }

  lemma ChunkGate(env: Env, s: Store, seen: Cache, auth: Auth, r: ChunkRequest, bytes: Text, now: nat)
    ensures var t := ChunkStep(env, s, seen, auth, r, bytes, now);
            Entitled(env, s, auth, now, Chunk(r, bytes)) || Refused(s, t.store, t.reply.Ok?)
  {
    hide Authorize, ChunkInvalid, SmallManifest, Quiet, Holds, InForce, Decimal, CanonicalPath, Under;
    QuietReflexive(s);
    if ChunkInvalid(s, env.h, r, bytes).None? {
      ChunkSession(s, env.h, r, bytes);
      var meta := ChunkMeta(env, r, s.sessions[r.sessionId], |bytes|);
      AuthorizeQuiet(s, seen, auth, meta, now);
      if Authorize(s, seen, auth, meta, now).reply.Ok? { GrantMeans(s, seen, auth, meta, now); }
    }
  }

  lemma CommitGate(env: Env, s: Store, seen: Cache, auth: Auth, r: CommitRequest, now: nat)
    ensures var t := CommitStep(env, s, seen, auth, r, now);
            Entitled(env, s, auth, now, Commit(r)) || Refused(s, t.store, t.reply.Ok?)
  {
    hide Authorize, CommitStored, AllPresent, SmallManifest, Quiet, Holds, InForce, Covers;
    QuietReflexive(s);
    if r.sessionId in s.sessions && s.sessions[r.sessionId].manifestCid == r.manifestCid {
      var meta := CommitMeta(env, r, s.sessions[r.sessionId]);
      AuthorizeQuiet(s, seen, auth, meta, now);
      if Authorize(s, seen, auth, meta, now).reply.Ok? { GrantMeans(s, seen, auth, meta, now); }
    }
  }

  lemma BindGate(env: Env, s: Store, seen: Cache, auth: Auth, r: BindRequest, now: nat, direct: bool)
    ensures var t := BindStep(env, s, seen, auth, r, now, direct);
            Entitled(env, s, auth, now, DirectBind(r)) || Refused(s, t.store, t.reply.Ok?)
  {
    hide Authorize, Canonical, VerifyBind, BindAuthorized, Quiet, Holds, InForce, Covers;
    QuietReflexive(s);
    var where := Canonical(r.namespace, r.path);
    if where.Ok? {
      var meta := MutationMeta(env, BindOp, where.value.0, where.value.1, r.idempotencyKey);
      AuthorizeQuiet(s, seen, auth, meta, now);
      if Authorize(s, seen, auth, meta, now).reply.Ok? { GrantMeans(s, seen, auth, meta, now); }
    }
  }

  lemma UnbindGate(env: Env, s: Store, seen: Cache, auth: Auth, r: UnbindRequest, now: nat)
    ensures var t := UnbindStep(env, s, seen, auth, r, now);
            Entitled(env, s, auth, now, DirectUnbind(r)) || Refused(s, t.store, t.reply.Ok?)
  {
    hide Authorize, Canonical, VerifyUnbind, UnbindAuthorized, Quiet, Holds, InForce, Covers;
    QuietReflexive(s);
    var where := Canonical(r.namespace, r.path);
    if where.Ok? {
      var meta := MutationMeta(env, UnbindOp, where.value.0, where.value.1, r.idempotencyKey);
      AuthorizeQuiet(s, seen, auth, meta, now);
      if Authorize(s, seen, auth, meta, now).reply.Ok? { GrantMeans(s, seen, auth, meta, now); }
    }
  }

  lemma GetGate(env: Env, s: Store, seen: Cache, auth: Auth, selector: Selector, range: Option<Range>, now: nat)
    ensures var t := GetStep(env, s, seen, auth, selector, range, now);
            && Quiet(s, t.store)
            && (t.reply.Ok? ==> Entitled(env, s, auth, now, Get(selector, range)))
  {
    hide Authorize, ReadRecord, Canonical, SelectorComplete, Quiet, Holds, InForce, Covers, NamespaceOf;
    QuietReflexive(s);
    var res := ResolveSelector(s, selector);
    if res.Ok? {
      var meta := ReadMeta(env, GetOp, res.value);
      AuthorizeQuiet(s, seen, auth, meta, now);
      if Authorize(s, seen, auth, meta, now).reply.Ok? { GrantMeans(s, seen, auth, meta, now); }
    }
  }

  lemma ResolveGate(
    env: Env, s: Store, seen: Cache, auth: Auth, n: Text, p: Text, at: Option<nat>, rev: Option<nat>, now: nat)
    ensures var t := ResolveStep(env, s, seen, auth, n, p, at, rev, now);
            && Quiet(s, t.store)
            && (t.reply.Ok? ==> Entitled(env, s, auth, now, Resolve(n, p, at, rev)))
  {
    hide Authorize, Canonical, SnapshotAt, NamespaceOf, Quiet, Holds, InForce, Covers;
    QuietReflexive(s);
    var where := Canonical(n, p);
    if where.Ok? {
      var meta := ResolveMeta(env, where.value.0, where.value.1);
      AuthorizeQuiet(s, seen, auth, meta, now);
      if Authorize(s, seen, auth, meta, now).reply.Ok? { GrantMeans(s, seen, auth, meta, now); }
    }
  }

  lemma ListGate(env: Env, s: Store, seen: Cache, auth: Auth, r: ListRequest, now: nat)
    ensures var t := ListStep(env, s, seen, auth, r, now);
            Quiet(s, t.store) && (t.reply.Ok? ==> Entitled(env, s, auth, now, List(r)))
  {
    hide Authorize, CanonicalPath, Listing.ListPage, Ascii, NamespaceOf, Quiet, Holds, InForce, Covers;
    QuietReflexive(s);
    var name, prefix := CanonicalPath(r.namespace), if r.prefix.Some? then CanonicalPath(r.prefix.value) else Good([]);
    if name.Good? && prefix.Good? {
      var wanted := if r.prefix.Some? then Some(prefix.value) else None;
      var meta := Meta(ListOp, env.tenant, Ascii("list:") + name.value, Some(name.value), wanted,
                       None, None, None, None, None, None);
      AuthorizeQuiet(s, seen, auth, meta, now);
      if Authorize(s, seen, auth, meta, now).reply.Ok? { GrantMeans(s, seen, auth, meta, now); }
    }
  }

  lemma {:induction false} FiltersGate(
    env: Env, s: Store, seen: Cache, auth: Auth, filters: seq<Events.Filter>, i: nat, now: nat)
    requires i <= |filters|
    ensures var t := AuthorizeFilters(env, s, seen, auth, filters, i, now);
            && Quiet(s, t.store)
            && (t.reply.Ok? ==>
                  forall k :: i <= k < |filters| ==>
                    && InForce(auth.claims, now) && auth.claims.tenant == env.tenant && Holds(auth.claims, SubscribeOp)
                    && CoversBoth(auth.claims, filters[k].namespacePrefix, filters[k].pathExact))
    decreases |filters| - i
  {
    hide Authorize, Ascii, Decimal, Quiet, Holds, InForce, Covers;
    QuietReflexive(s);
    if i < |filters| {
      var f := filters[i];
      var meta := SubscribeMeta(env, Ascii("events:filter:") + Decimal(i), f.namespacePrefix, f.pathExact);
      AuthorizeQuiet(s, seen, auth, meta, now);
      var a := Authorize(s, seen, auth, meta, now);
      if a.reply.Ok? {
        GrantMeans(s, seen, auth, meta, now);
        FiltersGate(env, a.store, a.seen, auth, filters, i + 1, now);
        QuietThen(s, a.store, AuthorizeFilters(env, a.store, a.seen, auth, filters, i + 1, now).store);
      }
    }
  }

  lemma QuietThen(a: Store, b: Store, c: Store)
    requires Quiet(a, b) && Quiet(b, c)
    ensures Quiet(a, c)
  {
  }

  lemma PollGate(env: Env, s: Store, seen: Cache, auth: Auth, r: SubscribeRequest, cursor: nat, now: nat)
    ensures var t := PollStep(env, s, seen, auth, r, cursor, now);
            Quiet(s, t.store) && (t.reply.Ok? ==> Entitled(env, s, auth, now, Subscribe(r, cursor)))
  {
    hide Authorize, AuthorizeFilters, Events.Poll, Events.StartAt, Ascii, Quiet, Holds, InForce, Covers;
    QuietReflexive(s);
    if r.filters == [] {
      var meta := SubscribeMeta(env, Ascii("events"), None, None);
      AuthorizeQuiet(s, seen, auth, meta, now);
      if Authorize(s, seen, auth, meta, now).reply.Ok? { GrantMeans(s, seen, auth, meta, now); }
    } else {
      FiltersGate(env, s, seen, auth, r.filters, 0, now);
      if AuthorizeFilters(env, s, seen, auth, r.filters, 0, now).reply.Ok? && !ForeignScope(env, r.filters) {
        var c := auth.claims;
        assert CoversBoth(c, r.filters[0].namespacePrefix, r.filters[0].pathExact);
        forall i | 0 <= i < |r.filters|
          ensures r.filters[i].tenantScope.Some? ==> r.filters[i].tenantScope.value == env.tenant
        {
        }
      }
    }
  }

  // ------------------------------------------------------------------------ main results

  /** A request that is answered was entitled; one that is not entitled is refused and changes nothing. */
  lemma OnlyTheEntitled(env: Env, s: Store, seen: Cache, auth: Auth, now: nat, q: Request)
    ensures Answered(env, s, seen, auth, now, q) ==> Entitled(env, s, auth, now, q)
    ensures !Entitled(env, s, auth, now, q) ==> Quiet(s, Effect(env, s, seen, auth, now, q).0)
  {
    hide Entitled, Quiet, InitStep, ChunkStep, CommitStep, BindStep, UnbindStep, GetStep, ResolveStep, ListStep, PollStep;
    match q
    case Init(r) => InitGate(env, s, seen, auth, r, now);
    case Chunk(r, bytes) => ChunkGate(env, s, seen, auth, r, bytes, now);
    case Commit(r) => CommitGate(env, s, seen, auth, r, now);
    case DirectBind(r) => BindGate(env, s, seen, auth, r, now, true);
    case DirectUnbind(r) => UnbindGate(env, s, seen, auth, r, now);
    case Get(selector, range) => GetGate(env, s, seen, auth, selector, range, now);
    case Resolve(n, p, at, rev) => ResolveGate(env, s, seen, auth, n, p, at, rev, now);
    case List(r) => ListGate(env, s, seen, auth, r, now);
    case Subscribe(r, cursor) => PollGate(env, s, seen, auth, r, cursor, now);
  }

  /**
   Over every run: a call whose token has expired, is not yet valid, belongs to
   another tenant, lacks the scope or names something outside its prefixes gets
   no answer and changes no chunk, manifest, session, binding or reply record.
   */
  lemma RunOnlyTheEntitled(env: Env, d: Deployment, run: seq<Call>, n: nat)
    requires n < |run| && run[n].Call?
    requires !Entitled(env, DeploymentAt(env, d, run, n).store, run[n].auth, run[n].now, run[n].request)
    ensures var s, s' := DeploymentAt(env, d, run, n).store, DeploymentAt(env, d, run, n + 1).store;
            && !Answered(env, s, DeploymentAt(env, d, run, n).CacheOf(run[n].instance), run[n].auth, run[n].now,
                         run[n].request)
            && s'.chunks == s.chunks && s'.manifests == s.manifests && s'.sessions == s.sessions
            && s'.namespaces == s.namespaces && s'.bindReplies == s.bindReplies
  {
    hide Entitled, Answered, Effect, DeploymentAt, Quiet;
    DeploymentSteps(env, d, run, n + 1);
    var before := DeploymentAt(env, d, run, n);
    OnlyTheEntitled(env, before.store, before.CacheOf(run[n].instance), run[n].auth, run[n].now, run[n].request);
    QuietParts(before.store, DeploymentAt(env, d, run, n + 1).store);
  }

  /** The bind inside a commit needs the right to bind, at its own place. */
  lemma CommitBindsOnlyIfEntitled(env: Env, s: Store, seen: Cache, auth: Auth, r: CommitRequest, now: nat)
    requires CommitStep(env, s, seen, auth, r, now).store.namespaces != s.namespaces
    ensures r.sessionId in s.sessions && s.sessions[r.sessionId].atomicBind.Some?
    ensures var b := s.sessions[r.sessionId].atomicBind.value;
            Holds(auth.claims, BindOp) && CoversPlace(auth.claims, b.namespace, b.path)
  {
    hide Authorize, CommitStep, CommitStored, CommitMeta, AllPresent, SmallManifest, Quiet, Holds, InForce, CoversPlace,
      Permitted, VerdictFor, BindAccepted, BindFails;
    if CommitStores(env, s, seen, auth, r, now) {
      CommitStepStores(env, s, seen, auth, r, now);
      var session := s.sessions[r.sessionId];
      var a := Authorize(s, seen, auth, CommitMeta(env, r, session), now);
      AuthorizeQuiet(s, seen, auth, CommitMeta(env, r, session), now);
      QuietParts(s, a.store);
      InnerBindGate(env, a.store, a.seen, auth, r, session, now);
    } else {
      CommitStepStoresNothing(env, s, seen, auth, r, now);
      QuietParts(s, CommitStep(env, s, seen, auth, r, now).store);
    }
  }

  lemma InnerBindGate(env: Env, s: Store, seen: Cache, auth: Auth, r: CommitRequest, session: Session, now: nat)
    requires CommitStored(env, s, seen, auth, r, session, now).store.namespaces != s.namespaces
    ensures session.atomicBind.Some?
    ensures var b := session.atomicBind.value; Holds(auth.claims, BindOp) && CoversPlace(auth.claims, b.namespace, b.path)
  {
    hide BindStep, CommitFinished, SmallManifest, Quiet, Holds, InForce, CoversPlace;
    var cid := session.manifestCid;
    var stored := s.(manifests := s.manifests[cid := ManifestRecord(session.manifest, cid, cid, session.storageClass, now)]);
    CommitFinishedParts(env, stored, r, session, now);
    if session.atomicBind.Some? {
      var request := CommitBind(session.atomicBind.value, r, cid);
      BindGate(env, stored, seen, auth, request, now, false);
      var b := BindStep(env, stored, seen, auth, request, now, false);
      CommitFinishedParts(env, b.store, r, session, now);
      if Quiet(stored, b.store) { QuietParts(stored, b.store); }
    }
  }
}
