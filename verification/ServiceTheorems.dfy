/**
 What the invariants give over whole runs of the service, with any number of
 instances and restarts.
 */
module ServiceTheorems {
  import opened Basics
  import opened Paths
  import opened Records
  import opened Namespaces
  import opened Policy
  import opened Service
  import opened ServiceInvariants
  import Events
  import Listing

  // ------------------------------------------------------- history of namespaces

  lemma NamespaceExtends(s: Store, s': Store, name: Text)
    requires Evolves(s, s')
    ensures Extends(NamespaceOf(s, name), NamespaceOf(s', name))
  {
    hide Within, Events.Grown;
  }

  /**
   In every state of every run the journal replays to the current bindings, and
   what an earlier revision reads never changes afterwards.
   */
  lemma RunHistory(env: Env, d: Deployment, run: seq<Call>, m: nat, n: nat, name: Text, revision: nat)
    requires Sound(env, d) && m <= n <= |run|
    requires revision <= NamespaceOf(DeploymentAt(env, d, run, m).store, name).revision
    ensures var earlier := NamespaceOf(DeploymentAt(env, d, run, m).store, name);
            var later := NamespaceOf(DeploymentAt(env, d, run, n).store, name);
            && SnapshotAt(earlier, Some(earlier.revision)) == earlier.bindings
            && SnapshotAt(later, Some(revision)) == SnapshotAt(earlier, Some(revision))
  {
    RunKeeps(env, d, run, 0, m);
    RunKeeps(env, d, run, m, n);
    var s, s' := DeploymentAt(env, d, run, m).store, DeploymentAt(env, d, run, n).store;
    hide DeploymentAt, StoreInv, Evolves, Inv, Extends, SnapshotAt;
    NamespaceOfInv(env, s, name);
    NamespaceOfInv(env, s', name);
    NamespaceExtends(s, s', name);
    CurrentIsReplay(name, NamespaceOf(s, name));
    HistoryImmutable(name, NamespaceOf(s, name), NamespaceOf(s', name), revision);
  }

  /** Of all mutations of a path over a run, at most one with a given non-zero if_revision is ever applied. */
  lemma RunRevisionUsedOnce(env: Env, d: Deployment, run: seq<Call>, n: nat, name: Text, i: nat, j: nat)
    requires Sound(env, d) && n <= |run|
    requires var journal := NamespaceOf(DeploymentAt(env, d, run, n).store, name).journal;
             && i < j < |journal| && journal[i].record.path == journal[j].record.path
             && journal[i].record.ifRevision.Some? && journal[i].record.ifRevision.value != 0
    ensures var journal := NamespaceOf(DeploymentAt(env, d, run, n).store, name).journal;
            journal[i].record.ifRevision != journal[j].record.ifRevision && journal[i].revision < journal[j].revision
  {
    RunKeeps(env, d, run, 0, n);
    var s := DeploymentAt(env, d, run, n).store;
    NamespaceOfInv(env, s, name);
    RevisionUsedOnce(name, NamespaceOf(s, name), i, j);
    hide DeploymentAt, StoreInv;
  }

  /** Paging through the states of a run. */
  lemma PagingOverStates(env: Env, d: Deployment, run: seq<Call>, calls: seq<nat>, q: Listing.Query, limits: seq<nat>)
    requires Sound(env, d) && |calls| == |limits| >= 1
    requires forall i :: 0 <= i < |calls| ==> calls[0] <= calls[i] <= |run| && limits[i] >= 1
    requires q.tenant != []
    requires var first := NamespaceOf(DeploymentAt(env, d, run, calls[0]).store, q.namespace);
             Listing.Fits(q, first.revision, Listing.Items(q, first.bindings))
    ensures var states := seq(|calls|, i requires 0 <= i < |calls| =>
                            NamespaceOf(DeploymentAt(env, d, run, calls[i]).store, q.namespace));
            var all := Listing.Items(q, states[0].bindings);
            var w := Listing.Follow(q, states, limits, None);
            && Listing.OrderedByPath(all)
            && w.items <= all
            && (w.done <==> w.items == all)
            && |w.items| >= Min(|calls|, |all|)
  {
    hide Listing.Items, Listing.Follow, Listing.OrderedByPath, Inv, Extends, Evolves, StoreInv, DeploymentAt, Listing.Fits;
    var states := seq(|calls|, i requires 0 <= i < |calls| =>
                    NamespaceOf(DeploymentAt(env, d, run, calls[i]).store, q.namespace));
    forall i | 0 <= i < |states| ensures Inv(q.namespace, states[i]) && Extends(states[0], states[i]) {
      RunKeeps(env, d, run, calls[0], calls[i]);
      NamespaceOfInv(env, DeploymentAt(env, d, run, calls[i]).store, q.namespace);
      NamespaceExtends(DeploymentAt(env, d, run, calls[0]).store, DeploymentAt(env, d, run, calls[i]).store, q.namespace);
    }
    Listing.PagingExact(q, states, limits);
  }

  /** Subscribing to the logs of a run. */
  lemma DeliveryOverStates(
    env: Env, d: Deployment, run: seq<Call>, calls: seq<nat>, last: nat, filters: seq<Events.Filter>, batches: seq<nat>,
    cursor: nat)
    requires Sound(env, d) && |calls| == |batches| && last <= |run|
    requires forall i :: 0 <= i < |calls| ==> calls[i] <= last
    ensures var logs := seq(|calls|, i requires 0 <= i < |calls| => DeploymentAt(env, d, run, calls[i]).store.log);
            var r := Events.Session(logs, filters, batches, cursor);
            && r.cursor >= cursor
            && r.delivered == Events.Matching(DeploymentAt(env, d, run, last).store.log, filters, cursor, r.cursor)
  {
    hide Events.Session, Events.Matching, Events.LogInv, Events.Grown, DeploymentAt, Within, JournalsGrow, NamespacesOk,
      ManifestsOk, SessionsOk, ChunksOk;
    var logs := seq(|calls|, i requires 0 <= i < |calls| => DeploymentAt(env, d, run, calls[i]).store.log);
    RunKeeps(env, d, run, 0, last);
    forall i | 0 <= i < |logs|
      ensures Events.LogInv(logs[i]) && Events.Grown(logs[i], DeploymentAt(env, d, run, last).store.log)
    {
      RunKeeps(env, d, run, 0, calls[i]);
      RunKeeps(env, d, run, calls[i], last);
    }
    Events.DeliveredExactly(logs, DeploymentAt(env, d, run, last).store.log, filters, batches, cursor);
  }

  // ------------------------------------------------------------ scope of a listing

  /** A token scoped to a path prefix is authorised only for paths that match it. */
  lemma AuthorizedInScope(s: Store, seen: Cache, auth: Auth, meta: Meta, now: nat)
    requires Authorize(s, seen, auth, meta, now).reply.Ok? && auth.claims.pathPrefix.Some?
    ensures meta.path.Some? && SegmentPrefixMatches(auth.claims.pathPrefix.value, meta.path.value)
  {
    hide SegmentPrefixMatches, ReplayKey, DurableVerdict, DurableAfter, CacheAfter, DenialLogged;
  }

  /**
   Every path that a path-scoped token is shown lies segment-wise under the
   token's canonical prefix exactly when that prefix is ASCII, whatever prefix
   the request asked for.
   */
  lemma ListedPathsInScope(env: Env, s: Store, seen: Cache, auth: Auth, r: ListRequest, now: nat, b: Binding)
    requires auth.claims.pathPrefix.Some? && ListStep(env, s, seen, auth, r, now).reply.Ok?
    requires b in ListStep(env, s, seen, auth, r, now).reply.value.items
    ensures r.prefix.Some? && CanonicalPath(auth.claims.pathPrefix.value).Good?
    ensures var p := CanonicalPath(auth.claims.pathPrefix.value).value; Under(p, b.path) <==> IsAscii(p)
  {
    hide Authorize, CanonicalPath, Listing.ListPage, Ascii, SegmentPrefixMatches, Under, IsAscii, NamespaceOf;
    var name, prefix := CanonicalPath(r.namespace), if r.prefix.Some? then CanonicalPath(r.prefix.value) else Good([]);
    var wanted := if r.prefix.Some? then Some(prefix.value) else None;
    var meta := Meta(ListOp, env.tenant, Ascii("list:") + name.value, Some(name.value), wanted,
                     None, None, None, None, None, None);
    AuthorizedInScope(s, seen, auth, meta, now);
    var a := Authorize(s, seen, auth, meta, now);
    Listing.PageShowsWanted(Listing.Query(env.tenant, name.value, wanted, r.includeTombstones),
                            NamespaceOf(a.store, name.value), r.cursor, r.limit.GetOr(100), b);
    MatchedPrefixCovers(auth.claims.pathPrefix.value, r.prefix.value, b.path);
  }

  /** The token's prefix and the request's prefix: one text, decoded once and decoded twice. */
  const ESCAPING_TOKEN: Text := [0xC3, 0xA9]
  const ESCAPING_PREFIX: Text := [0x25, 0x45, 0x39]
  const TOKEN_CANONICAL: Text := [0xC3, 0x83, 0xC2, 0xA9]

  lemma EscapingPrefixes()
    ensures CanonicalPath(ESCAPING_PREFIX) == Good([0xC3, 0xA9])
    ensures CanonicalPath(ESCAPING_TOKEN) == Good(TOKEN_CANONICAL)
    ensures SegmentPrefixMatches(ESCAPING_TOKEN, [0xC3, 0xA9])
  {
    var p, q: Text := ESCAPING_PREFIX, ESCAPING_TOKEN;
    assert EscapeAt(p, 0) && 16 * HexValue(p[1]) + HexValue(p[2]) == 0xE9;
    PrependLaws([0xC3, 0xA9], [], Good([]));
    assert p[3..] == [] && CharBytes(0xE9) == [0xC3, 0xA9];
    var tail := q[1..];
    assert tail == [0xA9] && tail[1..] == [];
    PrependLaws(CharBytes(0xA9), [], Good([]));
    assert Decoded(tail) == Good([0xC2, 0xA9]);
    assert [0xC3, 0x83] + [0xC2, 0xA9] == [0xC3, 0x83, 0xC2, 0xA9];
    CanonicalPathIsDecoded(p);
    CanonicalPathIsDecoded(q);
    SegmentPrefixMatchesExactly(q, q);
  }

  /** A reader of the tenant whose paths are restricted to that prefix. */
  function EscapingAuth(env: Env, now: nat): Auth {
    Auth(Claims(now, None, None, [ReadScope], env.tenant, None, Some(ESCAPING_TOKEN), None, [], None, None), false)
  }

  /**
   Wherever the object "%E9" is live, a token restricted to the prefix U+00E9
   that lists "%E9" is shown it, though it lies outside the token's prefix.
   */
  lemma ListingEscapesScope(env: Env, s: Store, seen: Cache, namespace: Text, now: nat)
    requires StoreInv(env, s) && CanonicalPath(namespace).Good?
    requires var ns := NamespaceOf(s, CanonicalPath(namespace).value);
             [0xC3, 0xA9] in ns.bindings && !ns.bindings[[0xC3, 0xA9]].tombstone
    ensures CanonicalPath(ESCAPING_TOKEN) == Good(TOKEN_CANONICAL)
    ensures var r := ListRequest(namespace, Some(ESCAPING_PREFIX), None, None, false);
            var page := ListStep(env, s, seen, EscapingAuth(env, now), r, now).reply;
            && page.Ok? && page.value.items != []
            && (forall b :: b in page.value.items ==> !Under(TOKEN_CANONICAL, b.path))
  {
    hide StoreInv, CanonicalPath, Listing.ListPage, SegmentPrefixMatches, Under, NamespaceOf, Ascii, Inv;
    EscapingPrefixes();
    var name := CanonicalPath(namespace).value;
    var auth := EscapingAuth(env, now);
    var r := ListRequest(namespace, Some(ESCAPING_PREFIX), None, None, false);
    assert auth.claims.ops[0] == ReadScope && ScopeAllows(ReadScope, ListOp);
    var q := Listing.Query(env.tenant, name, Some([0xC3, 0xA9]), false);
    NamespaceOfInv(env, s, name);
    var ns := NamespaceOf(s, name);
    assert ns.bindings[[0xC3, 0xA9]].path == [0xC3, 0xA9] by { BindingPath(name, ns, [0xC3, 0xA9]); }
    assert Under([0xC3, 0xA9], [0xC3, 0xA9]) by { UnderReflexive([0xC3, 0xA9]); }
    Listing.FirstPageShows(q, ns, 100, [0xC3, 0xA9]);
    var page := ListStep(env, s, seen, auth, r, now).reply;
    assert page == Listing.ListPage(q, ns, None, 100);
    forall b | b in page.value.items ensures !Under(TOKEN_CANONICAL, b.path) {
      ListedPathsInScope(env, s, seen, auth, r, now, b);
      assert TOKEN_CANONICAL[0] == 0xC3;
    }
  }

  lemma BindingPath(name: Text, ns: Namespace, p: Text)
    requires Inv(name, ns) && p in ns.bindings
    ensures ns.bindings[p].path == p
  {
    var k := BindingOrigin(ns.journal, p);
  }

  lemma UnderReflexive(p: Text)
    ensures Under(p, p)
  {
  }

  // -------------------------------------------------------------- shapes of steps

  /** s' has the namespaces of s with exactly this bind applied. */
  ghost predicate BindHappened(env: Env, s: Store, r: BindRequest, s': Store) {
    && r.target in s.manifests
    && Canonical(r.namespace, r.path).Ok?
    && var (name, path) := Canonical(r.namespace, r.path).value;
    && VerifyBind(env, r, name, path).Ok?
    && BindRefusal(NamespaceOf(s, name), path, r.ifRevision, r.ifAbsent) == None
    && s'.namespaces == s.namespaces[name :=
         Bind(env.h, NamespaceOf(s, name), path, VerifyBind(env, r, name, path).value, r.target, r.metadata)]
  }

  ghost predicate SameObjects(s: Store, s': Store) {
    s'.manifests == s.manifests && s'.chunks == s.chunks && s'.sessions == s.sessions
  }

  lemma BindAuthorizedShape(
    env: Env, s: Store, verdict: Verdict, r: BindRequest, name: Text, path: Text, record: MutationRecord, now: nat,
    direct: bool)
    requires Canonical(r.namespace, r.path) == Ok((name, path)) && VerifyBind(env, r, name, path) == Ok(record)
    ensures var (s', reply) := BindAuthorized(env, s, verdict, r, name, path, record, now, direct);
            && SameObjects(s, s')
            && (s'.namespaces == s.namespaces || (reply.Ok? && BindHappened(env, s, r, s')))
            && (!direct && reply.Ok? ==> BindHappened(env, s, r, s'))
            && (reply.Err? ==> s' == s)
  {
    hide VerifyBind, Canonical, BindRefusal, Bind, RecordCid, NamespaceOf, Event, Events.Append;
    if BindRefusal(NamespaceOf(s, name), path, r.ifRevision, r.ifAbsent).None? && r.target in s.manifests {
      assert BindHappened(env, s, r, BindApplied(env, s, r, name, path, record, now));
    }
  }

  lemma HappenedQuiet(env: Env, s: Store, s1: Store, r: BindRequest, s': Store)
    requires Quiet(s, s1) && BindHappened(env, s1, r, s')
    ensures BindHappened(env, s, r, s')
  {
    hide VerifyBind, Canonical, BindRefusal, Bind;
  }

  lemma QuietObjects(s: Store, s1: Store, s': Store)
    ensures Quiet(s, s1) ==> s1.namespaces == s.namespaces
    ensures Quiet(s, s1) && SameObjects(s1, s') ==> SameObjects(s, s')
    ensures SameObjects(s, s) && SameObjects(s1, s1)
  {
  }

  /** A bind either leaves the namespaces alone or applies exactly one mutation. */
  lemma BindStepShape(env: Env, s: Store, seen: Cache, auth: Auth, r: BindRequest, now: nat, direct: bool)
    ensures var b := BindStep(env, s, seen, auth, r, now, direct);
            && SameObjects(s, b.store)
            && (b.store.namespaces == s.namespaces || (b.reply.Ok? && BindHappened(env, s, r, b.store)))
            && (!direct && b.reply.Ok? ==> BindHappened(env, s, r, b.store))
            && (b.reply.Err? ==> b.store.namespaces == s.namespaces)
  {
    hide Authorize, VerifyBind, Canonical, MutationMeta, BindAuthorized, BindHappened, Quiet, SameObjects;
    QuietObjects(s, s, s);
    var where := Canonical(r.namespace, r.path);
    if where.Ok? {
      var (name, path) := where.value;
      var record := VerifyBind(env, r, name, path);
      var meta := MutationMeta(env, BindOp, name, path, r.idempotencyKey);
      AuthorizeQuiet(s, seen, auth, meta, now);
      var a := Authorize(s, seen, auth, meta, now);
      QuietObjects(s, a.store, a.store);
      if record.Ok? && a.reply.Ok? {
        BindAuthorizedShape(env, a.store, a.reply.value, r, name, path, record.value, now, direct);
        var s' := BindAuthorized(env, a.store, a.reply.value, r, name, path, record.value, now, direct).0;
        QuietObjects(s, a.store, s');
        if BindHappened(env, a.store, r, s') { HappenedQuiet(env, s, a.store, r, s'); }
      }
    }
  }

  /** An unbind likewise. */
  ghost predicate UnbindHappened(env: Env, s: Store, r: UnbindRequest, s': Store) {
    && Canonical(r.namespace, r.path).Ok?
    && var (name, path) := Canonical(r.namespace, r.path).value;
    && VerifyUnbind(env, r, name, path).Ok?
    && UnbindRefusal(NamespaceOf(s, name), path, r.ifRevision) == None
    && s'.namespaces == s.namespaces[name :=
         Unbind(env.h, NamespaceOf(s, name), path, VerifyUnbind(env, r, name, path).value, r.hardDelete)]
  }

  lemma UnbindAuthorizedShape(
    env: Env, s: Store, verdict: Verdict, r: UnbindRequest, name: Text, path: Text, record: MutationRecord, now: nat)
    requires Canonical(r.namespace, r.path) == Ok((name, path)) && VerifyUnbind(env, r, name, path) == Ok(record)
    ensures var (s', reply) := UnbindAuthorized(env, s, verdict, r, name, path, record, now);
            && SameObjects(s, s')
            && s'.bindReplies == s.bindReplies
            && (s'.namespaces == s.namespaces || (reply.Ok? && UnbindHappened(env, s, r, s')))
            && (reply.Err? ==> s' == s)
  {
    hide VerifyUnbind, Canonical, UnbindRefusal, Unbind, RecordCid, NamespaceOf, Event, Events.Append;
    if UnbindRefusal(NamespaceOf(s, name), path, r.ifRevision).None? {
      var s' := UnbindApplied(env, s, r, name, path, record, now);
      assert UnbindHappened(env, s, r, s');
    }
  }

  lemma UnbindHappenedQuiet(env: Env, s: Store, s1: Store, r: UnbindRequest, s': Store)
    requires Quiet(s, s1) && UnbindHappened(env, s1, r, s')
    ensures UnbindHappened(env, s, r, s')
  {
    hide VerifyUnbind, Canonical, UnbindRefusal, Unbind;
  }

  lemma UnbindStepShape(env: Env, s: Store, seen: Cache, auth: Auth, r: UnbindRequest, now: nat)
    ensures var u := UnbindStep(env, s, seen, auth, r, now);
            && SameObjects(s, u.store)
            && (u.store.namespaces == s.namespaces || (u.reply.Ok? && UnbindHappened(env, s, r, u.store)))
            && (u.reply.Err? ==> u.store.namespaces == s.namespaces)
  {
    hide Authorize, VerifyUnbind, Canonical, MutationMeta, UnbindAuthorized, UnbindHappened, Quiet, SameObjects;
    QuietObjects(s, s, s);
    var where := Canonical(r.namespace, r.path);
    if where.Ok? {
      var (name, path) := where.value;
      var record := VerifyUnbind(env, r, name, path);
      var meta := MutationMeta(env, UnbindOp, name, path, r.idempotencyKey);
      AuthorizeQuiet(s, seen, auth, meta, now);
      var a := Authorize(s, seen, auth, meta, now);
      QuietObjects(s, a.store, a.store);
      if record.Ok? && a.reply.Ok? {
        UnbindAuthorizedShape(env, a.store, a.reply.value, r, name, path, record.value, now);
        var s' := UnbindAuthorized(env, a.store, a.reply.value, r, name, path, record.value, now).0;
        QuietObjects(s, a.store, s');
        if UnbindHappened(env, a.store, r, s') { UnbindHappenedQuiet(env, s, a.store, r, s'); }
      }
    }
  }

  // ---------------------------------------------------- live bindings and commits

  /** Some path is bound, not tombstoned, to this manifest. */
  ghost predicate LiveTarget(namespaces: map<Text, Namespace>, cid: Text) {
    exists n, p :: n in namespaces && p in namespaces[n].bindings &&
      !namespaces[n].bindings[p].tombstone && namespaces[n].bindings[p].target == Some(cid)
  }

  /** Every live binding names a stored manifest. */
  ghost predicate LiveResolved(namespaces: map<Text, Namespace>, manifests: map<Text, ManifestRecord>) {
    forall n, p :: n in namespaces && p in namespaces[n].bindings && !namespaces[n].bindings[p].tombstone ==>
      var b := namespaces[n].bindings[p];
      b.target.Some? && b.target.value in manifests && b.manifest == b.target
  }

  lemma BindResolved(env: Env, s: Store, r: BindRequest, s': Store, manifests: map<Text, ManifestRecord>)
    requires LiveResolved(s.namespaces, manifests) && BindHappened(env, s, r, s') && r.target in manifests
    ensures LiveResolved(s'.namespaces, manifests)
  {
    hide Canonical, VerifyBind, BindRefusal, RecordCid;
  }

  lemma UnbindResolved(env: Env, s: Store, r: UnbindRequest, s': Store, manifests: map<Text, ManifestRecord>)
    requires LiveResolved(s.namespaces, manifests) && UnbindHappened(env, s, r, s')
    ensures LiveResolved(s'.namespaces, manifests)
  {
    hide Canonical, VerifyUnbind, RecordCid;
  }

  /** The bind inside this commit fails once the manifest is stored. */
  ghost predicate BindFails(env: Env, s: Store, seen: Cache, auth: Auth, r: CommitRequest, session: Session, now: nat) {
    && session.atomicBind.Some?
    && var cid := session.manifestCid;
    && var record := ManifestRecord(session.manifest, cid, cid, session.storageClass, now);
    && BindStep(env, s.(manifests := s.manifests[cid := record]), seen, auth,
                CommitBind(session.atomicBind.value, r, cid), now, false).reply.Err?
  }

  // ------------------------------------- when a commit goes through, seen beforehand

  /** The verdict that the token's replay record gives a mutation. */
  function VerdictFor(replay: Cache, seen: Cache, auth: Auth, meta: Meta): Verdict
    requires auth.claims.jti.Some?
  {
    DurableVerdict(seen, replay, ReplayKey(meta.tenant, auth.claims.jti.value, meta.operation, meta.subject),
                   meta.idempotencyKey)
  }

  /** The policy allows the mutation and the token's replay record does not refuse it. */
  predicate Permitted(replay: Cache, seen: Cache, auth: Auth, meta: Meta, now: nat) {
    && PolicyDenial(auth, meta, now) == None && auth.claims.jti.Some?
    && VerdictFor(replay, seen, auth, meta) != Refused
  }

  lemma AuthorizeIff(s: Store, seen: Cache, auth: Auth, meta: Meta, now: nat)
    requires IsMutation(meta.operation)
    ensures Authorize(s, seen, auth, meta, now).reply.Ok? <==> Permitted(s.replay, seen, auth, meta, now)
    ensures Permitted(s.replay, seen, auth, meta, now) ==>
              Authorize(s, seen, auth, meta, now).reply == Ok(VerdictFor(s.replay, seen, auth, meta))
  {
    hide ReplayKey, SegmentPrefixMatches, DenialLogged, DurableVerdict, DurableAfter, CacheAfter;
  }

  lemma AllowedRetry(s: Store, seen: Cache, auth: Auth, meta: Meta, now: nat)
    requires PolicyDenial(auth, meta, now) == None && IsMutation(meta.operation) && auth.claims.jti.Some?
    requires var key := ReplayKey(meta.tenant, auth.claims.jti.value, meta.operation, meta.subject);
             && key in s.replay && meta.idempotencyKey == Some(s.replay[key])
             && (key in seen ==> seen[key] == s.replay[key])
    ensures var key := ReplayKey(meta.tenant, auth.claims.jti.value, meta.operation, meta.subject);
            var a := Authorize(s, seen, auth, meta, now);
            a.reply == Ok(Retry) && a.store == s && (key in seen ==> a.seen == seen)
  {
    hide PolicyDenial, ReplayKey;
  }

  /** The signed record verifies for the bind's place and its precondition holds there. */
  predicate BindReady(env: Env, namespaces: map<Text, Namespace>, b: BindRequest) {
    var where := Canonical(b.namespace, b.path);
    && where.Ok? && VerifyBind(env, b, where.value.0, where.value.1).Ok?
    && var ns := if where.value.0 in namespaces then namespaces[where.value.0] else Namespaces.EMPTY;
    && BindRefusal(ns, where.value.1, b.ifRevision, b.ifAbsent) == None
  }

  /** And the token is permitted to bind there. */
  predicate BindAccepted(
    env: Env, namespaces: map<Text, Namespace>, replay: Cache, seen: Cache, auth: Auth, b: BindRequest, now: nat)
  {
    && BindReady(env, namespaces, b)
    && var where := Canonical(b.namespace, b.path).value;
    Permitted(replay, seen, auth, MutationMeta(env, BindOp, where.0, where.1, b.idempotencyKey), now)
  }

  /** A bind inside a commit succeeds exactly then. */
  lemma BindSucceedsIff(env: Env, s: Store, seen: Cache, auth: Auth, r: BindRequest, now: nat)
    requires r.target in s.manifests
    ensures BindStep(env, s, seen, auth, r, now, false).reply.Ok? <==>
            BindAccepted(env, s.namespaces, s.replay, seen, auth, r, now)
  {
    hide Authorize, Canonical, VerifyBind, BindRefusal, Permitted, Quiet, BindApplied, RecordCid;
    var where := Canonical(r.namespace, r.path);
    if where.Ok? {
      var meta := MutationMeta(env, BindOp, where.value.0, where.value.1, r.idempotencyKey);
      AuthorizeIff(s, seen, auth, meta, now);
      AuthorizeQuiet(s, seen, auth, meta, now);
      QuietParts(s, Authorize(s, seen, auth, meta, now).store);
    }
  }

  /** The commit gets as far as storing its manifest. */
  predicate CommitStores(env: Env, s: Store, seen: Cache, auth: Auth, r: CommitRequest, now: nat) {
    && r.sessionId in s.sessions
    && var session := s.sessions[r.sessionId];
    && session.manifestCid == r.manifestCid
    && var meta := CommitMeta(env, r, session);
    && Permitted(s.replay, seen, auth, meta, now)
    && !(VerdictFor(s.replay, seen, auth, meta) == Retry && env.h(r.idempotencyKey) in s.commitReplies)
    && AllPresent(s.chunks, session.manifest.chunkRefs)
  }

  /** It then fails to bind the manifest and deletes its record again. */
  predicate RollsBack(env: Env, s: Store, seen: Cache, auth: Auth, r: CommitRequest, now: nat) {
    && CommitStores(env, s, seen, auth, r, now)
    && var session := s.sessions[r.sessionId];
    && session.atomicBind.Some?
    && !BindAccepted(env, s.namespaces, s.replay, seen, auth,
                     CommitBind(session.atomicBind.value, r, session.manifestCid), now)
  }

  lemma CommitKeyIsNoBindKey(tenant: Text, jti: Text, subject: Text, subject': Text)
    ensures ReplayKey(tenant, jti, PutCommitOp, subject) != ReplayKey(tenant, jti, BindOp, subject')
  {
    var n := |tenant| + 1 + |jti| + 1;
    assert ReplayKey(tenant, jti, PutCommitOp, subject)[n] == OperationName(PutCommitOp)[0] == 0x50;
    assert ReplayKey(tenant, jti, BindOp, subject')[n] == OperationName(BindOp)[0] == 0x42;
  }

  /** Authorising the commit does not change what the bind inside it will be told. */
  lemma CommitLeavesBindVerdict(
    env: Env, s: Store, seen: Cache, auth: Auth, r: CommitRequest, session: Session, b: BindRequest, now: nat)
    ensures var a := Authorize(s, seen, auth, CommitMeta(env, r, session), now);
            BindAccepted(env, s.namespaces, a.store.replay, a.seen, auth, b, now) <==>
            BindAccepted(env, s.namespaces, s.replay, seen, auth, b, now)
  {
    hide Canonical, VerifyBind, BindRefusal, PolicyDenial, ReplayKey, DenialLogged, DurableAfter, CacheAfter, DurableVerdict;
    var meta := CommitMeta(env, r, session);
    DenialReplayKept(s, meta, now);
    if auth.claims.jti.Some? {
      var jti := auth.claims.jti.value;
      var key := ReplayKey(env.tenant, jti, PutCommitOp, r.sessionId);
      DenialReplayKept(s.(replay := DurableAfter(seen, s.replay, key, meta.idempotencyKey)), meta, now);
      var where := Canonical(b.namespace, b.path);
      if where.Ok? {
        var subject := where.value.0 + [COLON] + where.value.1;
        CommitKeyIsNoBindKey(env.tenant, jti, r.sessionId, subject);
        OtherKeyVerdict(seen, s.replay, key, meta.idempotencyKey, ReplayKey(env.tenant, jti, BindOp, subject),
                        Some(b.idempotencyKey));
      }
    }
  }

  lemma DenialReplayKept(s: Store, meta: Meta, now: nat)
    ensures DenialLogged(s, meta, now).replay == s.replay
  {
  }

  lemma OtherKeyVerdict(seen: Cache, replay: Cache, key: Text, idem: Option<Text>, key': Text, idem': Option<Text>)
    requires key != key'
    ensures DurableVerdict(CacheAfter(seen, key, idem), DurableAfter(seen, replay, key, idem), key', idem') ==
            DurableVerdict(seen, replay, key', idem')
  {
  }

  lemma ResolvedMore(
    namespaces: map<Text, Namespace>, m: map<Text, ManifestRecord>, m': map<Text, ManifestRecord>)
    requires LiveResolved(namespaces, m) && m.Keys <= m'.Keys
    ensures LiveResolved(namespaces, m')
  {
  }

  lemma ResolvedLess(namespaces: map<Text, Namespace>, m: map<Text, ManifestRecord>, cid: Text)
    requires LiveResolved(namespaces, m)
    ensures LiveResolved(namespaces, m - {cid}) <==> !LiveTarget(namespaces, cid)
  {
    if LiveTarget(namespaces, cid) {
      var n, p :| n in namespaces && p in namespaces[n].bindings &&
        !namespaces[n].bindings[p].tombstone && namespaces[n].bindings[p].target == Some(cid);
      assert cid !in m - {cid};
    }
  }

  lemma CommitStoredResolved(
    env: Env, s: Store, seen: Cache, auth: Auth, r: CommitRequest, session: Session, now: nat)
    requires LiveResolved(s.namespaces, s.manifests)
    ensures var t := CommitStored(env, s, seen, auth, r, session, now);
            var fails := BindFails(env, s, seen, auth, r, session, now);
            && (fails ==> t.store.namespaces == s.namespaces && t.store.manifests == s.manifests - {session.manifestCid})
            && (!fails ==> LiveResolved(t.store.namespaces, t.store.manifests) && s.manifests.Keys <= t.store.manifests.Keys)
  {
    hide BindStep, LiveResolved, CommitBind, BindHappened, CommitFinished, SmallManifest, SameObjects;
    var cid := session.manifestCid;
    var record := ManifestRecord(session.manifest, cid, cid, session.storageClass, now);
    var stored := s.(manifests := s.manifests[cid := record]);
    ResolvedMore(s.namespaces, s.manifests, stored.manifests);
    CommitFinishedParts(env, stored, r, session, now);
    if session.atomicBind.Some? {
      var request := CommitBind(session.atomicBind.value, r, cid);
      BindStepShape(env, stored, seen, auth, request, now, false);
      var b := BindStep(env, stored, seen, auth, request, now, false);
      assert b.store.manifests == stored.manifests by { SameManifests(stored, b.store); }
      if b.reply.Ok? {
        assert request.target == cid by { TargetOf(session.atomicBind.value, r, cid); }
        BindResolved(env, stored, request, b.store, stored.manifests);
        CommitFinishedParts(env, b.store, r, session, now);
      } else {
        assert stored.manifests - {cid} == s.manifests - {cid};
      }
    }
  }

  lemma CommitFinishedParts(env: Env, s: Store, r: CommitRequest, session: Session, now: nat)
    ensures var t := CommitFinished(env, s, r, session, now);
            && t.namespaces == s.namespaces && t.manifests == s.manifests && t.chunks == s.chunks
            && t.bindReplies == s.bindReplies && t.replay == s.replay
  {
  }

  lemma SameManifests(s: Store, s': Store)
    requires SameObjects(s, s')
    ensures s'.manifests == s.manifests
  {
  }

  lemma TargetOf(b: AtomicBind, r: CommitRequest, cid: Text)
    ensures CommitBind(b, r, cid).target == cid
  {
  }

  /**
   Live bindings stay resolvable through a commit exactly unless it rolls back
   a manifest that some live binding names.
   */
  lemma CommitResolvedIff(env: Env, s: Store, seen: Cache, auth: Auth, r: CommitRequest, now: nat)
    requires LiveResolved(s.namespaces, s.manifests)
    ensures var t := CommitStep(env, s, seen, auth, r, now);
            LiveResolved(t.store.namespaces, t.store.manifests) <==>
            !(RollsBack(env, s, seen, auth, r, now) && LiveTarget(s.namespaces, r.manifestCid))
  {
    hide Authorize, BindFails, LiveResolved, LiveTarget, AllPresent, CommitStored, CommitMeta, Quiet, CommitStep, RollsBack;
    if CommitStores(env, s, seen, auth, r, now) {
      CommitStepStores(env, s, seen, auth, r, now);
      var session := s.sessions[r.sessionId];
      var meta := CommitMeta(env, r, session);
      AuthorizeQuiet(s, seen, auth, meta, now);
      var a := Authorize(s, seen, auth, meta, now);
      QuietParts(s, a.store);
      CommitStoredResolved(env, a.store, a.seen, auth, r, session, now);
      ResolvedLess(s.namespaces, s.manifests, session.manifestCid);
    } else {
      CommitStepStoresNothing(env, s, seen, auth, r, now);
      QuietParts(s, CommitStep(env, s, seen, auth, r, now).store);
    }
  }

  lemma CommitStepStores(env: Env, s: Store, seen: Cache, auth: Auth, r: CommitRequest, now: nat)
    requires CommitStores(env, s, seen, auth, r, now)
    ensures var session := s.sessions[r.sessionId];
            var a := Authorize(s, seen, auth, CommitMeta(env, r, session), now);
            && CommitStep(env, s, seen, auth, r, now) == CommitStored(env, a.store, a.seen, auth, r, session, now)
            && (RollsBack(env, s, seen, auth, r, now) <==> BindFails(env, a.store, a.seen, auth, r, session, now))
  {
    hide Authorize, BindFails, AllPresent, CommitStored, CommitMeta, Permitted, VerdictFor, BindAccepted, Quiet, CommitBind;
    var session := s.sessions[r.sessionId];
    var meta := CommitMeta(env, r, session);
    assert IsMutation(meta.operation) by { CommitIsMutation(env, r, session); }
    AuthorizeIff(s, seen, auth, meta, now);
    AuthorizeQuiet(s, seen, auth, meta, now);
    var a := Authorize(s, seen, auth, meta, now);
    QuietReplies(s, a.store);
    if session.atomicBind.Some? {
      BindFailsIff(env, a.store, a.seen, auth, r, session, now);
      CommitLeavesBindVerdict(env, s, seen, auth, r, session, CommitBind(session.atomicBind.value, r, session.manifestCid), now);
    } else {
      NoBindNoFailure(env, a.store, a.seen, auth, r, session, now);
    }
  }

  lemma NoBindNoFailure(env: Env, s: Store, seen: Cache, auth: Auth, r: CommitRequest, session: Session, now: nat)
    requires session.atomicBind.None?
    ensures !BindFails(env, s, seen, auth, r, session, now)
  {
  }

  lemma CommitIsMutation(env: Env, r: CommitRequest, session: Session)
    ensures IsMutation(CommitMeta(env, r, session).operation)
  {
  }

  lemma QuietReplies(s: Store, s': Store)
    requires Quiet(s, s')
    ensures s'.commitReplies == s.commitReplies && s'.chunks == s.chunks && s'.namespaces == s.namespaces
  {
  }

  lemma BindFailsIff(env: Env, s: Store, seen: Cache, auth: Auth, r: CommitRequest, session: Session, now: nat)
    requires session.atomicBind.Some?
    ensures BindFails(env, s, seen, auth, r, session, now) <==>
            !BindAccepted(env, s.namespaces, s.replay, seen, auth,
                          CommitBind(session.atomicBind.value, r, session.manifestCid), now)
  {
    hide BindStep, BindAccepted, CommitBind, SmallManifest;
    var cid := session.manifestCid;
    var record := ManifestRecord(session.manifest, cid, cid, session.storageClass, now);
    TargetOf(session.atomicBind.value, r, cid);
    BindSucceedsIff(env, s.(manifests := s.manifests[cid := record]), seen, auth,
                    CommitBind(session.atomicBind.value, r, cid), now);
  }

  lemma CommitStepStoresNothing(env: Env, s: Store, seen: Cache, auth: Auth, r: CommitRequest, now: nat)
    requires !CommitStores(env, s, seen, auth, r, now)
    ensures Quiet(s, CommitStep(env, s, seen, auth, r, now).store) && !RollsBack(env, s, seen, auth, r, now)
  {
    hide Authorize, AllPresent, CommitStored, CommitMeta, Quiet, Permitted, VerdictFor, BindAccepted;
    QuietReflexive(s);
    if r.sessionId in s.sessions {
      var meta := CommitMeta(env, r, s.sessions[r.sessionId]);
      AuthorizeQuiet(s, seen, auth, meta, now);
      assert IsMutation(meta.operation) by { CommitIsMutation(env, r, s.sessions[r.sessionId]); }
      AuthorizeIff(s, seen, auth, meta, now);
      QuietReplies(s, Authorize(s, seen, auth, meta, now).store);
    }
  }

  lemma QuietReflexive(s: Store)
    ensures Quiet(s, s)
  {
  }

  lemma QuietParts(s: Store, s': Store)
    requires Quiet(s, s')
    ensures s'.namespaces == s.namespaces && s'.manifests == s.manifests && s'.chunks == s.chunks
    ensures s'.sessions == s.sessions && s'.bindReplies == s.bindReplies
  {
  }

  /** Every request but such a commit keeps live bindings resolvable. */
  lemma EffectResolved(env: Env, s: Store, seen: Cache, auth: Auth, now: nat, q: Request)
    requires StoreInv(env, s) && Backed(s.replay, seen) && LiveResolved(s.namespaces, s.manifests)
    requires q.Commit? ==> !(RollsBack(env, s, seen, auth, q.commit, now) && LiveTarget(s.namespaces, q.commit.manifestCid))
    ensures var (s', _) := Effect(env, s, seen, auth, now, q); LiveResolved(s'.namespaces, s'.manifests)
  {
    hide LiveResolved, LiveTarget, RollsBack, InitStep, ChunkStep, CommitStep, BindStep, UnbindStep, GetStep, ResolveStep,
      ListStep, PollStep, StoreInv, Kept, Quiet, BindHappened, UnbindHappened;
    KeptStart(env, s, seen);
    match q
    case Init(r) => InitStepParts(env, s, seen, auth, r, now);
    case Chunk(r, bytes) => ChunkStepParts(env, s, seen, auth, r, bytes, now);
    case Commit(r) => CommitResolvedIff(env, s, seen, auth, r, now);
    case DirectBind(r) =>
      BindStepShape(env, s, seen, auth, r, now, true);
      var s' := BindStep(env, s, seen, auth, r, now, true).store;
      if BindHappened(env, s, r, s') {
        HappenedTarget(env, s, r, s');
        BindResolved(env, s, r, s', s.manifests);
      }
    case DirectUnbind(r) =>
      UnbindStepShape(env, s, seen, auth, r, now);
      var s' := UnbindStep(env, s, seen, auth, r, now).store;
      if UnbindHappened(env, s, r, s') { UnbindResolved(env, s, r, s', s.manifests); }
    case Get(selector, range) =>
      GetStepKeeps(env, s, s, seen, auth, selector, range, now);
      QuietParts(s, GetStep(env, s, seen, auth, selector, range, now).store);
    case Resolve(n, p, at, rev) =>
      ResolveStepKeeps(env, s, s, seen, auth, n, p, at, rev, now);
      QuietParts(s, ResolveStep(env, s, seen, auth, n, p, at, rev, now).store);
    case List(r) =>
      ListStepKeeps(env, s, s, seen, auth, r, now);
      QuietParts(s, ListStep(env, s, seen, auth, r, now).store);
    case Subscribe(r, cursor) =>
      PollStepKeeps(env, s, s, seen, auth, r, cursor, now);
      QuietParts(s, PollStep(env, s, seen, auth, r, cursor, now).store);
  }

  lemma HappenedTarget(env: Env, s: Store, r: BindRequest, s': Store)
    requires BindHappened(env, s, r, s')
    ensures r.target in s.manifests
  {
    hide Canonical, VerifyBind, BindRefusal, Bind;
  }

  lemma InitStepParts(env: Env, s: Store, seen: Cache, auth: Auth, r: InitRequest, now: nat)
    ensures var t := InitStep(env, s, seen, auth, r, now).store;
            && t.namespaces == s.namespaces && t.manifests == s.manifests && t.chunks == s.chunks
            && t.bindReplies == s.bindReplies
  {
    hide Authorize, InitInvalid, ManifestCid, SessionId, Missing, InitMeta, Quiet;
    AuthorizeQuiet(s, seen, auth, InitMeta(env, r), now);
    QuietParts(s, Authorize(s, seen, auth, InitMeta(env, r), now).store);
  }

  lemma ChunkStepParts(env: Env, s: Store, seen: Cache, auth: Auth, r: ChunkRequest, bytes: Text, now: nat)
    ensures var t := ChunkStep(env, s, seen, auth, r, bytes, now).store;
            t.namespaces == s.namespaces && t.manifests == s.manifests && t.bindReplies == s.bindReplies
  {
    hide Authorize, ChunkInvalid, ChunkMeta;
    if ChunkInvalid(s, env.h, r, bytes).None? {
      ChunkSession(s, env.h, r, bytes);
      AuthorizeQuiet(s, seen, auth, ChunkMeta(env, r, s.sessions[r.sessionId], |bytes|), now);
    }
  }

  /** This call does not roll back the manifest of a live binding. */
  ghost predicate SparesLive(env: Env, d: Deployment, c: Call) {
    c.Call? && c.request.Commit? ==>
      !(RollsBack(env, d.store, d.CacheOf(c.instance), c.auth, c.request.commit, c.now) &&
        LiveTarget(d.store.namespaces, c.request.commit.manifestCid))
  }

  /**
   In every run each stored chunk hashes to its CID and each stored manifest has
   all its chunks; and as long as no commit rolls back a live manifest, every
   live binding resolves to a stored one.
   */
  lemma {:induction false} RunResolved(env: Env, d: Deployment, run: seq<Call>, n: nat)
    requires Sound(env, d) && n <= |run| && LiveResolved(d.store.namespaces, d.store.manifests)
    requires forall i :: 0 <= i < n ==> SparesLive(env, DeploymentAt(env, d, run, i), run[i])
    ensures var s := DeploymentAt(env, d, run, n).store;
            && ChunksOk(env, s.chunks) && ManifestsOk(env, s.chunks, s.manifests)
            && LiveResolved(s.namespaces, s.manifests)
    decreases n
  {
    hide LiveResolved, ChunksOk, ManifestsOk, NamespacesOk, SessionsOk, Evolves, DeploymentAt, After, SparesLive;
    DeploymentSteps(env, d, run, n);
    RunKeeps(env, d, run, 0, n);
    if n > 0 {
      RunKeeps(env, d, run, 0, n - 1);
      RunResolved(env, d, run, n - 1);
      AfterResolved(env, DeploymentAt(env, d, run, n - 1), run[n - 1]);
    }
  }

  lemma DeploymentSteps(env: Env, d: Deployment, run: seq<Call>, n: nat)
    requires n <= |run|
    ensures n == 0 ==> DeploymentAt(env, d, run, n) == d
    ensures n > 0 ==> DeploymentAt(env, d, run, n) == After(env, DeploymentAt(env, d, run, n - 1), run[n - 1])
  {
    hide After;
  }

  lemma AfterResolved(env: Env, d: Deployment, c: Call)
    requires Sound(env, d) && LiveResolved(d.store.namespaces, d.store.manifests) && SparesLive(env, d, c)
    ensures var s := After(env, d, c).store; LiveResolved(s.namespaces, s.manifests)
  {
    hide LiveResolved, RollsBack, LiveTarget, Effect, StoreInv;
    if c.Call? { EffectResolved(env, d.store, d.CacheOf(c.instance), c.auth, c.now, c.request); }
  }
}
