/**
 Direct BIND requests that repeat one token id, subject and idempotency key:
 at most one of them ever changes a namespace, over any run.
 */
module BindIdempotency {
  import opened Basics
  import opened Records
  import opened Namespaces
  import opened Policy
  import opened Service
  import opened ServiceInvariants
  import opened ServiceTheorems

  /** What the repeated requests have in common. */
  datatype Family = Family(jti: Text, subject: Text, idempotencyKey: Text)

  predicate BelongsTo(f: Family, auth: Auth, r: BindRequest) {
    && auth.claims.jti == Some(f.jti) && r.idempotencyKey == f.idempotencyKey
    && var where := Canonical(r.namespace, r.path);
    && where.Ok? && where.value.0 + [COLON] + where.value.1 == f.subject
  }

  function FamilyKey(env: Env, f: Family): Text {
    ReplayKey(env.tenant, f.jti, BindOp, f.subject)
  }

  /** The family has been answered: its replay record and a reply under its key are stored. */
  ghost predicate Answered(env: Env, f: Family, s: Store) {
    FamilyKey(env, f) in s.replay && env.h(f.idempotencyKey) in s.bindReplies
  }

  lemma AuthorizedBindOnce(
    env: Env, s: Store, verdict: Verdict, r: BindRequest, name: Text, path: Text, record: MutationRecord, now: nat)
    ensures var (s', reply) := BindAuthorized(env, s, verdict, r, name, path, record, now, true);
            var key := env.h(r.idempotencyKey);
            && s'.replay == s.replay
            && (s'.namespaces != s.namespaces ==> key in s'.bindReplies && reply == Ok(s'.bindReplies[key]))
            && (verdict == Retry && key in s.bindReplies ==> s' == s && reply == Ok(s.bindReplies[key]))
            && (forall k :: k != key ==> (k in s'.bindReplies <==> k in s.bindReplies))
            && (forall k :: k != key && k in s.bindReplies ==> s'.bindReplies[k] == s.bindReplies[k])
  {
    hide BindRefusal, BindApplied, RecordCid, NamespaceOf;
    var key := env.h(r.idempotencyKey);
    var (s', reply) := BindAuthorized(env, s, verdict, r, name, path, record, now, true);
    if !(verdict == Retry && key in s.bindReplies) && reply.Ok? {
      var s1 := BindApplied(env, s, r, name, path, record, now);
      BindAppliedParts(env, s, r, name, path, record, now);
      assert s' == s1.(bindReplies := s1.bindReplies[key := reply.value]);
    } else {
      assert s' == s;
    }
  }

  lemma BindAppliedParts(env: Env, s: Store, r: BindRequest, name: Text, path: Text, record: MutationRecord, now: nat)
    ensures var s' := BindApplied(env, s, r, name, path, record, now);
            s'.replay == s.replay && s'.bindReplies == s.bindReplies
  {
    hide Bind, NamespaceOf, Event;
  }

  /** One direct bind of the family, before and after the family is answered. */
  lemma MemberStep(env: Env, s: Store, seen: Cache, auth: Auth, r: BindRequest, now: nat, f: Family)
    requires BelongsTo(f, auth, r) && Backed(s.replay, seen)
    ensures var b := BindStep(env, s, seen, auth, r, now, true);
            && (b.store.namespaces != s.namespaces ==>
                  Answered(env, f, b.store) && b.reply == Ok(b.store.bindReplies[env.h(f.idempotencyKey)]))
            && (Answered(env, f, s) ==>
                  && b.store.namespaces == s.namespaces && b.store.bindReplies == s.bindReplies
                  && (b.reply.Ok? ==> b.reply.value == s.bindReplies[env.h(f.idempotencyKey)]))
  {
    hide Authorize, VerifyBind, Canonical, BindAuthorized, Quiet, ReplayKey;
    var (name, path) := Canonical(r.namespace, r.path).value;
    var meta := MutationMeta(env, BindOp, name, path, r.idempotencyKey);
    AuthorizeQuiet(s, seen, auth, meta, now);
    var a := Authorize(s, seen, auth, meta, now);
    QuietParts(s, a.store);
    var record := VerifyBind(env, r, name, path);
    if record.Ok? && a.reply.Ok? {
      AuthorizeVerdict(s, seen, auth, meta, now);
      AuthorizedBindOnce(env, a.store, a.reply.value, r, name, path, record.value, now);
    }
  }

  /** A direct bind touches the reply records only under its own idempotency key. */
  lemma DirectBindReplies(env: Env, s: Store, seen: Cache, auth: Auth, r: BindRequest, now: nat, k: Text)
    requires k != env.h(r.idempotencyKey) && k in s.bindReplies
    ensures var b := BindStep(env, s, seen, auth, r, now, true);
            k in b.store.bindReplies && b.store.bindReplies[k] == s.bindReplies[k]
  {
    hide Authorize, VerifyBind, Canonical, BindAuthorized, Quiet, MutationMeta;
    var where := Canonical(r.namespace, r.path);
    if where.Ok? {
      var (name, path) := where.value;
      var meta := MutationMeta(env, BindOp, name, path, r.idempotencyKey);
      AuthorizeQuiet(s, seen, auth, meta, now);
      var a := Authorize(s, seen, auth, meta, now);
      QuietParts(s, a.store);
      var record := VerifyBind(env, r, name, path);
      if record.Ok? && a.reply.Ok? {
        AuthorizedBindOnce(env, a.store, a.reply.value, r, name, path, record.value, now);
      }
    }
  }

  /** The bind inside a commit leaves the reply records alone. */
  lemma InnerBindReplies(env: Env, s: Store, seen: Cache, auth: Auth, r: BindRequest, now: nat)
    ensures BindStep(env, s, seen, auth, r, now, false).store.bindReplies == s.bindReplies
  {
    hide Authorize, VerifyBind, Canonical, Quiet, MutationMeta, BindRefusal, Bind, RecordCid, NamespaceOf, Event;
    var where := Canonical(r.namespace, r.path);
    if where.Ok? {
      var (name, path) := where.value;
      var meta := MutationMeta(env, BindOp, name, path, r.idempotencyKey);
      AuthorizeQuiet(s, seen, auth, meta, now);
      QuietParts(s, Authorize(s, seen, auth, meta, now).store);
    }
  }

  lemma CommitReplies(env: Env, s: Store, seen: Cache, auth: Auth, r: CommitRequest, now: nat)
    ensures CommitStep(env, s, seen, auth, r, now).store.bindReplies == s.bindReplies
  {
    hide Authorize, AllPresent, CommitStored, CommitMeta, Quiet, CommitStep, BindFails, RollsBack;
    if CommitStores(env, s, seen, auth, r, now) {
      CommitStepStores(env, s, seen, auth, r, now);
      var session := s.sessions[r.sessionId];
      var meta := CommitMeta(env, r, session);
      AuthorizeQuiet(s, seen, auth, meta, now);
      var a := Authorize(s, seen, auth, meta, now);
      QuietParts(s, a.store);
      CommitStoredReplies(env, a.store, a.seen, auth, r, session, now);
    } else {
      CommitStepStoresNothing(env, s, seen, auth, r, now);
      QuietParts(s, CommitStep(env, s, seen, auth, r, now).store);
    }
  }

  lemma CommitStoredReplies(env: Env, s: Store, seen: Cache, auth: Auth, r: CommitRequest, session: Session, now: nat)
    ensures CommitStored(env, s, seen, auth, r, session, now).store.bindReplies == s.bindReplies
  {
    hide BindStep, CommitBind, CommitFinished;
    var cid := session.manifestCid;
    var record := ManifestRecord(session.manifest, cid, cid, session.storageClass, now);
    var stored := s.(manifests := s.manifests[cid := record]);
    CommitFinishedParts(env, stored, r, session, now);
    if session.atomicBind.Some? {
      var request := CommitBind(session.atomicBind.value, r, cid);
      InnerBindReplies(env, stored, seen, auth, request, now);
      CommitFinishedParts(env, BindStep(env, stored, seen, auth, request, now, false).store, r, session, now);
    }
  }

  /** An unbind has its own reply records. */
  lemma UnbindReplies(env: Env, s: Store, seen: Cache, auth: Auth, r: UnbindRequest, now: nat)
    ensures UnbindStep(env, s, seen, auth, r, now).store.bindReplies == s.bindReplies
  {
    hide Authorize, VerifyUnbind, Canonical, UnbindAuthorized, Quiet, MutationMeta, SameObjects;
    var where := Canonical(r.namespace, r.path);
    if where.Ok? {
      var (name, path) := where.value;
      var meta := MutationMeta(env, UnbindOp, name, path, r.idempotencyKey);
      AuthorizeQuiet(s, seen, auth, meta, now);
      var a := Authorize(s, seen, auth, meta, now);
      QuietParts(s, a.store);
      var record := VerifyUnbind(env, r, name, path);
      if record.Ok? && a.reply.Ok? {
        UnbindAuthorizedShape(env, a.store, a.reply.value, r, name, path, record.value, now);
      }
    }
  }

  // ----------------------------------------------------------------------- runs

  predicate MemberCall(f: Family, c: Call) {
    c.Call? && c.request.DirectBind? && BelongsTo(f, c.auth, c.request.bind)
  }

  function BindReplyOf(env: Env, d: Deployment, c: Call): Result<BindReply>
    requires c.Call? && c.request.DirectBind?
  {
    BindStep(env, d.store, d.CacheOf(c.instance), c.auth, c.request.bind, c.now, true).reply
  }

  /** The call changes some namespace: a journal entry, a revision, the bindings. */
  ghost predicate Mutates(env: Env, d: Deployment, c: Call) {
    After(env, d, c).store.namespaces != d.store.namespaces
  }

  lemma MemberCallStep(env: Env, d: Deployment, c: Call, f: Family)
    requires Sound(env, d) && MemberCall(f, c)
    ensures var d' := After(env, d, c);
            && (Mutates(env, d, c) ==>
                  Answered(env, f, d'.store) &&
                  BindReplyOf(env, d, c) == Ok(d'.store.bindReplies[env.h(f.idempotencyKey)]))
            && (Answered(env, f, d.store) ==>
                  && !Mutates(env, d, c) && d'.store.bindReplies == d.store.bindReplies
                  && (BindReplyOf(env, d, c).Ok? ==>
                        BindReplyOf(env, d, c).value == d.store.bindReplies[env.h(f.idempotencyKey)]))
  {
    hide BindStep, StoreInv, Answered;
    MemberStep(env, d.store, d.CacheOf(c.instance), c.auth, c.request.bind, c.now, f);
  }

  lemma AnsweredStays(env: Env, s: Store, s': Store, f: Family)
    requires Answered(env, f, s) && Evolves(s, s')
    ensures Answered(env, f, s')
  {
    hide ReplayKey, JournalsGrow;
  }

  /**
   However often such a request is sent, and whatever happens in between, at
   most one of them appends to a journal and advances a revision.
   */
  lemma BindAtMostOnce(env: Env, d: Deployment, run: seq<Call>, i: nat, j: nat, f: Family)
    requires Sound(env, d) && i < j < |run| && MemberCall(f, run[i]) && MemberCall(f, run[j])
    requires Mutates(env, DeploymentAt(env, d, run, i), run[i])
    ensures !Mutates(env, DeploymentAt(env, d, run, j), run[j])
  {
    hide Sound, Evolves, Answered, DeploymentAt, After, Mutates, BindReplyOf, MemberCall;
    RunKeeps(env, d, run, 0, i);
    RunKeeps(env, d, run, i + 1, j);
    MemberCallStep(env, DeploymentAt(env, d, run, i), run[i], f);
    DeploymentSteps(env, d, run, i + 1);
    AnsweredStays(env, DeploymentAt(env, d, run, i + 1).store, DeploymentAt(env, d, run, j).store, f);
    MemberCallStep(env, DeploymentAt(env, d, run, j), run[j], f);
  }

  /** No bind outside the family writes a reply under the family's key. */
  ghost predicate LeavesReply(env: Env, f: Family, c: Call) {
    c.Call? && c.request.DirectBind? ==>
      BelongsTo(f, c.auth, c.request.bind) || env.h(c.request.bind.idempotencyKey) != env.h(f.idempotencyKey)
  }

  lemma ReplyStays(env: Env, d: Deployment, c: Call, f: Family)
    requires Sound(env, d) && Answered(env, f, d.store) && LeavesReply(env, f, c)
    ensures var key := env.h(f.idempotencyKey);
            var d' := After(env, d, c);
            key in d'.store.bindReplies && d'.store.bindReplies[key] == d.store.bindReplies[key]
  {
    hide BelongsTo, InitStep, ChunkStep, CommitStep, BindStep, UnbindStep, GetStep, ResolveStep, ListStep, PollStep,
      StoreInv, FamilyKey, Kept, Quiet;
    if c.Call? {
      var s, seen := d.store, d.CacheOf(c.instance);
      KeptStart(env, s, seen);
      match c.request
      case Init(r) => InitStepParts(env, s, seen, c.auth, r, c.now);
      case Chunk(r, bytes) => ChunkStepParts(env, s, seen, c.auth, r, bytes, c.now);
      case Commit(r) => CommitReplies(env, s, seen, c.auth, r, c.now);
      case DirectBind(r) =>
        if BelongsTo(f, c.auth, r) {
          MemberStep(env, s, seen, c.auth, r, c.now, f);
        } else {
          DirectBindReplies(env, s, seen, c.auth, r, c.now, env.h(f.idempotencyKey));
        }
      case DirectUnbind(r) => UnbindReplies(env, s, seen, c.auth, r, c.now);
      case Get(selector, range) =>
        GetStepKeeps(env, s, s, seen, c.auth, selector, range, c.now);
        QuietParts(s, GetStep(env, s, seen, c.auth, selector, range, c.now).store);
      case Resolve(n, p, at, rev) =>
        ResolveStepKeeps(env, s, s, seen, c.auth, n, p, at, rev, c.now);
        QuietParts(s, ResolveStep(env, s, seen, c.auth, n, p, at, rev, c.now).store);
      case List(r) =>
        ListStepKeeps(env, s, s, seen, c.auth, r, c.now);
        QuietParts(s, ListStep(env, s, seen, c.auth, r, c.now).store);
      case Subscribe(r, cursor) =>
        PollStepKeeps(env, s, s, seen, c.auth, r, cursor, c.now);
        QuietParts(s, PollStep(env, s, seen, c.auth, r, cursor, c.now).store);
    }
  }

  lemma {:induction false} ReplyStaysOverRun(env: Env, d: Deployment, run: seq<Call>, m: nat, n: nat, f: Family)
    requires Sound(env, d) && m <= n <= |run| && Answered(env, f, DeploymentAt(env, d, run, m).store)
    requires forall k :: m <= k < n ==> LeavesReply(env, f, run[k])
    ensures var key := env.h(f.idempotencyKey);
            && Answered(env, f, DeploymentAt(env, d, run, n).store)
            && DeploymentAt(env, d, run, n).store.bindReplies[key] == DeploymentAt(env, d, run, m).store.bindReplies[key]
    decreases n
  {
    hide Sound, Evolves, DeploymentAt, After, LeavesReply, FamilyKey;
    if m < n {
      ReplyStaysOverRun(env, d, run, m, n - 1, f);
      RunKeeps(env, d, run, 0, n - 1);
      RunKeeps(env, d, run, n - 1, n);
      DeploymentSteps(env, d, run, n);
      ReplyStays(env, DeploymentAt(env, d, run, n - 1), run[n - 1], f);
      AnsweredStays(env, DeploymentAt(env, d, run, n - 1).store, DeploymentAt(env, d, run, n).store, f);
    }
  }

  /** And every later success repeats the reply of the one that took effect. */
  lemma BindRepliesEqual(env: Env, d: Deployment, run: seq<Call>, i: nat, j: nat, f: Family)
    requires Sound(env, d) && i < j < |run| && MemberCall(f, run[i]) && MemberCall(f, run[j])
    requires Mutates(env, DeploymentAt(env, d, run, i), run[i])
    requires forall k :: i < k < j ==> LeavesReply(env, f, run[k])
    requires BindReplyOf(env, DeploymentAt(env, d, run, j), run[j]).Ok?
    ensures BindReplyOf(env, DeploymentAt(env, d, run, j), run[j]) == BindReplyOf(env, DeploymentAt(env, d, run, i), run[i])
  {
    hide Sound, Evolves, DeploymentAt, After, Mutates, BindReplyOf, MemberCall, LeavesReply, FamilyKey;
    RunKeeps(env, d, run, 0, i);
    RunKeeps(env, d, run, 0, j);
    MemberCallStep(env, DeploymentAt(env, d, run, i), run[i], f);
    DeploymentSteps(env, d, run, i + 1);
    ReplyStaysOverRun(env, d, run, i + 1, j, f);
    MemberCallStep(env, DeploymentAt(env, d, run, j), run[j], f);
  }
}
