/**
 hsp-auth: capability checks, and replay protection by an in-memory cache in
 front of a durable create-if-absent record.
 */
module Policy {
  import opened Basics
  import opened Paths
  import opened Records

  datatype Scope =
    | ReadScope | WriteScope | BindScope | UnbindScope | ListScope | SubscribeScope | PinScope | ReplicateScope
    | AdminMetricsRead | AdminAuditRead | AdminRepair | AdminKeyRotate | AdminPolicyWrite

  datatype Operation =
    | InfoOp | HeadOp | GetOp | ResolveOp | BindOp | UnbindOp | ListOp | SubscribeOp
    | PutInitOp | PutChunkOp | PutCommitOp

  predicate IsMutation(op: Operation) {
    op in {BindOp, UnbindOp, PutInitOp, PutChunkOp, PutCommitOp}
  }

  function OperationName(op: Operation): Text {
    match op
    case InfoOp => Ascii("INFO")
    case HeadOp => Ascii("HEAD")
    case GetOp => Ascii("GET")
    case ResolveOp => Ascii("RESOLVE")
    case BindOp => Ascii("BIND")
    case UnbindOp => Ascii("UNBIND")
    case ListOp => Ascii("LIST")
    case SubscribeOp => Ascii("SUBSCRIBE")
    case PutInitOp => Ascii("PUT_INIT")
    case PutChunkOp => Ascii("PUT_CHUNK")
    case PutCommitOp => Ascii("PUT_COMMIT")
  }

  datatype Claims = Claims(
    expiresAt: nat, notBefore: Option<nat>, jti: Option<Text>, ops: seq<Scope>, tenant: Text,
    namespacePrefix: Option<Text>, pathPrefix: Option<Text>, maxObjectSize: Option<nat>,
    storageClasses: seq<Text>, keyPolicyId: Option<Text>, visibility: Option<Visibility>)

  datatype Auth = Auth(claims: Claims, channelBound: bool)

  datatype Meta = Meta(
    operation: Operation, tenant: Text, subject: Text, namespace: Option<Text>, path: Option<Text>,
    contentSize: Option<nat>, storageClass: Option<Text>, keyPolicyId: Option<Text>, profileId: Option<Text>,
    visibility: Option<Visibility>, idempotencyKey: Option<Text>)

  predicate ScopeAllows(scope: Scope, op: Operation) {
    match op
    case InfoOp => scope == ReadScope
    case HeadOp => scope == ReadScope
    case GetOp => scope == ReadScope
    case ResolveOp => scope == ReadScope
    case BindOp => scope in {BindScope, WriteScope}
    case UnbindOp => scope in {UnbindScope, BindScope, WriteScope}
    case ListOp => scope in {ListScope, ReadScope}
    case SubscribeOp => scope in {SubscribeScope, ReadScope}
    case PutInitOp => scope == WriteScope
    case PutChunkOp => scope == WriteScope
    case PutCommitOp => scope == WriteScope
  }

  predicate NeedsObjectCrypto(op: Operation) {
    op in {PutInitOp, PutChunkOp, PutCommitOp}
  }

  /** PolicyEngine::authorize up to the replay check: the first reason to refuse, if any. */
  function PolicyDenial(auth: Auth, meta: Meta, now: nat): Option<Denial> {
    var c := auth.claims;
    if now > c.expiresAt then Some(ExpiredToken)
    else if c.notBefore.Some? && now < c.notBefore.value then Some(NotYetValid)
    else if c.tenant != meta.tenant then Some(WrongTenant)
    else if !(exists i :: 0 <= i < |c.ops| && ScopeAllows(c.ops[i], meta.operation)) then Some(ScopeNotGranted)
    else if IsMutation(meta.operation) && !auth.channelBound then Some(MissingChannelBinding)
    else if NeedsObjectCrypto(meta.operation) && meta.keyPolicyId.None? then Some(MissingKeyPolicyId)
    else if NeedsObjectCrypto(meta.operation) && meta.profileId.None? then Some(MissingEncryptionProfileId)
    else if IsMutation(meta.operation) && c.jti.None? then Some(MissingJti)
    else if c.keyPolicyId.Some? && meta.keyPolicyId.Some? && meta.keyPolicyId != c.keyPolicyId
    then Some(KeyPolicyMismatch)
    else if c.visibility.Some? && meta.visibility.Some? && meta.visibility != c.visibility
    then Some(VisibilityMismatch)
    else if c.pathPrefix.Some? &&
            (meta.path.None? || !SegmentPrefixMatches(c.pathPrefix.value, meta.path.value))
    then Some(PathScopeMismatch)
    else if c.namespacePrefix.Some? &&
            (meta.namespace.None? || !SegmentPrefixMatches(c.namespacePrefix.value, meta.namespace.value))
    then Some(NamespaceScopeMismatch)
    else if c.maxObjectSize.Some? && meta.contentSize.Some? && meta.contentSize.value > c.maxObjectSize.value
    then Some(TooLarge)
    else if meta.storageClass.Some? && c.storageClasses != [] && meta.storageClass.value !in c.storageClasses
    then Some(StorageClassMismatch)
    else None
  }

  // ------------------------------------------------------------------- replay

  function ReplayKey(tenant: Text, jti: Text, op: Operation, subject: Text): Text {
    tenant + [BAR] + jti + [BAR] + OperationName(op) + [BAR] + subject
  }

  datatype Verdict = Fresh | Retry | Refused

  predicate Accepted(v: Verdict) { v != Refused }

  type Cache = map<Text, Text>

  /** ReplayCache::observe for a mutation. */
  function CacheVerdict(seen: Cache, key: Text, idem: Option<Text>): Verdict {
    if key !in seen then Fresh else if idem == Some(seen[key]) then Retry else Refused
  }

  function CacheAfter(seen: Cache, key: Text, idem: Option<Text>): Cache {
    if key in seen then seen else seen[key := idem.GetOr([])]
  }

  /** The durable record then has the last word: it is created at most once per key. */
  function DurableVerdict(seen: Cache, durable: Cache, key: Text, idem: Option<Text>): Verdict {
    var v := CacheVerdict(seen, key, idem);
    if v == Refused || key !in durable then v
    else if idem == Some(durable[key]) then Retry
    else Refused
  }

  function DurableAfter(seen: Cache, durable: Cache, key: Text, idem: Option<Text>): Cache {
    if CacheVerdict(seen, key, idem) == Refused || key in durable then durable
    else durable[key := idem.GetOr([])]
  }

  /** The in-memory half, which a restart empties. */
  class ReplayCache {
    var seen: Cache

    constructor ()
      ensures seen == map[]
    {
      seen := map[];
    }

    method Observe(key: Text, idem: Option<Text>) returns (v: Verdict)
      modifies this
      ensures v == CacheVerdict(old(seen), key, idem)
      ensures seen == CacheAfter(old(seen), key, idem)
    {
      if key in seen {
        if idem == Some(seen[key]) { return Retry; }
        return Refused;
      }
      seen := seen[key := idem.GetOr([])];
      return Fresh;
    }
  }

  // ------------------------------------------- runs with restarts and instances

  datatype Access = Attempt(instance: nat, key: Text, idem: Option<Text>) | Reboot(instance: nat)

  /** One durable store shared by any number of service instances. */
  datatype System = System(durable: Cache, caches: map<nat, Cache>) {
    function CacheOf(i: nat): Cache { if i in caches then caches[i] else map[] }
  }

  function Verdicts(s: System, a: Access): Verdict {
    match a
    case Reboot(_) => Refused
    case Attempt(i, key, idem) => DurableVerdict(s.CacheOf(i), s.durable, key, idem)
  }

  function Next(s: System, a: Access): System {
    match a
    case Reboot(i) => s.(caches := s.caches[i := map[]])
    case Attempt(i, key, idem) =>
      System(DurableAfter(s.CacheOf(i), s.durable, key, idem),
             s.caches[i := CacheAfter(s.CacheOf(i), key, idem)])
  }

  /** The state in which the n-th action of a run happens. */
  function StateAt(s: System, run: seq<Access>, n: nat): System
    requires n <= |run|
  {
    if n == 0 then s else Next(StateAt(s, run, n - 1), run[n - 1])
  }

  /** Nothing is cached that is not also durable. */
  ghost predicate CachesBacked(s: System) {
    forall i, k :: i in s.caches && k in s.caches[i] ==> k in s.durable
  }

  lemma NextBacked(s: System, a: Access)
    requires CachesBacked(s)
    ensures CachesBacked(Next(s, a))
    ensures forall k :: k in s.durable ==> k in Next(s, a).durable && Next(s, a).durable[k] == s.durable[k]
  {
  }

  lemma {:induction false} RunBacked(s: System, run: seq<Access>, m: nat, n: nat)
    requires CachesBacked(s) && m <= n <= |run|
    ensures CachesBacked(StateAt(s, run, n))
    ensures forall k :: k in StateAt(s, run, m).durable ==>
              k in StateAt(s, run, n).durable && StateAt(s, run, n).durable[k] == StateAt(s, run, m).durable[k]
    decreases n
  {
    if n > 0 {
      RunBacked(s, run, 0, n - 1);
      NextBacked(StateAt(s, run, n - 1), run[n - 1]);
      if m < n { RunBacked(s, run, m, n - 1); }
    }
  }

  /** An accepted attempt leaves a durable record holding its idempotency key, and is Fresh only without one. */
  lemma AcceptedRecorded(s: System, a: Access)
    requires CachesBacked(s) && a.Attempt? && Accepted(Verdicts(s, a))
    ensures a.key in Next(s, a).durable && Next(s, a).durable[a.key] == a.idem.GetOr([])
    ensures Verdicts(s, a) == Fresh <==> a.key !in s.durable
    ensures a.key in s.durable ==> a.idem == Some(s.durable[a.key])
  {
    if a.instance in s.caches && a.key in s.caches[a.instance] { assert a.key in s.durable; }
  }

  /**
   Over any run, with any restarts and any number of instances: of the accepted
   attempts with one replay key only the first can be Fresh, and every later
   one states the idempotency key that the first one left.
   */
  lemma FreshAtMostOnce(s: System, run: seq<Access>, i: nat, j: nat)
    requires CachesBacked(s) && i < j < |run|
    requires run[i].Attempt? && run[j].Attempt? && run[i].key == run[j].key
    requires Accepted(Verdicts(StateAt(s, run, i), run[i])) && Accepted(Verdicts(StateAt(s, run, j), run[j]))
    ensures Verdicts(StateAt(s, run, j), run[j]) == Retry
    ensures run[j].idem == Some(run[i].idem.GetOr([]))
  {
    RunBacked(s, run, 0, i);
    RunBacked(s, run, i + 1, j);
    AcceptedRecorded(StateAt(s, run, i), run[i]);
    AcceptedRecorded(StateAt(s, run, j), run[j]);
  }

  /**
   The recorded idempotency key is accepted by exactly those instances that have
   not cached another one: a refused attempt leaves its own key in the cache.
   */
  lemma RecordedKeyAcceptedIff(s: System, i: nat, key: Text)
    requires CachesBacked(s) && key in s.durable
    ensures Accepted(Verdicts(s, Attempt(i, key, Some(s.durable[key])))) <==>
            key !in s.CacheOf(i) || s.CacheOf(i)[key] == s.durable[key]
    ensures forall idem :: Accepted(Verdicts(s, Attempt(i, key, idem))) ==> idem == Some(s.durable[key])
    ensures forall idem :: key !in s.CacheOf(i) ==>
              Next(s, Attempt(i, key, idem)).CacheOf(i)[key] == idem.GetOr([])
  {
  }

  /** The two halves can disagree for ever: an instance that cached a refused key refuses the right one too. */
  lemma CacheMayHoldAnotherKey(key: Text, first: Text, second: Text)
    requires first != second
    ensures var run := [Attempt(0, key, Some(first)), Attempt(1, key, Some(second)), Attempt(1, key, Some(first)),
                        Attempt(0, key, Some(first))];
            var s := System(map[], map[]);
            && Verdicts(StateAt(s, run, 0), run[0]) == Fresh
            && Verdicts(StateAt(s, run, 1), run[1]) == Refused
            && StateAt(s, run, 2).caches[1][key] != StateAt(s, run, 2).durable[key]
            && Verdicts(StateAt(s, run, 2), run[2]) == Refused
            && Verdicts(StateAt(s, run, 3), run[3]) == Retry
  {
    var run := [Attempt(0, key, Some(first)), Attempt(1, key, Some(second)), Attempt(1, key, Some(first)),
                Attempt(0, key, Some(first))];
    var s := System(map[], map[]);
    var s1 := StateAt(s, run, 1);
    assert StateAt(s, run, 0) == s;
    assert s1 == Next(s, run[0]) == System(map[key := first], map[0 := map[key := first]]);
    var s2 := StateAt(s, run, 2);
    assert s2 == Next(s1, run[1]);
    assert s2.durable == s1.durable && s2.caches[1] == map[key := second];
    assert StateAt(s, run, 3) == Next(s2, run[2]) && StateAt(s, run, 3).CacheOf(0) == map[key := first];
  }
}
