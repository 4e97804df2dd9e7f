/**
 hsp-cdn: a cache in front of the distribution service. Entries are kept by CID
 or by bucket and key, only CID entries are served from, and namespace events
 remove the others.
 */
module Cdn {
  import opened Basics
  import opened Records
  import opened Reading
  import opened Namespaces
  import opened Policy
  import opened Service
  import opened ServiceInvariants
  import opened Distribution
  import Events

  /** The hash and signature check of every tenant's service, decryption at the edge, and the two lifetimes. */
  datatype CdnEnv = CdnEnv(
    h: Hash, verify: Text -> Option<MutationRecord>, open: (Manifest, Text) -> Result<Text>, immutableTtl: nat,
    namespaceTtl: nat)

  function EnvOf(c: CdnEnv, tenant: Text): Env { Env(tenant, c.h, c.verify) }

  datatype Cached = Cached(
    body: Text, contentType: Text, etag: Text, cacheControl: Text, contentLength: nat, expiresAt: nat)

  /** get_object's answer; `partial` when it has a content range. */
  datatype Origin = Origin(
    body: Text, contentType: Text, etag: Text, cacheControl: Text, contentLength: nat, partial: bool)

  datatype Response = Response(
    body: Text, contentType: Text, etag: Text, cacheControl: Text, contentLength: nat, hit: bool)

  // ------------------------------------------------------------------------- keys

  function Mode(plaintext: bool): Text { if plaintext then Ascii("plaintext") else Ascii("ciphertext") }

  function CidKey(tenant: Text, cid: Text, plaintext: bool): Text {
    Ascii("cid:") + tenant + [COLON] + Mode(plaintext) + [COLON] + cid
  }

  function NamespaceKey(tenant: Text, bucket: Text, key: Text, plaintext: bool): Text {
    Ascii("ns:") + tenant + [COLON] + Mode(plaintext) + [COLON] + bucket + [SLASH] + key
  }

  /** What follows the last colon is determined by the text. */
  lemma LastColon(a: Text, b: Text, x: Text, y: Text)
    requires a + [COLON] + b == x + [COLON] + y && COLON !in b && COLON !in y
    ensures a == x && b == y
  {
    var s := a + [COLON] + b;
    assert s[|a|] == COLON && s[|x|] == COLON;
    assert forall i :: |a| < i < |s| ==> s[i] == b[i - |a| - 1];
    assert forall i :: |x| < i < |s| ==> s[i] == y[i - |x| - 1];
    assert s[..|a|] == a && s[..|x|] == x;
    assert s[|a| + 1..] == b && s[|x| + 1..] == y;
  }

  lemma ModeHasNoColon(plaintext: bool)
    ensures COLON !in Mode(plaintext)
  {
    forall i | 0 <= i < |Mode(plaintext)| ensures Mode(plaintext)[i] != COLON { }
  }

  /** Keys of different tenants, modes or CIDs differ, as long as CIDs hold no colon. */
  lemma CidKeyInjective(tenant: Text, cid: Text, plaintext: bool, tenant': Text, cid': Text, plaintext': bool)
    requires COLON !in cid && COLON !in cid'
    ensures CidKey(tenant, cid, plaintext) == CidKey(tenant', cid', plaintext') <==>
            (tenant, cid, plaintext) == (tenant', cid', plaintext')
  {
    if CidKey(tenant, cid, plaintext) == CidKey(tenant', cid', plaintext') {
      var pre := Ascii("cid:");
      var a, x := pre + tenant, pre + tenant';
      LastColon(a + [COLON] + Mode(plaintext), cid, x + [COLON] + Mode(plaintext'), cid');
      ModeHasNoColon(plaintext);
      ModeHasNoColon(plaintext');
      LastColon(a, Mode(plaintext), x, Mode(plaintext'));
      assert a[|pre|..] == tenant && x[|pre|..] == tenant';
      assert |Mode(plaintext)| == |Mode(plaintext')|;
    }
  }

  /** With colons in CIDs they collide: the tenant's end and the CID's beginning cannot be told apart. */
  lemma CidKeysCollide(tenant: Text, a: Text, b: Text)
    ensures var infix := [COLON] + Mode(false) + [COLON];
            CidKey(tenant, a + infix + b, false) == CidKey(tenant + infix + a, b, false)
  {
    hide Ascii, Mode;
    var pre, m := Ascii("cid:"), Mode(false);
    var infix := [COLON] + m + [COLON];
    KeyGroups(pre, tenant, m, a + infix + b);
    KeyGroups(pre, tenant + infix + a, m, b);
    assert pre + tenant + infix + (a + infix + b) == pre + (tenant + infix + a) + infix + b;
  }

  lemma KeyGroups(pre: Text, tenant: Text, mode: Text, cid: Text)
    ensures pre + tenant + [COLON] + mode + [COLON] + cid == pre + tenant + ([COLON] + mode + [COLON]) + cid
  {
    assert pre + tenant + [COLON] + mode + [COLON] == pre + tenant + ([COLON] + mode + [COLON]);
  }

  /** What precedes the first of a byte is determined by the text. */
  lemma FirstOf(sep: byte, a: Text, b: Text, x: Text, y: Text)
    requires a + [sep] + b == x + [sep] + y && sep !in a && sep !in x
    ensures a == x && b == y
  {
    var s := a + [sep] + b;
    assert s[|a|] == sep && s[|x|] == sep;
    assert forall i :: 0 <= i < |a| ==> s[i] == a[i];
    assert forall i :: 0 <= i < |x| ==> s[i] == x[i];
    assert s[..|a|] == a && s[..|x|] == x;
    assert s[|a| + 1..] == b && s[|x| + 1..] == y;
  }

  /** Keys by name differ for different tenants, modes, buckets or keys, when tenants hold no colon and buckets no slash. */
  lemma NamespaceKeyInjective(
    t: Text, b: Text, k: Text, plaintext: bool, t': Text, b': Text, k': Text, plaintext': bool)
    requires COLON !in t && COLON !in t' && SLASH !in b && SLASH !in b'
    ensures NamespaceKey(t, b, k, plaintext) == NamespaceKey(t', b', k', plaintext') <==>
            (t, b, k, plaintext) == (t', b', k', plaintext')
  {
    if NamespaceKey(t, b, k, plaintext) == NamespaceKey(t', b', k', plaintext') {
      NamespaceKeyParts(t, b, k, plaintext);
      NamespaceKeyParts(t', b', k', plaintext');
      ModeHasNoColon(plaintext);
      ModeHasNoColon(plaintext');
      hide NamespaceKey, Mode;
      var n, n' := b + [SLASH] + k, b' + [SLASH] + k';
      FirstOf(COLON, t, Mode(plaintext) + [COLON] + n, t', Mode(plaintext') + [COLON] + n');
      FirstOf(COLON, Mode(plaintext), n, Mode(plaintext'), n');
      FirstOf(SLASH, b, k, b', k');
      ModesDiffer(plaintext, plaintext');
    }
  }

  lemma NamespaceKeyParts(t: Text, b: Text, k: Text, plaintext: bool)
    ensures |NamespaceKey(t, b, k, plaintext)| >= 3
    ensures NamespaceKey(t, b, k, plaintext)[3..] == t + [COLON] + (Mode(plaintext) + [COLON] + (b + [SLASH] + k))
  {
    hide Mode;
    var rest := t + [COLON] + (Mode(plaintext) + [COLON] + (b + [SLASH] + k));
    assert NamespaceKey(t, b, k, plaintext) == Ascii("ns:") + rest;
  }

  lemma ModesDiffer(a: bool, b: bool)
    ensures Mode(a) == Mode(b) ==> a == b
  {
    assert |Mode(true)| == 9 && |Mode(false)| == 10;
  }

  lemma RoutesDisjoint(tenant: Text, cid: Text, plaintext: bool, tenant': Text, bucket: Text, key: Text, plaintext': bool)
    ensures CidKey(tenant, cid, plaintext) != NamespaceKey(tenant', bucket, key, plaintext')
  {
    assert CidKey(tenant, cid, plaintext)[0] == 0x63;
    assert NamespaceKey(tenant', bucket, key, plaintext')[0] == 0x6E;
  }

  // --------------------------------------------------------------- cache control

  function Directives(t: Text): (d: seq<Text>)
    ensures |d| >= 1
  {
    if t == [] then [[]]
    else if t[0] == COMMA then [[]] + Directives(t[1..])
    else var rest := Directives(t[1..]); [[t[0]] + rest[0]] + rest[1..]
  }

  /** The directive, trimmed, is "no-store" in any case. */
  predicate IsNoStore(d: Text) {
    var name := Ascii("no-store");
    exists i :: 0 <= i && i + |name| <= |d| && Blank(d[..i]) && Blank(d[i + |name|..]) &&
      SameIgnoringCase(d[i..i + |name|], name)
  }

  predicate IsCacheable(cacheControl: Text) {
    var d := Directives(cacheControl);
    !exists i :: 0 <= i < |d| && IsNoStore(d[i])
  }

  const NO_STORE: Text := Ascii("private, no-store")

  // ------------------------------------------------------------------ the origin

  function CacheControl(c: CdnEnv, immutable: bool): Text {
    if immutable then Ascii("public, max-age=") + Decimal(c.immutableTtl) + Ascii(", immutable")
    else Ascii("private, max-age=") + Decimal(c.namespaceTtl)
  }

  /** get_object once its checks have passed and the manifest is known. */
  function ReadObject(c: CdnEnv, s: Store, cid: Text, plaintext: bool, range: Option<Range>, immutable: bool): Result<Origin> {
    if cid !in s.manifests then Err(ManifestNotFound)
    else if range.Some? && range.value.start > range.value.end then Err(InvalidRange)
    else
      var record := s.manifests[cid];
      var r := ReadRecord(s, record, range);
      if r.Err? then Err(r.error) else
        var body := Body(r.value.fragments);
        var m := record.manifest;
        if !plaintext then
          Ok(Origin(body, m.contentType, record.objectCid, CacheControl(c, immutable), m.storedSize, range.Some?))
        else if range.Some? then Err(UnsupportedPreference)
        else
          var plain := c.open(m, body);
          if plain.Err? then Err(plain.error)
          else Ok(Origin(plain.value, m.contentType, record.objectCid, NO_STORE, |plain.value|, false))
  }

  /** A read by CID, with the binding that a scoped token must prove; `refusal` is the outcome of the access checks. */
  function FetchCid(
    c: CdnEnv, s: Store, cid: Text, binding: Option<(Text, Text)>, plaintext: bool, range: Option<Range>,
    refusal: Option<ApiError>): Result<Origin>
  {
    if refusal.Some? then Err(refusal.value)
    else if binding.None? then ReadObject(c, s, cid, plaintext, range, true)
    else
      var where := Canonical(binding.value.0, binding.value.1);
      if where.Err? then Err(where.error) else
        var bindings := NamespaceOf(s, where.value.0).bindings;
        if where.value.1 !in bindings then Err(ObjectNotFound) else
          var b := bindings[where.value.1];
          if b.target != Some(cid) && b.manifest != Some(cid) then Err(CidBindingMismatch)
          else if b.tombstone then Err(PathTombstoned)
          else if b.manifest.None? then Err(PathNotBound)
          else ReadObject(c, s, b.manifest.value, plaintext, range, true)
  }

  function FetchKey(
    c: CdnEnv, s: Store, bucket: Text, key: Text, plaintext: bool, range: Option<Range>, refusal: Option<ApiError>)
    : Result<Origin>
  {
    if refusal.Some? then Err(refusal.value) else
      var res := ResolveSelector(s, ByPath(bucket, key));
      if res.Err? then Err(ObjectError(res.error))
      else if res.value.manifestCid !in s.manifests then Err(ObjectNotFound)
      else ReadObject(c, s, res.value.manifestCid, plaintext, range, false)
  }

  // ------------------------------------------------------------------- the cache

  type Entries = map<Text, Cached>

  predicate IsHit(cache: Entries, key: Text, allowHit: bool, now: nat) {
    allowHit && key in cache && cache[key].expiresAt >= now
  }

  function FromCache(e: Cached, head: bool): Response {
    Response(if head then [] else e.body, e.contentType, e.etag, e.cacheControl, e.contentLength, true)
  }

  function FromOrigin(o: Origin, head: bool): Response {
    Response(if head then [] else o.body, o.contentType, o.etag, o.cacheControl, |o.body|, false)
  }

  function Entry(o: Origin, ttl: nat, now: nat): Cached {
    Cached(o.body, o.contentType, o.etag, o.cacheControl, o.contentLength, SatAdd(now, ttl * 1000))
  }

  predicate Storable(o: Origin) { !o.partial && IsCacheable(o.cacheControl) }

  /** What serve_cached_object answers and leaves in the cache. */
  function Served(cache: Entries, key: Text, ttl: nat, allowHit: bool, head: bool, origin: Result<Origin>, now: nat)
    : (Entries, Result<Response>)
  {
    if IsHit(cache, key, allowHit, now) then (cache, Ok(FromCache(cache[key], head)))
    else if origin.Err? then (cache, Err(origin.error))
    else (if Storable(origin.value) then cache[key := Entry(origin.value, ttl, now)] else cache,
          Ok(FromOrigin(origin.value, head)))
  }

  predicate Invalidates(t: Events.EventType) {
    t in {Events.NamespaceBound, Events.NamespaceUnbound, Events.NamespaceTombstoned, Events.ObjectCommitted}
  }

  /** The event says that the object behind this namespace key has changed. */
  predicate Announces(tenant: Text, e: Events.EventRecord, key: Text) {
    && Invalidates(e.eventType) && e.namespace.Some? && e.path.Some?
    && exists plaintext :: key == NamespaceKey(tenant, e.namespace.value, e.path.value, plaintext)
  }

  function AfterEvent(cache: Entries, tenant: Text, e: Events.EventRecord): Entries {
    if Invalidates(e.eventType) && e.namespace.Some? && e.path.Some?
    then cache - {NamespaceKey(tenant, e.namespace.value, e.path.value, false),
                  NamespaceKey(tenant, e.namespace.value, e.path.value, true)}
    else cache
  }

  /** The shared cache that the request handlers and the invalidation worker update. */
  class CdnCache {
    var cache: Entries

    constructor ()
      ensures cache == map[]
    {
      cache := map[];
    }

    method ServeCachedObject(key: Text, ttl: nat, allowHit: bool, head: bool, origin: Result<Origin>, now: nat)
      returns (r: Result<Response>)
      modifies this
      ensures (cache, r) == Served(old(cache), key, ttl, allowHit, head, origin, now)
    {
      if allowHit && key in cache {
        var entry := cache[key];
        if entry.expiresAt >= now { return Ok(FromCache(entry, head)); }
      }
      if origin.Err? { return Err(origin.error); }
      r := Ok(FromOrigin(origin.value, head));
      if !origin.value.partial && IsCacheable(origin.value.cacheControl) {
        cache := cache[key := Entry(origin.value, ttl, now)];
      }
    }

    method ApplyEventInvalidation(tenant: Text, e: Events.EventRecord)
      modifies this
      ensures forall k :: k in cache <==> k in old(cache) && !Announces(tenant, e, k)
      ensures forall k :: k in cache ==> cache[k] == old(cache)[k]
      ensures cache == AfterEvent(old(cache), tenant, e)
    {
      hide NamespaceKey;
      if Invalidates(e.eventType) && e.namespace.Some? && e.path.Some? {
        cache := cache - {NamespaceKey(tenant, e.namespace.value, e.path.value, false)};
        cache := cache - {NamespaceKey(tenant, e.namespace.value, e.path.value, true)};
      }
    }

    /** The worker's batch of events, in order. */
    method ApplyBatch(tenant: Text, events: seq<Events.EventRecord>)
      modifies this
      ensures forall k :: k in cache <==> k in old(cache) && !AnyAnnounces(tenant, events, k)
      ensures forall k :: k in cache ==> cache[k] == old(cache)[k]
      ensures cache == AfterEvents(old(cache), tenant, events)
    {
      hide NamespaceKey, Announces;
      forall k ensures k in AfterEvents(cache, tenant, events) <==> k in cache && !AnyAnnounces(tenant, events, k) {
        AfterEventsExact(cache, tenant, events, k);
      }
      forall k | k in AfterEvents(cache, tenant, events) ensures AfterEvents(cache, tenant, events)[k] == cache[k] {
        AfterEventsExact(cache, tenant, events, k);
      }
      var i := 0;
      assert events[0..] == events;
      while i < |events|
        invariant 0 <= i <= |events|
        invariant AfterEvents(cache, tenant, events[i..]) == AfterEvents(old(cache), tenant, events)
      {
        assert events[i..][1..] == events[i + 1..];
        ApplyEventInvalidation(tenant, events[i]);
        i := i + 1;
      }
    }
  }

  predicate AnyAnnounces(tenant: Text, events: seq<Events.EventRecord>, key: Text) {
    exists i :: 0 <= i < |events| && Announces(tenant, events[i], key)
  }

  lemma AfterEventExact(cache: Entries, tenant: Text, e: Events.EventRecord, k: Text)
    ensures k in AfterEvent(cache, tenant, e) <==> k in cache && !Announces(tenant, e, k)
    ensures k in AfterEvent(cache, tenant, e) ==> AfterEvent(cache, tenant, e)[k] == cache[k]
  {
    hide NamespaceKey;
  }

  /** A batch of events removes exactly the namespace entries of the paths it names and leaves the others as they are. */
  lemma {:induction false} AfterEventsExact(cache: Entries, tenant: Text, events: seq<Events.EventRecord>, k: Text)
    ensures k in AfterEvents(cache, tenant, events) <==> k in cache && !AnyAnnounces(tenant, events, k)
    ensures k in AfterEvents(cache, tenant, events) ==> AfterEvents(cache, tenant, events)[k] == cache[k]
    decreases |events|
  {
    hide Announces, AfterEvent;
    if events != [] {
      AfterEventExact(cache, tenant, events[0], k);
      AfterEventsExact(AfterEvent(cache, tenant, events[0]), tenant, events[1..], k);
      assert forall i :: 1 <= i < |events| ==> events[i] == events[1..][i - 1];
      assert forall i :: 0 <= i < |events| - 1 ==> events[1..][i] == events[i + 1];
    }
  }

  /** Entries by CID survive every event. */
  lemma CidEntriesSurvive(
    cache: Entries, tenant: Text, events: seq<Events.EventRecord>, owner: Text, cid: Text, plaintext: bool)
    ensures var k := CidKey(owner, cid, plaintext);
            && (k in AfterEvents(cache, tenant, events) <==> k in cache)
            && (k in cache ==> AfterEvents(cache, tenant, events)[k] == cache[k])
  {
    hide CidKey, NamespaceKey;
    var k := CidKey(owner, cid, plaintext);
    forall i | 0 <= i < |events| ensures !Announces(tenant, events[i], k) {
      if Announces(tenant, events[i], k) {
        var p :| k == NamespaceKey(tenant, events[i].namespace.value, events[i].path.value, p);
        RoutesDisjoint(owner, cid, plaintext, tenant, events[i].namespace.value, events[i].path.value, p);
      }
    }
    AfterEventsExact(cache, tenant, events, k);
  }

  // ------------------------------------------------------------- the invalidation worker

  /** The worker's one filter accepts every event. */
  const EVERYTHING: Events.Filter := Events.Filter(None, None, None, None, None)

  const WORKER_BATCH: nat := 128

  /** One round of the worker: the cache and the log as it finds them. */
  datatype Round = Round(cache: Entries, log: Events.Log)

  function RoundPoll(r: Round, cursor: nat): Events.PollResult {
    Events.Poll(r.log, [EVERYTHING], cursor, WORKER_BATCH)
  }

  function RoundLeaves(r: Round, tenant: Text, cursor: nat): Entries {
    AfterEvents(r.cache, tenant, RoundPoll(r, cursor).delivered)
  }

  /** Where the worker's cursor stands after all rounds, and the cache it leaves. */
  function WorkerRuns(rounds: seq<Round>, tenant: Text, cursor: nat): (Entries, nat)
    requires rounds != []
    decreases |rounds|
  {
    var next := RoundPoll(rounds[0], cursor).cursor;
    if |rounds| == 1 then (RoundLeaves(rounds[0], tenant, cursor), next) else WorkerRuns(rounds[1..], tenant, next)
  }

  /** Between its rounds nobody stores this entry again. */
  ghost predicate NotStoredAgain(rounds: seq<Round>, tenant: Text, cursor: nat, k: Text)
    requires rounds != []
    decreases |rounds|
  {
    |rounds| == 1 ||
    ((k in rounds[1].cache ==> k in RoundLeaves(rounds[0], tenant, cursor)) &&
     NotStoredAgain(rounds[1..], tenant, RoundPoll(rounds[0], cursor).cursor, k))
  }

  ghost predicate LogsGrowTo(rounds: seq<Round>, last: Events.Log) {
    && Events.LogInv(last)
    && forall i :: 0 <= i < |rounds| ==> Events.LogInv(rounds[i].log) && Events.Grown(rounds[i].log, last)
  }

  lemma {:induction false} MatchingHolds(log: Events.Log, filters: seq<Events.Filter>, from: nat, to: nat, n: nat)
    requires from <= n < to && n in log.records && Events.Matches(filters, log.records[n])
    ensures log.records[n] in Events.Matching(log, filters, from, to)
    decreases SatSub(to, from)
  {
    hide Events.Matches;
    if from < n { MatchingHolds(log, filters, from + 1, to, n); }
  }

  /** A round whose cursor passes the event removes the entry. */
  lemma RoundClears(r: Round, last: Events.Log, tenant: Text, cursor: nat, n: nat, k: Text)
    requires Events.LogInv(r.log) && Events.LogInv(last) && Events.Grown(r.log, last)
    requires n in last.records && Announces(tenant, last.records[n], k) && cursor <= n < RoundPoll(r, cursor).cursor
    ensures k !in RoundLeaves(r, tenant, cursor)
  {
    hide Announces, Events.Poll, AfterEvents;
    var d := RoundPoll(r, cursor).delivered;
    Events.PollExact(r.log, [EVERYTHING], cursor, WORKER_BATCH);
    assert n in r.log.records && r.log.records[n] == last.records[n];
    assert Events.FilterAccepts([EVERYTHING][0], r.log.records[n]);
    MatchingHolds(r.log, [EVERYTHING], cursor, RoundPoll(r, cursor).cursor, n);
    var i :| 0 <= i < |d| && d[i] == r.log.records[n];
    AfterEventsExact(r.cache, tenant, d, k);
  }

  lemma {:induction false} StaysOut(rounds: seq<Round>, tenant: Text, cursor: nat, k: Text)
    requires rounds != [] && NotStoredAgain(rounds, tenant, cursor, k) && k !in rounds[0].cache
    ensures k !in WorkerRuns(rounds, tenant, cursor).0
    decreases |rounds|
  {
    hide RoundPoll, AfterEvents;
    AfterEventsExact(rounds[0].cache, tenant, RoundPoll(rounds[0], cursor).delivered, k);
    if |rounds| > 1 { StaysOut(rounds[1..], tenant, RoundPoll(rounds[0], cursor).cursor, k); }
  }

  /**
   Once the worker's cursor has passed the event of a change, no namespace entry
   from before the change is left, whatever else was cached or logged meanwhile.
   */
  lemma {:induction false} WorkerClears(
    rounds: seq<Round>, last: Events.Log, tenant: Text, cursor: nat, n: nat, k: Text)
    requires rounds != [] && LogsGrowTo(rounds, last) && NotStoredAgain(rounds, tenant, cursor, k)
    requires n in last.records && Announces(tenant, last.records[n], k)
    requires cursor <= n < WorkerRuns(rounds, tenant, cursor).1
    ensures k !in WorkerRuns(rounds, tenant, cursor).0
    decreases |rounds|
  {
    hide RoundPoll, RoundLeaves, Announces, Events.LogInv, Events.Grown;
    var next := RoundPoll(rounds[0], cursor).cursor;
    if n < next {
      RoundClears(rounds[0], last, tenant, cursor, n, k);
      if |rounds| > 1 { StaysOut(rounds[1..], tenant, next, k); }
    } else {
      WorkerClears(rounds[1..], last, tenant, next, n, k);
    }
  }

  /** Every bind that changes a namespace is announced to the worker by the next event. */
  lemma BindAnnounced(
    env: Env, s: Store, seen: Cache, auth: Auth, r: BindRequest, now: nat, direct: bool, plaintext: bool)
    requires BindStep(env, s, seen, auth, r, now, direct).store.namespaces != s.namespaces
    ensures Canonical(r.namespace, r.path).Ok?
    ensures var log := BindStep(env, s, seen, auth, r, now, direct).store.log;
            var where := Canonical(r.namespace, r.path).value;
            && s.log.next in log.records
            && Announces(env.tenant, log.records[s.log.next], NamespaceKey(env.tenant, where.0, where.1, plaintext))
  {
    hide Authorize, Canonical, VerifyBind, BindRefusal, Bind, RecordCid, NamespaceOf, Quiet, NamespaceKey;
    var (name, path) := Canonical(r.namespace, r.path).value;
    var meta := MutationMeta(env, BindOp, name, path, r.idempotencyKey);
    AuthorizeQuiet(s, seen, auth, meta, now);
    QuietNamespaces(s, Authorize(s, seen, auth, meta, now).store);
    if Authorize(s, seen, auth, meta, now).reply.Ok? { GrantedLogsNothing(s, seen, auth, meta, now); }
  }

  /** And so is every unbind. */
  lemma UnbindAnnounced(env: Env, s: Store, seen: Cache, auth: Auth, r: UnbindRequest, now: nat, plaintext: bool)
    requires UnbindStep(env, s, seen, auth, r, now).store.namespaces != s.namespaces
    ensures Canonical(r.namespace, r.path).Ok?
    ensures var log := UnbindStep(env, s, seen, auth, r, now).store.log;
            var where := Canonical(r.namespace, r.path).value;
            && s.log.next in log.records
            && Announces(env.tenant, log.records[s.log.next], NamespaceKey(env.tenant, where.0, where.1, plaintext))
  {
    hide Authorize, Canonical, VerifyUnbind, UnbindRefusal, Unbind, RecordCid, NamespaceOf, Quiet, NamespaceKey;
    var (name, path) := Canonical(r.namespace, r.path).value;
    var meta := MutationMeta(env, UnbindOp, name, path, r.idempotencyKey);
    AuthorizeQuiet(s, seen, auth, meta, now);
    QuietNamespaces(s, Authorize(s, seen, auth, meta, now).store);
    if Authorize(s, seen, auth, meta, now).reply.Ok? { GrantedLogsNothing(s, seen, auth, meta, now); }
  }

  lemma QuietNamespaces(s: Store, s': Store)
    requires Quiet(s, s')
    ensures s'.namespaces == s.namespaces
  {
  }

  /** A worker without a cursor asks for the log from its beginning, which the service grants exactly for short logs. */
  lemma WorkerStartsIff(log: Events.Log, tenant: Text)
    ensures Events.StartAt(log, tenant, None, Some(0)).Ok? <==> log.next <= Events.REPLAY_WINDOW
  {
  }

  function AfterEvents(cache: Entries, tenant: Text, events: seq<Events.EventRecord>): Entries
    decreases |events|
  {
    if events == [] then cache else AfterEvents(AfterEvent(cache, tenant, events[0]), tenant, events[1..])
  }

  // ------------------------------------------------------------------------ runs

  /** The cache, and every tenant's store behind it. */
  datatype World = World(cache: Entries, stores: map<Text, Store>) {
    function StoreOf(tenant: Text): Store { if tenant in stores then stores[tenant] else EMPTY_STORE }
  }

  datatype Happening =
    | CidGet(tenant: Text, cid: Text, binding: Option<(Text, Text)>, plaintext: bool, range: Option<Range>,
             refusal: Option<ApiError>, head: bool, now: nat)
    | KeyGet(tenant: Text, bucket: Text, key: Text, plaintext: bool, range: Option<Range>, refusal: Option<ApiError>,
             head: bool, now: nat)
    | Invalidation(tenant: Text, event: Events.EventRecord)
    | Backend(tenant: Text, store: Store)

  /** The answer to a request by CID: a hit is allowed without a range. */
  function CidServed(c: CdnEnv, w: World, e: Happening): (Entries, Result<Response>)
    requires e.CidGet?
  {
    Served(w.cache, CidKey(e.tenant, e.cid, e.plaintext), c.immutableTtl, e.range.None?, e.head,
           FetchCid(c, w.StoreOf(e.tenant), e.cid, e.binding, e.plaintext, e.range, e.refusal), e.now)
  }

  /** The answer to a request by bucket and key: never from the cache. */
  function KeyServed(c: CdnEnv, w: World, e: Happening): (Entries, Result<Response>)
    requires e.KeyGet?
  {
    Served(w.cache, NamespaceKey(e.tenant, e.bucket, e.key, e.plaintext), c.namespaceTtl, false, e.head,
           FetchKey(c, w.StoreOf(e.tenant), e.bucket, e.key, e.plaintext, e.range, e.refusal), e.now)
  }

  function Next(c: CdnEnv, w: World, e: Happening): World {
    match e
    case CidGet(_, _, _, _, _, _, _, _) => w.(cache := CidServed(c, w, e).0)
    case KeyGet(_, _, _, _, _, _, _, _) => w.(cache := KeyServed(c, w, e).0)
    case Invalidation(tenant, event) => w.(cache := AfterEvent(w.cache, tenant, event))
    case Backend(tenant, store) => w.(stores := w.stores[tenant := store])
  }

  function WorldAt(c: CdnEnv, w: World, run: seq<Happening>, n: nat): World
    requires n <= |run|
  {
    if n == 0 then w else Next(c, WorldAt(c, w, run, n - 1), run[n - 1])
  }

  /** Whatever the service does meanwhile, it keeps its invariant and only evolves. */
  ghost predicate Possible(c: CdnEnv, w: World, e: Happening) {
    e.Backend? ==> StoreInv(EnvOf(c, e.tenant), e.store) && Evolves(w.StoreOf(e.tenant), e.store)
  }

  ghost predicate StoresOk(c: CdnEnv, w: World) {
    forall tenant :: tenant in w.stores ==> StoreInv(EnvOf(c, tenant), w.stores[tenant])
  }

  ghost predicate ColonFree(h: Hash) { forall x :: COLON !in h(x) }

  // ------------------------------------------------------------------ the invariant

  /** The whole object of a manifest whose chunks are stored. */
  function Whole(chunks: map<Text, Text>, m: Manifest): Result<Text> {
    var f := Fragments(chunks, m.chunkRefs, 0, SatSub(m.logicalSize, 1));
    if f.Err? then Err(f.error) else Ok(Body(f.value))
  }

  /** The entry holds this manifest's whole object. */
  ghost predicate Holds(e: Cached, h: Hash, chunks: map<Text, Text>, cid: Text, m: WireManifest) {
    && ManifestCid(h, m) == cid && AllPresent(chunks, m.chunkRefs)
    && Whole(chunks, m) == Ok(e.body)
    && e.etag == cid && e.contentType == m.contentType && e.contentLength == m.storedSize
  }

  ghost predicate EntryOk(e: Cached, h: Hash, chunks: map<Text, Text>, cid: Text) {
    exists m: WireManifest :: Holds(e, h, chunks, cid, m)
  }

  /** Ciphertext entries hold the object of their tenant and CID; there are no plaintext ones. */
  ghost predicate CacheOk(c: CdnEnv, w: World) {
    forall tenant, cid :: COLON !in cid ==>
      && CidKey(tenant, cid, true) !in w.cache
      && (CidKey(tenant, cid, false) in w.cache ==>
            EntryOk(w.cache[CidKey(tenant, cid, false)], c.h, w.StoreOf(tenant).chunks, cid))
  }

  lemma NoStoreRecognised()
    ensures IsNoStore(Ascii(" no-store"))
  {
    var d := Ascii(" no-store");
    var name := Ascii("no-store");
    assert d[..1] == [32] && d[1..1 + |name|] == name && d[1 + |name|..] == [];
    assert Blank([]);
    assert LeadingSpace([32]) == 1 && [32][1..] == [];
    assert Blank([32]);
  }

  lemma NoStoreNotCacheable()
    ensures !IsCacheable(NO_STORE)
  {
    hide Directives, IsNoStore;
    var pre, d := Ascii("private"), Ascii(" no-store");
    NoStoreRecognised();
    assert NO_STORE == pre + [COMMA] + d;
    DirectivesSplit(pre, d);
    DirectivesWhole(d);
    assert Directives(NO_STORE) == [pre, d];
    assert Directives(NO_STORE)[1] == d;
  }

  lemma {:induction false} DirectivesSplit(a: Text, b: Text)
    requires COMMA !in a
    ensures Directives(a + [COMMA] + b) == [a] + Directives(b)
  {
    var s := a + [COMMA] + b;
    if a == [] {
      assert s[1..] == b;
    } else {
      assert s[1..] == a[1..] + [COMMA] + b;
      DirectivesSplit(a[1..], b);
      assert [a[0]] + a[1..] == a;
    }
  }

  lemma {:induction false} DirectivesWhole(a: Text)
    requires COMMA !in a
    ensures Directives(a) == [a]
  {
    if a != [] {
      DirectivesWhole(a[1..]);
      assert [a[0]] + a[1..] == a;
    }
  }

  /** Range and no-store responses are never stored. */
  lemma OnlyWholeCiphertextIsStored(c: CdnEnv, s: Store, cid: Text, plaintext: bool, range: Option<Range>, immutable: bool)
    requires var o := ReadObject(c, s, cid, plaintext, range, immutable); o.Ok? && Storable(o.value)
    ensures !plaintext && range.None?
  {
    hide IsCacheable, ReadRecord, Body;
    NoStoreNotCacheable();
  }

  // -------------------------------------------------------------------- stability

  lemma {:induction false} FragmentsStable(
    chunks: map<Text, Text>, chunks': map<Text, Text>, refs: seq<ChunkRef>, a: nat, b: nat)
    requires Within(chunks, chunks') && AllPresent(chunks, refs)
    ensures Fragments(chunks', refs, a, b) == Fragments(chunks, refs, a, b)
    decreases |refs|
  {
    if refs != [] {
      var n := |refs| - 1;
      assert refs[n].cid in chunks;
      FragmentsStable(chunks, chunks', refs[..n], a, b);
      assert Clip(chunks', refs[n], a, b) == Clip(chunks, refs[n], a, b);
    }
  }

  lemma EntryStable(e: Cached, h: Hash, chunks: map<Text, Text>, chunks': map<Text, Text>, cid: Text)
    requires EntryOk(e, h, chunks, cid) && Within(chunks, chunks')
    ensures EntryOk(e, h, chunks', cid)
  {
    hide ManifestCid, Fragments, Body, SmallManifest;
    var m: WireManifest :| Holds(e, h, chunks, cid, m);
    FragmentsStable(chunks, chunks', m.chunkRefs, 0, SatSub(m.logicalSize, 1));
    assert Holds(e, h, chunks', cid, m);
  }

  /** What a storable read of a CID returns is that CID's whole object. */
  lemma StorableHolds(c: CdnEnv, tenant: Text, s: Store, cid: Text, plaintext: bool, range: Option<Range>, ttl: nat, now: nat)
    requires StoreInv(EnvOf(c, tenant), s)
    requires var o := ReadObject(c, s, cid, plaintext, range, true); o.Ok? && Storable(o.value)
    ensures ColonFree(c.h) ==> COLON !in cid
    ensures !plaintext && EntryOk(Entry(ReadObject(c, s, cid, plaintext, range, true).value, ttl, now), c.h, s.chunks, cid)
  {
    hide StoreInv, Storable, ManifestCid, Whole, ReadObject, SmallManifest, AllPresent, ColonFree;
    OnlyWholeCiphertextIsStored(c, s, cid, plaintext, range, true);
    WholeRead(c, s, cid, true);
    StoredRecord(EnvOf(c, tenant), s, cid);
    CidIsHash(c.h, s.manifests[cid].manifest);
    assert Holds(Entry(ReadObject(c, s, cid, false, None, true).value, ttl, now), c.h, s.chunks, cid,
                 s.manifests[cid].manifest);
  }

  lemma WholeRead(c: CdnEnv, s: Store, cid: Text, immutable: bool)
    ensures var r := ReadObject(c, s, cid, false, None, immutable);
            r.Ok? ==>
              && cid in s.manifests
              && var m := s.manifests[cid].manifest;
              && Whole(s.chunks, m) == Ok(r.value.body) && r.value.etag == s.manifests[cid].objectCid
              && r.value.contentType == m.contentType && r.value.contentLength == m.storedSize
  {
    hide Fragments, Body, SmallManifest;
  }

  lemma StoredRecord(env: Env, s: Store, cid: Text)
    requires StoreInv(env, s) && cid in s.manifests
    ensures AllPresent(s.chunks, s.manifests[cid].manifest.chunkRefs)
    ensures cid == ManifestCid(env.h, s.manifests[cid].manifest) && s.manifests[cid].objectCid == cid
  {
    hide ChunksOk, SessionsOk, NamespacesOk, ManifestCid, AllPresent;
  }

  lemma CidIsHash(h: Hash, m: WireManifest)
    ensures ColonFree(h) ==> COLON !in ManifestCid(h, m)
  {
    hide ManifestBytes;
  }

  /** In a sound namespace a binding's target and manifest agree. */
  lemma ManifestIsTarget(env: Env, s: Store, n: Text, p: Text)
    requires StoreInv(env, s) && p in NamespaceOf(s, n).bindings
    ensures NamespaceOf(s, n).bindings[p].manifest == NamespaceOf(s, n).bindings[p].target
  {
    NamespaceOfInv(env, s, n);
    var ns := NamespaceOf(s, n);
    hide StoreInv, NamespaceOf;
    var k := BindingOrigin(ns.journal, p);
    assert WellFormedEntry(n, ns.journal[k]);
  }

  /** However a CID is fetched, it is read as that CID. */
  lemma FetchReadsCid(
    c: CdnEnv, tenant: Text, s: Store, cid: Text, binding: Option<(Text, Text)>, plaintext: bool, range: Option<Range>,
    refusal: Option<ApiError>)
    requires StoreInv(EnvOf(c, tenant), s) && FetchCid(c, s, cid, binding, plaintext, range, refusal).Ok?
    ensures FetchCid(c, s, cid, binding, plaintext, range, refusal) == ReadObject(c, s, cid, plaintext, range, true)
  {
    hide StoreInv, ReadObject, Canonical;
    if binding.Some? {
      var where := Canonical(binding.value.0, binding.value.1).value;
      ManifestIsTarget(EnvOf(c, tenant), s, where.0, where.1);
    }
  }

  // ---------------------------------------------------------------- main results

  lemma StoreOfOk(c: CdnEnv, w: World, tenant: Text)
    requires StoresOk(c, w)
    ensures StoreInv(EnvOf(c, tenant), w.StoreOf(tenant))
  {
    hide StoreInv;
    EmptyStoreInv(EnvOf(c, tenant));
  }

  lemma CidGetKeeps(c: CdnEnv, w: World, e: Happening)
    requires ColonFree(c.h) && StoresOk(c, w) && CacheOk(c, w) && e.CidGet?
    ensures CacheOk(c, Next(c, w, e))
  {
    hide StoreInv, FetchCid, CidKey, EntryOk, Storable, ColonFree, ReadObject, StoresOk;
    var s := w.StoreOf(e.tenant);
    var o := FetchCid(c, s, e.cid, e.binding, e.plaintext, e.range, e.refusal);
    if o.Ok? && Storable(o.value) {
      StoreOfOk(c, w, e.tenant);
      FetchReadsCid(c, e.tenant, s, e.cid, e.binding, e.plaintext, e.range, e.refusal);
      StorableHolds(c, e.tenant, s, e.cid, e.plaintext, e.range, c.immutableTtl, e.now);
      forall tenant, cid, plaintext | COLON !in cid
        ensures CidKey(tenant, cid, plaintext) == CidKey(e.tenant, e.cid, e.plaintext) ==>
                (tenant, cid, plaintext) == (e.tenant, e.cid, e.plaintext)
      {
        CidKeyInjective(tenant, cid, plaintext, e.tenant, e.cid, e.plaintext);
      }
    }
  }

  lemma KeyGetKeeps(c: CdnEnv, w: World, e: Happening)
    requires CacheOk(c, w) && e.KeyGet?
    ensures CacheOk(c, Next(c, w, e))
  {
    hide FetchKey, CidKey, NamespaceKey, EntryOk, Storable;
    forall tenant, cid, plaintext
      ensures CidKey(tenant, cid, plaintext) != NamespaceKey(e.tenant, e.bucket, e.key, e.plaintext)
    {
      RoutesDisjoint(tenant, cid, plaintext, e.tenant, e.bucket, e.key, e.plaintext);
    }
  }

  lemma BackendKeeps(c: CdnEnv, w: World, e: Happening)
    requires CacheOk(c, w) && e.Backend? && Possible(c, w, e)
    ensures CacheOk(c, Next(c, w, e))
  {
    hide StoreInv, CidKey, EntryOk;
    var w' := Next(c, w, e);
    forall cid | COLON !in cid && CidKey(e.tenant, cid, false) in w.cache
      ensures EntryOk(w.cache[CidKey(e.tenant, cid, false)], c.h, w'.StoreOf(e.tenant).chunks, cid)
    {
      EntryStable(w.cache[CidKey(e.tenant, cid, false)], c.h, w.StoreOf(e.tenant).chunks, e.store.chunks, cid);
    }
  }

  lemma NextKeeps(c: CdnEnv, w: World, e: Happening)
    requires ColonFree(c.h) && StoresOk(c, w) && CacheOk(c, w) && Possible(c, w, e)
    ensures StoresOk(c, Next(c, w, e)) && CacheOk(c, Next(c, w, e))
  {
    hide ColonFree, StoreInv, Evolves, CidServed, KeyServed, EntryOk, CidKey, NamespaceKey;
    match e
    case CidGet(_, _, _, _, _, _, _, _) => CidGetKeeps(c, w, e);
    case KeyGet(_, _, _, _, _, _, _, _) => KeyGetKeeps(c, w, e);
    case Backend(_, _) => BackendKeeps(c, w, e);
    case Invalidation(_, _) =>
  }

  lemma {:induction false} RunKeepsCache(c: CdnEnv, w: World, run: seq<Happening>, n: nat)
    requires ColonFree(c.h) && StoresOk(c, w) && CacheOk(c, w) && n <= |run|
    requires forall i :: 0 <= i < n ==> Possible(c, WorldAt(c, w, run, i), run[i])
    ensures StoresOk(c, WorldAt(c, w, run, n)) && CacheOk(c, WorldAt(c, w, run, n))
    decreases n
  {
    hide ColonFree, StoresOk, CacheOk, Possible, Next;
    if n > 0 {
      RunKeepsCache(c, w, run, n - 1);
      NextKeeps(c, WorldAt(c, w, run, n - 1), run[n - 1]);
    }
  }

  /**
   Wherever a run from an empty cache stands, a hit on a CID returns exactly what
   a full read of that tenant and CID at the origin returns at that moment, as
   long as the manifest is still stored there.
   */
  lemma HitIsFresh(c: CdnEnv, stores: map<Text, Store>, run: seq<Happening>, n: nat, e: Happening)
    requires ColonFree(c.h) && CollisionFree(c.h) && StoresOk(c, World(map[], stores)) && n <= |run|
    requires forall i :: 0 <= i < n ==> Possible(c, WorldAt(c, World(map[], stores), run, i), run[i])
    requires e.CidGet? && COLON !in e.cid
    ensures var w := WorldAt(c, World(map[], stores), run, n);
            var answer := CidServed(c, w, e).1;
            var full := ReadObject(c, w.StoreOf(e.tenant), e.cid, false, None, true);
            var own := FetchCid(c, w.StoreOf(e.tenant), e.cid, e.binding, e.plaintext, e.range, e.refusal);
            answer.Ok? && answer.value.hit ==>
              && !e.plaintext && e.range.None?
              && answer.value.etag == e.cid
              && (e.cid in w.StoreOf(e.tenant).manifests ==> full.Ok? && Agrees(answer.value, full.value, e.head))
              && (e.cid !in w.StoreOf(e.tenant).manifests ==> full == Err(ManifestNotFound))
              && (own.Ok? ==> Agrees(answer.value, own.value, e.head))
  {
    hide ColonFree, CollisionFree, StoresOk, Possible, WorldAt, StoreInv, CidKey, FetchCid, ReadObject;
    var w := WorldAt(c, World(map[], stores), run, n);
    RunKeepsCache(c, World(map[], stores), run, n);
    if IsHit(w.cache, CidKey(e.tenant, e.cid, e.plaintext), e.range.None?, e.now) {
      var s := w.StoreOf(e.tenant);
      StoreOfOk(c, w, e.tenant);
      var own := FetchCid(c, s, e.cid, e.binding, e.plaintext, e.range, e.refusal);
      if own.Ok? { FetchReadsCid(c, e.tenant, s, e.cid, e.binding, e.plaintext, e.range, e.refusal); }
      GoneIsNotFound(c, s, e.cid);
      if e.cid in s.manifests {
        EntryIsFullRead(c, e.tenant, s, w.cache[CidKey(e.tenant, e.cid, false)], e.cid);
      }
    }
  }

  /** The answer is what the origin's response says, with the entity's stored length. */
  predicate Agrees(r: Response, o: Origin, head: bool) {
    && r.body == (if head then [] else o.body) && r.etag == o.etag && r.contentType == o.contentType
    && r.contentLength == o.contentLength
  }

  lemma GoneIsNotFound(c: CdnEnv, s: Store, cid: Text)
    ensures cid !in s.manifests ==> ReadObject(c, s, cid, false, None, true) == Err(ManifestNotFound)
  {
    hide ReadRecord, Body;
  }

  /**
   A hit asks the origin nothing: a caller whom the origin refuses, whose binding
   it no longer knows, or whose manifest is gone gets the same answer.
   */
  lemma HitIgnoresOrigin(
    c: CdnEnv, w: World, stores: map<Text, Store>, e: Happening, binding: Option<(Text, Text)>, refusal: Option<ApiError>)
    requires e.CidGet? && CidServed(c, w, e).1.Ok? && CidServed(c, w, e).1.value.hit
    ensures CidServed(c, w.(stores := stores), e.(binding := binding, refusal := refusal)) == CidServed(c, w, e)
  {
    hide FetchCid, CidKey;
  }

  lemma EntryIsFullRead(c: CdnEnv, tenant: Text, s: Store, e: Cached, cid: Text)
    requires CollisionFree(c.h) && StoreInv(EnvOf(c, tenant), s) && EntryOk(e, c.h, s.chunks, cid) && cid in s.manifests
    ensures var full := ReadObject(c, s, cid, false, None, true);
            && full.Ok? && full.value.body == e.body && full.value.etag == e.etag
            && full.value.contentType == e.contentType && full.value.contentLength == e.contentLength
  {
    hide CollisionFree, StoreInv, ManifestCid, Fragments, Body, SmallManifest, AllPresent;
    StoredRecord(EnvOf(c, tenant), s, cid);
    var m: WireManifest :| Holds(e, c.h, s.chunks, cid, m);
    ManifestCidIdentifies(c.h, m, s.manifests[cid].manifest);
  }
}
