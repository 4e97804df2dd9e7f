/**
 What clients get from the replies of a run: a client that pages through a
 namespace, and a subscriber that threads its cursor, while the service goes on
 serving everyone else.
 */
module Clients {
  import opened Basics
  import opened Paths
  import opened Namespaces
  import opened Policy
  import opened Service
  import opened ServiceInvariants
  import opened ServiceTheorems
  import opened Access
  import Events
  import Listing

  // ----------------------------------------------------------------------- paging

  /** The call lists what the query describes, in pages of at least one item. */
  predicate ListCall(env: Env, c: Call, q: Listing.Query) {
    && c.Call? && c.request.List? && q.tenant == env.tenant
    && var r := c.request.list;
    && CanonicalPath(r.namespace) == Good(q.namespace) && (r.prefix.Some? <==> q.prefix.Some?)
    && (r.prefix.Some? ==> CanonicalPath(r.prefix.value) == Good(q.prefix.value))
    && r.includeTombstones == q.includeTombstones && r.limit.GetOr(100) >= 1
  }

  function PageOf(env: Env, d: Deployment, c: Call): Result<Listing.Page>
    requires c.Call? && c.request.List?
  {
    ListStep(env, d.store, d.CacheOf(c.instance), c.auth, c.request.list, c.now).reply
  }

  /** The reply of a list call is a page of the namespace as the call finds it. */
  lemma PageOfIs(env: Env, d: Deployment, c: Call, q: Listing.Query)
    requires ListCall(env, c, q) && PageOf(env, d, c).Ok?
    ensures PageOf(env, d, c) ==
            Listing.ListPage(q, NamespaceOf(d.store, q.namespace), c.request.list.cursor, c.request.list.limit.GetOr(100))
  {
    hide Authorize, CanonicalPath, Listing.ListPage, Ascii, Quiet;
    var meta := Meta(ListOp, env.tenant, Ascii("list:") + q.namespace, Some(q.namespace), q.prefix,
                     None, None, None, None, None, None);
    AuthorizeQuiet(d.store, d.CacheOf(c.instance), c.auth, meta, c.now);
    QuietParts(d.store, Authorize(d.store, d.CacheOf(c.instance), c.auth, meta, c.now).store);
  }

  /** The cursor that the i-th of these pages was asked for with. */
  function CursorAt(cursor: Option<Text>, pages: seq<Listing.Page>, i: nat): Option<Text>
    requires i <= |pages|
  {
    if i == 0 then cursor else pages[i - 1].nextCursor
  }

  /** List calls of the run, each with the cursor of the page before, all answered. */
  ghost predicate Followed(
    env: Env, d: Deployment, run: seq<Call>, calls: seq<nat>, q: Listing.Query, pages: seq<Listing.Page>)
  {
    && |pages| == |calls| >= 1
    && (forall i :: 0 <= i < |calls| ==>
          && calls[0] <= calls[i] < |run| && ListCall(env, run[calls[i]], q)
          && run[calls[i]].request.list.cursor == CursorAt(None, pages, i)
          && PageOf(env, DeploymentAt(env, d, run, calls[i]), run[calls[i]]) == Ok(pages[i]))
    && (forall i :: 0 <= i < |pages| - 1 ==> pages[i].truncated && pages[i].nextCursor.Some?)
  }

  function PageItems(pages: seq<Listing.Page>): seq<Binding> {
    if pages == [] then [] else pages[0].items + PageItems(pages[1..])
  }

  /** Pages that follow one another, as a client that has only the states would have computed them. */
  ghost predicate Chain(
    q: Listing.Query, states: seq<Namespace>, limits: seq<nat>, cursor: Option<Text>, pages: seq<Listing.Page>)
  {
    && |states| == |limits| == |pages|
    && (forall i :: 0 <= i < |pages| ==>
          Listing.ListPage(q, states[i], CursorAt(cursor, pages, i), limits[i]) == Ok(pages[i]))
    && (forall i :: 0 <= i < |pages| - 1 ==> pages[i].truncated && pages[i].nextCursor.Some?)
  }

  lemma {:induction false} ChainIsFollow(
    q: Listing.Query, states: seq<Namespace>, limits: seq<nat>, cursor: Option<Text>, pages: seq<Listing.Page>)
    requires Chain(q, states, limits, cursor, pages) && pages != []
    ensures var w := Listing.Follow(q, states, limits, cursor);
            w.items == PageItems(pages) && (w.done <==> !pages[|pages| - 1].truncated)
    decreases |pages|
  {
    hide Listing.ListPage, Listing.Follow;
    assert Listing.ListPage(q, states[0], CursorAt(cursor, pages, 0), limits[0]) == Ok(pages[0]);
    Listing.FollowStep(q, states, limits, cursor, pages[0]);
    if |pages| > 1 {
      assert Chain(q, states[1..], limits[1..], pages[0].nextCursor, pages[1..]) by {
        ChainTail(q, states, limits, cursor, pages);
      }
      ChainIsFollow(q, states[1..], limits[1..], pages[0].nextCursor, pages[1..]);
    } else {
      assert pages[1..] == [] && PageItems(pages) == pages[0].items;
      LastPage(q, states, limits, cursor, pages[0]);
    }
  }

  lemma ChainTail(
    q: Listing.Query, states: seq<Namespace>, limits: seq<nat>, cursor: Option<Text>, pages: seq<Listing.Page>)
    requires Chain(q, states, limits, cursor, pages) && |pages| > 1
    ensures Chain(q, states[1..], limits[1..], pages[0].nextCursor, pages[1..])
  {
    hide Listing.ListPage;
    forall i | 0 <= i < |pages| - 1
      ensures Listing.ListPage(q, states[1..][i], CursorAt(pages[0].nextCursor, pages[1..], i), limits[1..][i]) ==
              Ok(pages[1..][i])
    {
      assert Listing.ListPage(q, states[i + 1], CursorAt(cursor, pages, i + 1), limits[i + 1]) == Ok(pages[i + 1]);
    }
  }

  lemma LastPage(q: Listing.Query, states: seq<Namespace>, limits: seq<nat>, cursor: Option<Text>, page: Listing.Page)
    requires |states| == |limits| == 1 && Listing.ListPage(q, states[0], cursor, limits[0]) == Ok(page)
    ensures Listing.Follow(q, states, limits, cursor) == Listing.Walk(page.items, !page.truncated)
  {
    hide Listing.ListPage;
  }

  /**
   The pages that a client gets by following next_cursor, whatever the service
   does between its calls: together a beginning of the first page's listing in
   path order, all of it exactly when a page says so, and growing with every call.
   */
  lemma RunPaging(
    env: Env, d: Deployment, run: seq<Call>, calls: seq<nat>, q: Listing.Query, pages: seq<Listing.Page>)
    requires Sound(env, d) && Followed(env, d, run, calls, q, pages) && q.tenant != []
    requires var first := NamespaceOf(DeploymentAt(env, d, run, calls[0]).store, q.namespace);
             Listing.Fits(q, first.revision, Listing.Items(q, first.bindings))
    ensures var all := Listing.Items(q, NamespaceOf(DeploymentAt(env, d, run, calls[0]).store, q.namespace).bindings);
            && Listing.OrderedByPath(all)
            && PageItems(pages) <= all
            && (!pages[|pages| - 1].truncated <==> PageItems(pages) == all)
            && |PageItems(pages)| >= Min(|calls|, |all|)
    ensures var first := NamespaceOf(DeploymentAt(env, d, run, calls[0]).store, q.namespace).bindings;
            !pages[|pages| - 1].truncated ==>
              forall p ::
                (exists b :: b in PageItems(pages) && b.path == p) <==>
                && p in first
                && (q.prefix.Some? ==> Under(q.prefix.value, p))
                && (first[p].tombstone ==> q.includeTombstones)
  {
    hide Listing.Items, Listing.Follow, Listing.OrderedByPath, Listing.ListPage, Listing.Fits, Sound, DeploymentAt, PageOf,
      PageItems, NamespaceOf, CanonicalPath, CursorAt;
    var limits := seq(|calls|, i requires 0 <= i < |calls| => LimitOf(run, calls, i));
    var states := seq(|calls|, i requires 0 <= i < |calls| =>
                    NamespaceOf(DeploymentAt(env, d, run, calls[i]).store, q.namespace));
    forall i | 0 <= i < |pages|
      ensures Listing.ListPage(q, states[i], CursorAt(None, pages, i), limits[i]) == Ok(pages[i])
    {
      PageOfIs(env, DeploymentAt(env, d, run, calls[i]), run[calls[i]], q);
    }
    assert Chain(q, states, limits, None, pages);
    ChainIsFollow(q, states, limits, None, pages);
    PagingOverStates(env, d, run, calls, q, limits);
    RunKeepsStore(env, d, run, calls[0]);
    NamespaceOfInv(env, DeploymentAt(env, d, run, calls[0]).store, q.namespace);
    hide Inv, Under;
    forall p ensures (exists b :: b in Listing.Items(q, states[0].bindings) && b.path == p) <==>
                     && p in states[0].bindings
                     && (q.prefix.Some? ==> Under(q.prefix.value, p))
                     && (states[0].bindings[p].tombstone ==> q.includeTombstones)
    {
      Listing.ListedIff(q, states[0], p);
    }
  }

  lemma RunKeepsStore(env: Env, d: Deployment, run: seq<Call>, n: nat)
    requires Sound(env, d) && n <= |run|
    ensures StoreInv(env, DeploymentAt(env, d, run, n).store)
  {
    hide StoreInv, DeploymentAt, Evolves;
    RunKeeps(env, d, run, 0, n);
  }

  /**
   What a list reply may show: bindings under the canonical prefix, tombstones
   only when asked for, no more than the limit, 100 without one.
   */
  lemma ListReplyShows(env: Env, s: Store, seen: Cache, auth: Auth, r: ListRequest, now: nat)
    requires ListStep(env, s, seen, auth, r, now).reply.Ok?
    ensures var page := ListStep(env, s, seen, auth, r, now).reply.value;
            && CanonicalPath(r.namespace).Good? && (r.prefix.Some? ==> CanonicalPath(r.prefix.value).Good?)
            && (forall b :: b in page.items ==>
                  && (b.tombstone ==> r.includeTombstones)
                  && (r.prefix.Some? ==> Under(CanonicalPath(r.prefix.value).value, b.path)))
            && |page.items| <= (if r.limit.Some? then r.limit.value else 100)
            && (page.truncated ==> |page.items| == (if r.limit.Some? then r.limit.value else 100))
            && (r.cursor.None? ==> page.snapshotRevision == NamespaceOf(s, CanonicalPath(r.namespace).value).revision)
  {
    hide Authorize, CanonicalPath, Listing.ListPage, Ascii, Quiet, Under;
    var name := CanonicalPath(r.namespace).value;
    var wanted := if r.prefix.Some? then Some(CanonicalPath(r.prefix.value).value) else None;
    var meta := Meta(ListOp, env.tenant, Ascii("list:") + name, Some(name), wanted, None, None, None, None, None, None);
    AuthorizeQuiet(s, seen, auth, meta, now);
    var a := Authorize(s, seen, auth, meta, now);
    QuietParts(s, a.store);
    var q := Listing.Query(env.tenant, name, wanted, r.includeTombstones);
    var ns := NamespaceOf(a.store, name);
    var page := ListStep(env, s, seen, auth, r, now).reply.value;
    Listing.PageSize(q, ns, r.cursor, r.limit.GetOr(100));
    forall b | b in page.items ensures Listing.Wanted(q, b) {
      Listing.PageShowsWanted(q, ns, r.cursor, r.limit.GetOr(100), b);
    }
  }

  // -------------------------------------------------------------------- resolving

  /** What looking a path up in these bindings answers. */
  function LookedUp(bindings: map<Text, Binding>, p: Text, ifRevision: Option<nat>): Result<Binding> {
    if p !in bindings then Err(PathNotBound)
    else if ifRevision.Some? && bindings[p].revision != ifRevision.value then Err(RevisionConflict)
    else Ok(bindings[p])
  }

  lemma ResolveAnswers(
    env: Env, s: Store, seen: Cache, auth: Auth, n: Text, p: Text, at: Option<nat>, ifRevision: Option<nat>, now: nat)
    requires Canonical(n, p).Ok?
    ensures var where := Canonical(n, p).value;
            var reply := ResolveStep(env, s, seen, auth, n, p, at, ifRevision, now).reply;
            if Allowed(auth, ResolveMeta(env, where.0, where.1), now)
            then reply == LookedUp(SnapshotAt(NamespaceOf(s, where.0), at), where.1, ifRevision)
            else reply.Err? && reply.error.Denied?
  {
    hide Canonical, SnapshotAt, Allowed, NamespaceOf, PolicyDenial, ReplayKey, DenialLogged;
    var where := Canonical(n, p).value;
    PolicyAllowsIff(auth, ResolveMeta(env, where.0, where.1), now);
  }

  /** Every call is a resolve of this place at a revision that state m has, or of the present. */
  ghost predicate ResolvesAt(env: Env, d: Deployment, run: seq<Call>, m: nat, n: nat, name: Text, p: Text) {
    && m <= n < |run| && run[n].Call? && run[n].request.Resolve?
    && Canonical(run[n].request.namespace, run[n].request.path) == Ok((name, p))
    && var at := run[n].request.at;
    || at == Some(NamespaceOf(DeploymentAt(env, d, run, m).store, name).revision)
    || (m == n && (at.None? || at.value >= NamespaceOf(DeploymentAt(env, d, run, n).store, name).revision))
  }

  /**
   Over every run: resolving a path at the revision a namespace had at any
   earlier moment answers the binding of that moment, whatever was bound and
   unbound since; without a revision, or with one not yet reached, the present
   one. An if_revision refuses exactly another revision, a token that is not
   allowed exactly is denied.
   */
  lemma RunResolve(env: Env, d: Deployment, run: seq<Call>, m: nat, n: nat, name: Text, p: Text)
    requires Sound(env, d) && ResolvesAt(env, d, run, m, n, name, p)
    ensures var c := run[n];
            var here := DeploymentAt(env, d, run, n);
            var reply := ResolveStep(env, here.store, here.CacheOf(c.instance), c.auth, c.request.namespace, c.request.path,
                                     c.request.at, c.request.ifRevision, c.now).reply;
            if Allowed(c.auth, ResolveMeta(env, name, p), c.now)
            then reply == LookedUp(NamespaceOf(DeploymentAt(env, d, run, m).store, name).bindings, p, c.request.ifRevision)
            else reply.Err? && reply.error.Denied?
  {
    hide StoreInv, DeploymentAt, Inv, Extends, Evolves, SnapshotAt, Allowed, Canonical, ResolveStep, Sound, LookedUp, Replay,
      NamespaceOf;
    var c, here, there := run[n], DeploymentAt(env, d, run, n), DeploymentAt(env, d, run, m);
    ResolveAnswers(env, here.store, here.CacheOf(c.instance), c.auth, c.request.namespace, c.request.path,
                   c.request.at, c.request.ifRevision, c.now);
    RunKeepsStore(env, d, run, n);
    NamespaceOfInv(env, here.store, name);
    if c.request.at.None? {
      PresentIsCurrent(NamespaceOf(here.store, name));
    } else if m == n && c.request.at.value >= NamespaceOf(here.store, name).revision {
      BeyondIsCurrent(name, NamespaceOf(here.store, name), c.request.at.value);
    } else {
      RunHistory(env, d, run, m, n, name, NamespaceOf(there.store, name).revision);
    }
  }

  lemma PresentIsCurrent(ns: Namespace)
    ensures SnapshotAt(ns, None) == ns.bindings
  {
  }

  function LimitOf(run: seq<Call>, calls: seq<nat>, i: nat): nat
    requires i < |calls| && calls[i] < |run|
  {
    var c := run[calls[i]];
    if c.Call? && c.request.List? then c.request.list.limit.GetOr(100) else 0
  }

  // ------------------------------------------------------------------ subscribing

  function PollOf(env: Env, d: Deployment, c: Call): Result<Events.PollResult>
    requires c.Call? && c.request.Subscribe?
  {
    PollStep(env, d.store, d.CacheOf(c.instance), c.auth, c.request.subscribe, c.request.cursor, c.now).reply
  }

  lemma ReadGrant(s: Store, seen: Cache, auth: Auth, meta: Meta, now: nat)
    requires !IsMutation(meta.operation) && Authorize(s, seen, auth, meta, now).reply.Ok?
    ensures Authorize(s, seen, auth, meta, now).store == s
  {
    hide PolicyDenial, ReplayKey;
  }

  lemma {:induction false} FiltersGrant(
    env: Env, s: Store, seen: Cache, auth: Auth, filters: seq<Events.Filter>, i: nat, now: nat)
    requires i <= |filters| && AuthorizeFilters(env, s, seen, auth, filters, i, now).reply.Ok?
    ensures AuthorizeFilters(env, s, seen, auth, filters, i, now).store == s
    decreases |filters| - i
  {
    hide Authorize, Ascii, Decimal;
    if i < |filters| {
      var meta := SubscribeMeta(env, Ascii("events:filter:") + Decimal(i), filters[i].namespacePrefix, filters[i].pathExact);
      var a := Authorize(s, seen, auth, meta, now);
      ReadGrant(s, seen, auth, meta, now);
      FiltersGrant(env, a.store, a.seen, auth, filters, i + 1, now);
    }
  }

  /** The reply of a poll is a poll of the log as the call finds it. */
  lemma PollOfIs(env: Env, d: Deployment, c: Call)
    requires c.Call? && c.request.Subscribe? && PollOf(env, d, c).Ok?
    ensures var r := c.request.subscribe;
            PollOf(env, d, c) == Ok(Events.Poll(d.store.log, r.filters, c.request.cursor, r.batchMax.GetOr(64)))
  {
    hide Authorize, AuthorizeFilters, Events.Poll, Events.StartAt, Ascii, ForeignScope;
    var r, seen := c.request.subscribe, d.CacheOf(c.instance);
    if r.filters == [] {
      ReadGrant(d.store, seen, c.auth, SubscribeMeta(env, Ascii("events"), None, None), c.now);
    } else {
      FiltersGrant(env, d.store, seen, c.auth, r.filters, 0, c.now);
    }
  }

  /** Polls of the run with these filters, each from the cursor that the one before returned, all answered. */
  ghost predicate Threaded(
    env: Env, d: Deployment, run: seq<Call>, calls: seq<nat>, last: nat, filters: seq<Events.Filter>, cursor: nat,
    results: seq<Events.PollResult>)
  {
    && |results| == |calls| && last <= |run|
    && (forall i :: 0 <= i < |calls| ==>
          && calls[i] < |run| && calls[i] <= last && run[calls[i]].Call? && run[calls[i]].request.Subscribe?
          && run[calls[i]].request.subscribe.filters == filters
          && run[calls[i]].request.cursor == (if i == 0 then cursor else results[i - 1].cursor)
          && PollOf(env, DeploymentAt(env, d, run, calls[i]), run[calls[i]]) == Ok(results[i]))
  }

  function Delivered(results: seq<Events.PollResult>): seq<Events.EventRecord> {
    if results == [] then [] else results[0].delivered + Delivered(results[1..])
  }

  function LastCursor(results: seq<Events.PollResult>, cursor: nat): nat {
    if results == [] then cursor else results[|results| - 1].cursor
  }

  function PolledFrom(cursor: nat, results: seq<Events.PollResult>, i: nat): nat
    requires i <= |results|
  {
    if i == 0 then cursor else results[i - 1].cursor
  }

  ghost predicate PollChain(
    logs: seq<Events.Log>, filters: seq<Events.Filter>, batches: seq<nat>, cursor: nat, results: seq<Events.PollResult>)
  {
    && |logs| == |batches| == |results|
    && forall i :: 0 <= i < |results| ==>
         Events.Poll(logs[i], filters, PolledFrom(cursor, results, i), batches[i]) == results[i]
  }

  lemma {:induction false} PollChainIsSession(
    logs: seq<Events.Log>, filters: seq<Events.Filter>, batches: seq<nat>, cursor: nat, results: seq<Events.PollResult>)
    requires PollChain(logs, filters, batches, cursor, results)
    ensures Events.Session(logs, filters, batches, cursor) ==
            Events.PollResult(Delivered(results), LastCursor(results, cursor))
    decreases |results|
  {
    hide Events.Poll;
    if results != [] {
      var logs', batches', results' := logs[1..], batches[1..], results[1..];
      forall i | 0 <= i < |results'|
        ensures Events.Poll(logs'[i], filters, PolledFrom(results[0].cursor, results', i), batches'[i]) == results'[i]
      {
        assert Events.Poll(logs[i + 1], filters, PolledFrom(cursor, results, i + 1), batches[i + 1]) == results[i + 1];
      }
      assert Events.Poll(logs[0], filters, PolledFrom(cursor, results, 0), batches[0]) == results[0];
      PollChainIsSession(logs', filters, batches', results[0].cursor, results');
    }
  }

  /**
   What a subscriber gets by threading its cursor through the polls of a run:
   exactly the matching events from its first cursor to its last, in order.
   */
  lemma RunDelivery(
    env: Env, d: Deployment, run: seq<Call>, calls: seq<nat>, last: nat, filters: seq<Events.Filter>, cursor: nat,
    results: seq<Events.PollResult>)
    requires Sound(env, d) && Threaded(env, d, run, calls, last, filters, cursor, results)
    ensures LastCursor(results, cursor) >= cursor
    ensures Delivered(results) ==
            Events.Matching(DeploymentAt(env, d, run, last).store.log, filters, cursor, LastCursor(results, cursor))
  {
    hide Sound, DeploymentAt, PollOf, Events.Poll, Events.Session, Events.Matching, Delivered;
    var batches := seq(|calls|, i requires 0 <= i < |calls| => BatchOf(run, calls, i));
    var logs := seq(|calls|, i requires 0 <= i < |calls| => DeploymentAt(env, d, run, calls[i]).store.log);
    forall i | 0 <= i < |results|
      ensures Events.Poll(logs[i], filters, PolledFrom(cursor, results, i), batches[i]) == results[i]
    {
      PollOfIs(env, DeploymentAt(env, d, run, calls[i]), run[calls[i]]);
    }
    PollChainIsSession(logs, filters, batches, cursor, results);
    DeliveryOverStates(env, d, run, calls, last, filters, batches, cursor);
  }

  /** Event by event: delivered is what lies between the cursors and passes a filter, each field of it, in order. */
  lemma RunDelivered(
    env: Env, d: Deployment, run: seq<Call>, calls: seq<nat>, last: nat, filters: seq<Events.Filter>, cursor: nat,
    results: seq<Events.PollResult>, e: Events.EventRecord)
    requires Sound(env, d) && Threaded(env, d, run, calls, last, filters, cursor, results)
    ensures var log := DeploymentAt(env, d, run, last).store.log;
            e in Delivered(results) <==>
            && cursor <= e.number < LastCursor(results, cursor) && e.number in log.records && log.records[e.number] == e
            && (filters == [] || exists i :: 0 <= i < |filters| && Events.Passes(filters[i], e))
    ensures Events.ByNumber(Delivered(results))
  {
    hide Sound, DeploymentAt, Threaded, Events.Matching, Delivered, LastCursor, Events.Passes, Events.LogInv, ChunksOk,
      SessionsOk, ManifestsOk, NamespacesOk;
    RunDelivery(env, d, run, calls, last, filters, cursor, results);
    assert last <= |run| by { ThreadedLast(env, d, run, calls, last, filters, cursor, results); }
    RunKeepsStore(env, d, run, last);
    var log := DeploymentAt(env, d, run, last).store.log;
    Events.MatchingIff(log, filters, cursor, LastCursor(results, cursor), e);
    Events.MatchingInOrder(log, filters, cursor, LastCursor(results, cursor));
  }

  lemma ThreadedLast(
    env: Env, d: Deployment, run: seq<Call>, calls: seq<nat>, last: nat, filters: seq<Events.Filter>, cursor: nat,
    results: seq<Events.PollResult>)
    requires Threaded(env, d, run, calls, last, filters, cursor, results)
    ensures last <= |run|
  {
    hide DeploymentAt, PollOf;
  }

  function BatchOf(run: seq<Call>, calls: seq<nat>, i: nat): nat
    requires i < |calls| && calls[i] < |run|
  {
    var c := run[calls[i]];
    if c.Call? && c.request.Subscribe? then c.request.subscribe.batchMax.GetOr(64) else 0
  }
}
