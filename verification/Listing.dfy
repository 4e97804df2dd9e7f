/**
 Paged listing of a namespace: a page is cut from the snapshot that the cursor
 names, after the path that the cursor names.
 */
module Listing {
  import opened Basics
  import opened TextOrder
  import opened Paths
  import opened Records
  import opened Namespaces

  /** What stays fixed over a listing: tenant, namespace, canonical prefix, tombstones or not. */
  datatype Query = Query(tenant: Text, namespace: Text, prefix: Option<Text>, includeTombstones: bool)

  datatype Page = Page(items: seq<Binding>, nextCursor: Option<Text>, truncated: bool, snapshotRevision: nat)

  predicate Wanted(q: Query, b: Binding) {
    (q.prefix.Some? ==> Under(q.prefix.value, b.path)) && (q.includeTombstones || !b.tombstone)
  }

  function WantedKeys(q: Query, bindings: map<Text, Binding>): (keys: seq<Text>)
    ensures Ascending(keys)
    ensures forall p :: p in keys <==> p in bindings && Wanted(q, bindings[p])
  {
    Sorted(set p | p in bindings && Wanted(q, bindings[p]))
  }

  /** The bindings asked for, in path order. */
  function Items(q: Query, bindings: map<Text, Binding>): (items: seq<Binding>)
    ensures |items| == |WantedKeys(q, bindings)|
    ensures forall i :: 0 <= i < |items| ==>
              WantedKeys(q, bindings)[i] in bindings && items[i] == bindings[WantedKeys(q, bindings)[i]]
  {
    var keys := WantedKeys(q, bindings);
    assert forall i :: 0 <= i < |keys| ==> keys[i] in keys;
    seq(|keys|, i requires 0 <= i < |keys| => bindings[keys[i]])
  }

  /** The position after the named path, or the start when the path is not there. */
  function StartAfter(items: seq<Binding>, path: Text): nat {
    if exists i :: 0 <= i < |items| && items[i].path == path
    then FirstAt(items, path) + 1
    else 0
  }

  function FirstAt(items: seq<Binding>, path: Text): (i: nat)
    requires exists i :: 0 <= i < |items| && items[i].path == path
    ensures i < |items| && items[i].path == path
    ensures forall j :: 0 <= j < i ==> items[j].path != path
  {
    if items[0].path == path then 0 else
      var rest := items[1..];
      assert exists i :: 0 <= i < |rest| && rest[i].path == path by {
        var k :| 0 <= k < |items| && items[k].path == path;
        assert rest[k - 1].path == path;
      }
      1 + FirstAt(rest, path)
  }

  /** The snapshot and position that a request resumes from; None when the cursor does not fit it. */
  function Resume(q: Query, ns: Namespace, cursor: Option<Text>): Option<(nat, Option<Text>)> {
    if cursor.None? then Some((ns.revision, None)) else
      var c := DecodeListCursor(cursor.value);
      if c.None? || c.value.tenant != q.tenant || c.value.namespace != q.namespace || c.value.prefix != q.prefix
      then None
      else Some((c.value.snapshotRevision, Some(c.value.lastPath)))
  }

  function CursorAfter(q: Query, revision: nat, page: seq<Binding>): ListCursor {
    ListCursor(q.tenant, q.namespace, q.prefix, revision, if page == [] then [] else page[|page| - 1].path)
  }

  /** The page of `all` from position `start`. A cursor too large for the wire cannot arise on a 64-bit machine. */
  function PageFrom(q: Query, all: seq<Binding>, revision: nat, start: nat, limit: nat): Page {
    var end := Min(|all|, start + limit);
    var page := if start <= end then all[start..end] else [];
    var truncated := start + |page| < |all|;
    var next := CursorAfter(q, revision, page);
    Page(page, if truncated && SmallListCursor(next) then Some(EncodeListCursor(next)) else None, truncated, revision)
  }

  function ListPage(q: Query, ns: Namespace, cursor: Option<Text>, limit: nat): Result<Page> {
    match Resume(q, ns, cursor)
    case None => Err(InvalidCursor)
    case Some((revision, lastPath)) =>
      var all := Items(q, SnapshotAt(ns, Some(revision)));
      var start := if lastPath.None? then 0 else StartAfter(all, lastPath.value);
      Ok(PageFrom(q, all, revision, start, limit))
  }

  // ------------------------------------------------------------ order of items

  ghost predicate OrderedByPath(items: seq<Binding>) {
    forall i, j :: 0 <= i < j < |items| ==> Less(items[i].path, items[j].path)
  }

  /** In a snapshot every binding sits under its own path, so items come out strictly by path. */
  lemma ItemsOrdered(q: Query, bindings: map<Text, Binding>)
    requires forall p :: p in bindings ==> bindings[p].path == p
    ensures OrderedByPath(Items(q, bindings))
  {
    var keys := WantedKeys(q, bindings);
    assert forall i :: 0 <= i < |keys| ==> keys[i] in keys;
  }

  /** A listing shows a binding exactly when the snapshot holds it and it is wanted. */
  lemma ItemsExact(q: Query, bindings: map<Text, Binding>, b: Binding)
    ensures b in Items(q, bindings) <==> exists p :: p in bindings && bindings[p] == b && Wanted(q, b)
  {
    var keys, items := WantedKeys(q, bindings), Items(q, bindings);
    assert forall i :: 0 <= i < |keys| ==> keys[i] in keys;
    if p :| p in bindings && bindings[p] == b && Wanted(q, b) {
      var i :| 0 <= i < |keys| && keys[i] == p;
      assert items[i] == b;
    }
    if b in items {
      var i :| 0 <= i < |items| && items[i] == b;
      assert keys[i] in keys && bindings[keys[i]] == b;
    }
  }

  lemma SnapshotPaths(ns: Namespace, revision: nat)
    ensures forall p :: p in SnapshotAt(ns, Some(revision)) ==> SnapshotAt(ns, Some(revision))[p].path == p
  {
    var journal := Before(ns.journal, revision);
    forall p | p in Replay(journal) ensures Replay(journal)[p].path == p {
      var k := BindingOrigin(journal, p);
    }
  }

  lemma StartAfterOrdered(items: seq<Binding>, k: nat)
    requires OrderedByPath(items) && k < |items|
    ensures StartAfter(items, items[k].path) == k + 1
  {
    var i := FirstAt(items, items[k].path);
    LessIrreflexive(items[k].path);
  }

  // ------------------------------------------------------------ following pages

  datatype Walk = Walk(items: seq<Binding>, done: bool)

  /**
   A client that follows next_cursor, one call per state: `states[i]` is the
   namespace as the i-th call finds it, `limits[i]` the limit it asks for.
   */
  function Follow(q: Query, states: seq<Namespace>, limits: seq<nat>, cursor: Option<Text>): Walk
    requires |states| == |limits|
    decreases |states|
  {
    if states == [] then Walk([], false) else
      match ListPage(q, states[0], cursor, limits[0]) {
        case Err(_) => Walk([], false)
        case Ok(page) =>
          if !page.truncated then Walk(page.items, true)
          else if page.nextCursor.None? then Walk(page.items, false)
          else
            var rest := Follow(q, states[1..], limits[1..], page.nextCursor);
            Walk(page.items + rest.items, rest.done)
      }
  }

  /** Every state is a reachable one, and each comes after the one before. */
  ghost predicate Later(name: Text, first: Namespace, states: seq<Namespace>) {
    forall i :: 0 <= i < |states| ==> Inv(name, states[i]) && Extends(first, states[i])
  }

  /** Sizes that fit the machine. */
  predicate Fits(q: Query, revision: nat, items: seq<Binding>) {
    && |q.tenant| < U64 && |q.namespace| < U64 && (q.prefix.Some? ==> |q.prefix.value| < U64) && revision < U64
    && forall i :: 0 <= i < |items| ==> |items[i].path| < U64
  }

  /** What a listing that began in state `first` will visit, item by item. */
  ghost function Target(q: Query, first: Namespace): seq<Binding> {
    Items(q, SnapshotAt(first, Some(first.revision)))
  }

  /** The listing can be carried by cursors. */
  ghost predicate Resumable(q: Query, first: Namespace) {
    && Inv(q.namespace, first) && q.tenant != [] && Fits(q, first.revision, Target(q, first))
  }

  ghost function CursorText(q: Query, first: Namespace, k: nat): Option<Text>
    requires Resumable(q, first) && k < |Target(q, first)|
  {
    Some(EncodeListCursor(ListCursor(q.tenant, q.namespace, q.prefix, first.revision, Target(q, first)[k].path)))
  }

  lemma TargetOrdered(q: Query, first: Namespace)
    ensures OrderedByPath(Target(q, first))
  {
    SnapshotPaths(first, first.revision);
    ItemsOrdered(q, SnapshotAt(first, Some(first.revision)));
  }

  /** Resuming after the k-th item, in any later state. */
  lemma PageAfter(q: Query, first: Namespace, ns: Namespace, k: nat, limit: nat)
    requires Resumable(q, first) && Inv(q.namespace, ns) && Extends(first, ns) && k < |Target(q, first)|
    ensures ListPage(q, ns, CursorText(q, first, k), limit) ==
            Ok(PageFrom(q, Target(q, first), first.revision, k + 1, limit))
  {
    var all := Target(q, first);
    var c := ListCursor(q.tenant, q.namespace, q.prefix, first.revision, all[k].path);
    ItemsNamed(q, first, first.revision);
    ListCursorRoundTrip(c, []);
    assert EncodeListCursor(c) + [] == EncodeListCursor(c);
    HistoryImmutable(q.namespace, first, ns, first.revision);
    TargetOrdered(q, first);
    StartAfterOrdered(all, k);
    hide *;
    ResumeFrom(q, ns, first.revision, all, k, limit, c);
  }

  lemma ResumeFrom(q: Query, ns: Namespace, revision: nat, all: seq<Binding>, k: nat, limit: nat, c: ListCursor)
    requires k < |all| && c == ListCursor(q.tenant, q.namespace, q.prefix, revision, all[k].path)
    requires SmallListCursor(c) && DecodeListCursor(EncodeListCursor(c)) == Some(c)
    requires Items(q, SnapshotAt(ns, Some(revision))) == all && StartAfter(all, all[k].path) == k + 1
    ensures ListPage(q, ns, Some(EncodeListCursor(c)), limit) == Ok(PageFrom(q, all, revision, k + 1, limit))
  {
    hide EncodeListCursor, DecodeListCursor, Items, SnapshotAt, StartAfter, PageFrom;
  }

  /** A page either reaches the end or names its last item as the place to resume. */
  lemma PageShape(q: Query, first: Namespace, start: nat, limit: nat)
    requires Resumable(q, first) && limit >= 1 && start <= |Target(q, first)|
    ensures var all := Target(q, first);
            var page := PageFrom(q, all, first.revision, start, limit);
            var end := start + |page.items|;
            && (!page.truncated ==> page.items == all[start..])
            && (page.truncated ==>
                  && page.items != [] && end < |all| && all[start..] == page.items + all[end..]
                  && page.nextCursor.Some? && page.nextCursor == CursorText(q, first, end - 1))
  {
    hide EncodeListCursor, Items, SnapshotAt, Inv;
    var all := Target(q, first);
    hide Target;
    var end := Min(|all|, start + limit);
    if end < |all| {
      assert PageFrom(q, all, first.revision, start, limit).items == all[start..end];
      assert all[start..end][|all[start..end]| - 1] == all[end - 1];
      assert all[start..] == all[start..end] + all[end..];
    } else {
      assert all[start..end] == all[start..];
    }
  }

  lemma ItemsNamed(q: Query, ns: Namespace, revision: nat)
    requires Inv(q.namespace, ns)
    ensures var all := Items(q, SnapshotAt(ns, Some(revision)));
            forall i :: 0 <= i < |all| ==> all[i].path != [] && q.namespace != []
  {
    var journal := Before(ns.journal, revision);
    var all := Items(q, Replay(journal));
    forall i | 0 <= i < |all| ensures all[i].path != [] && q.namespace != [] {
      assert all[i] in all;
      var p :| p in Replay(journal) && Replay(journal)[p] == all[i];
      var k := BindingOrigin(journal, p);
      assert journal[k] == ns.journal[k];
      assert WellFormedEntry(q.namespace, ns.journal[k]);
    }
  }

  /** After n calls: a prefix of what was asked for, at least n items of it, and told to stop exactly when complete. */
  ghost predicate Progress(w: Walk, wanted: seq<Binding>, n: nat) {
    w.items <= wanted && (w.done <==> w.items == wanted) && |w.items| >= Min(n, |wanted|)
  }

  lemma ProgressJoin(head: seq<Binding>, tail: seq<Binding>, w: Walk, n: nat)
    requires head != [] && tail != [] && n >= 1 && Progress(w, tail, n - 1)
    ensures Progress(Walk(head + w.items, w.done), head + tail, n)
  {
  }

  lemma FollowStep(q: Query, states: seq<Namespace>, limits: seq<nat>, cursor: Option<Text>, page: Page)
    requires |states| == |limits| >= 1 && ListPage(q, states[0], cursor, limits[0]) == Ok(page)
    ensures !page.truncated ==> Follow(q, states, limits, cursor) == Walk(page.items, true)
    ensures page.truncated && page.nextCursor.Some? ==>
              var rest := Follow(q, states[1..], limits[1..], page.nextCursor);
              Follow(q, states, limits, cursor) == Walk(page.items + rest.items, rest.done)
  {
    hide ListPage;
  }

  /** The calls still to be made: states all later than the first, limits all positive. */
  ghost predicate Calls(q: Query, first: Namespace, states: seq<Namespace>, limits: seq<nat>) {
    && Later(q.namespace, first, states)
    && |states| == |limits| && forall i :: 0 <= i < |limits| ==> limits[i] >= 1
  }

  lemma CallsTail(q: Query, first: Namespace, states: seq<Namespace>, limits: seq<nat>)
    requires Calls(q, first, states, limits) && states != []
    ensures limits != [] && limits[0] >= 1 && |states| == |limits|
    ensures Inv(q.namespace, states[0]) && Extends(first, states[0])
    ensures Calls(q, first, states[1..], limits[1..])
  {
    hide Inv, Extends;
  }

  lemma {:induction false} FollowFrom(
    q: Query, first: Namespace, states: seq<Namespace>, limits: seq<nat>, cursor: Option<Text>, start: nat)
    requires Resumable(q, first) && Calls(q, first, states, limits) && start <= |Target(q, first)|
    requires |states| == |limits|
    requires states != [] ==>
               ListPage(q, states[0], cursor, limits[0]) ==
               Ok(PageFrom(q, Target(q, first), first.revision, start, limits[0]))
    requires states == [] ==> start < |Target(q, first)|
    ensures Progress(Follow(q, states, limits, cursor), Target(q, first)[start..], |states|)
    decreases |states|
  {
    hide *;
    var all := Target(q, first);
    if states == [] {
      assert limits == [];
      FollowNothing(q, cursor, all[start..]);
    } else {
      CallsTail(q, first, states, limits);
      var page := PageFrom(q, all, first.revision, start, limits[0]);
      PageShape(q, first, start, limits[0]);
      FollowStep(q, states, limits, cursor, page);
      if page.truncated {
        var end := start + |page.items|;
        var states', limits' := states[1..], limits[1..];
        if states' != [] {
          CallsTail(q, first, states', limits');
          PageAfter(q, first, states'[0], end - 1, limits'[0]);
        }
        FollowFrom(q, first, states', limits', page.nextCursor, end);
        ProgressJoin(page.items, all[end..], Follow(q, states', limits', page.nextCursor), |states|);
      } else {
        Finished(page.items, |states|);
      }
    }
  }

  lemma FollowNothing(q: Query, cursor: Option<Text>, wanted: seq<Binding>)
    ensures wanted != [] ==> Progress(Follow(q, [], [], cursor), wanted, 0)
  {
  }

  lemma Finished(wanted: seq<Binding>, n: nat)
    ensures Progress(Walk(wanted, true), wanted, n)
  {
  }

  /**
   Following next_cursor from a first page visits exactly the wanted items of
   the first page's snapshot, in path order, once each, and ends, whatever
   mutations happen between the calls: each call adds at least one item until
   all are there, and the client is told to stop exactly then.
   */
  lemma PagingExact(q: Query, states: seq<Namespace>, limits: seq<nat>)
    requires |states| == |limits| >= 1 && forall i :: 0 <= i < |limits| ==> limits[i] >= 1
    requires Inv(q.namespace, states[0]) && Later(q.namespace, states[0], states)
    requires q.tenant != []
    requires Fits(q, states[0].revision, Items(q, states[0].bindings))
    ensures var all := Items(q, states[0].bindings);
            var w := Follow(q, states, limits, None);
            && OrderedByPath(all)
            && w.items <= all
            && (w.done <==> w.items == all)
            && |w.items| >= Min(|states|, |all|)
  {
    var first := states[0];
    CurrentIsReplay(q.namespace, first);
    TargetOrdered(q, first);
    assert Resumable(q, first);
    assert ListPage(q, first, None, limits[0]) == Ok(PageFrom(q, Target(q, first), first.revision, 0, limits[0]));
    assert Calls(q, first, states, limits);
    FollowFrom(q, first, states, limits, None, 0);
    assert Target(q, first)[0..] == Target(q, first);
    hide ListPage, PageFrom, Items, Resumable, Inv, Extends, OrderedByPath, Follow;
  }

  /** A page of limit 0 is a dead end: its cursor has an empty last path and does not decode. */
  lemma LimitZeroIsStuck(q: Query, ns: Namespace, later: Namespace, limit: nat)
    requires Items(q, SnapshotAt(ns, Some(ns.revision))) != []
    requires Fits(q, ns.revision, [])
    ensures var r := ListPage(q, ns, None, 0);
            && r.Ok? && r.value.items == [] && r.value.truncated && r.value.nextCursor.Some?
            && ListPage(q, later, r.value.nextCursor, limit) == Err(InvalidCursor)
  {
    var c := CursorAfter(q, ns.revision, []);
    ListCursorRoundTrip(c, []);
    assert EncodeListCursor(c) + [] == EncodeListCursor(c);
    hide EncodeListCursor, DecodeListCursor, Items;
    var all := Items(q, SnapshotAt(ns, Some(ns.revision)));
    assert all[0..0] == [];
  }

  // --------------------------------------------------------------- what is shown

  /** Whatever the cursor, a page shows only bindings that the query wants. */
  lemma PageShowsWanted(q: Query, ns: Namespace, cursor: Option<Text>, limit: nat, b: Binding)
    requires ListPage(q, ns, cursor, limit).Ok? && b in ListPage(q, ns, cursor, limit).value.items
    ensures Wanted(q, b)
  {
    hide DecodeListCursor, EncodeListCursor, SmallListCursor, StartAfter, Wanted, SnapshotAt;
    var revision := Resume(q, ns, cursor).value.0;
    var all := Items(q, SnapshotAt(ns, Some(revision)));
    assert b in all;
    var keys := WantedKeys(q, SnapshotAt(ns, Some(revision)));
    var i :| 0 <= i < |all| && all[i] == b;
    assert keys[i] in keys;
  }

  /** A first page of positive limit shows something when something is wanted. */
  lemma FirstPageShows(q: Query, ns: Namespace, limit: nat, p: Text)
    requires Inv(q.namespace, ns) && limit >= 1 && p in ns.bindings && Wanted(q, ns.bindings[p])
    ensures ListPage(q, ns, None, limit).Ok? && ListPage(q, ns, None, limit).value.items != []
  {
    hide EncodeListCursor, SmallListCursor, Wanted, SnapshotAt, Inv;
    CurrentIsReplay(q.namespace, ns);
    assert p in WantedKeys(q, ns.bindings);
  }

  /** A page holds at most its limit, and exactly its limit when there is more; it names the revision it was cut from. */
  lemma PageSize(q: Query, ns: Namespace, cursor: Option<Text>, limit: nat)
    requires ListPage(q, ns, cursor, limit).Ok?
    ensures var page := ListPage(q, ns, cursor, limit).value;
            && |page.items| <= limit && (page.truncated ==> |page.items| == limit)
            && (cursor.None? ==> page.snapshotRevision == ns.revision)
  {
    hide DecodeListCursor, EncodeListCursor, SmallListCursor, Items, SnapshotAt;
    var (revision, lastPath) := Resume(q, ns, cursor).value;
    var all := Items(q, SnapshotAt(ns, Some(revision)));
    var start := if lastPath.None? then 0 else StartAfter(all, lastPath.value);
    assert start <= |all| by { if lastPath.Some? { StartWithin(all, lastPath.value); } }
  }

  lemma StartWithin(items: seq<Binding>, path: Text)
    ensures StartAfter(items, path) <= |items|
  {
  }

  /** A cursor is accepted exactly for the tenant, namespace and prefix it was cut for. */
  lemma CursorAcceptedIff(q: Query, ns: Namespace, c: ListCursor, limit: nat)
    requires SmallListCursor(c)
    ensures ListPage(q, ns, Some(EncodeListCursor(c)), limit).Ok? <==>
            && c.tenant == q.tenant && c.tenant != [] && c.namespace == q.namespace && c.namespace != []
            && c.prefix == q.prefix && c.lastPath != []
    ensures ListPage(q, ns, Some(EncodeListCursor(c)), limit).Ok? ==>
              ListPage(q, ns, Some(EncodeListCursor(c)), limit).value.snapshotRevision == c.snapshotRevision
  {
    ListCursorRoundTrip(c, []);
    assert EncodeListCursor(c) + [] == EncodeListCursor(c);
    hide EncodeListCursor, DecodeListCursor, Items, SnapshotAt, StartAfter;
  }

  /** A finished listing shows a path exactly when it was bound, lies under the prefix and is live or asked for. */
  lemma ListedIff(q: Query, ns: Namespace, p: Text)
    requires Inv(q.namespace, ns)
    ensures (exists b :: b in Items(q, ns.bindings) && b.path == p) <==>
            && p in ns.bindings
            && (q.prefix.Some? ==> Under(q.prefix.value, p))
            && (ns.bindings[p].tombstone ==> q.includeTombstones)
    ensures forall b :: b in Items(q, ns.bindings) && b.path == p ==> p in ns.bindings && b == ns.bindings[p]
  {
    hide Items, Under;
    forall k | k in ns.bindings ensures ns.bindings[k].path == k {
      var i := BindingOrigin(ns.journal, k);
    }
    forall b ensures b in Items(q, ns.bindings) <==> exists k :: k in ns.bindings && ns.bindings[k] == b && Wanted(q, b) {
      ItemsExact(q, ns.bindings, b);
    }
    if p in ns.bindings && Wanted(q, ns.bindings[p]) { assert ns.bindings[p] in Items(q, ns.bindings); }
  }
}
