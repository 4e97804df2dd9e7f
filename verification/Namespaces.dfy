/**
 The versioned namespace: its current bindings, its append-only journal and its
 revision counter, and the snapshots that old revisions are read from.
 */
module Namespaces {
  import opened Basics
  import opened Cbor
  import opened Records

  datatype Binding = Binding(
    path: Text, target: Option<Text>, manifest: Option<Text>, revision: nat, recordCid: Text,
    metadata: Metadata, tombstone: bool)

  datatype JournalEntry = JournalEntry(
    revision: nat, record: MutationRecord, recordCid: Text, target: Option<Text>, manifest: Option<Text>,
    metadata: Metadata, tombstone: bool)

  /** The three records kept per namespace: current state, journal and revision counter. */
  datatype Namespace = Namespace(
    revision: nat, bindings: map<Text, Binding>, journal: seq<JournalEntry>, nextRevision: nat)

  const EMPTY: Namespace := Namespace(0, map[], [], 1)

  function RecordCid(h: Hash, r: MutationRecord): Text {
    if Valid(MutationValue(r)) then h(Encoding(MutationValue(r))) else []
  }

  /** A record CID names one signed mutation, up to a hash collision. */
  lemma RecordCidIdentifies(h: Hash, r: MutationRecord, s: MutationRecord)
    requires CollisionFree(h) && Valid(MutationValue(r)) && Valid(MutationValue(s))
    ensures RecordCid(h, r) == RecordCid(h, s) <==> r == s
  {
    hide Encoding, MutationValue, Valid;
    if RecordCid(h, r) == RecordCid(h, s) { MutationBytesInjective(r, s); }
  }

  // ---------------------------------------------------------------- mutations

  /** Why a bind is refused, if it is. */
  function BindRefusal(ns: Namespace, path: Text, ifRevision: Option<nat>, ifAbsent: bool): Option<ApiError> {
    if ifRevision.None? && !ifAbsent then Some(PreconditionRequired)
    else if ifAbsent && path in ns.bindings && !ns.bindings[path].tombstone then Some(RevisionConflict)
    else if ifRevision.Some? &&
            (if path in ns.bindings then ns.bindings[path].revision else 0) != ifRevision.value
    then Some(RevisionConflict)
    else None
  }

  function BindEntry(h: Hash, revision: nat, record: MutationRecord, target: Text, metadata: Metadata): JournalEntry {
    JournalEntry(revision, record, RecordCid(h, record), Some(target), Some(target), metadata, false)
  }

  function Bind(h: Hash, ns: Namespace, path: Text, record: MutationRecord, target: Text, metadata: Metadata): Namespace {
    var revision := ns.nextRevision;
    Namespace(
      revision,
      ns.bindings[path := Binding(path, Some(target), Some(target), revision, RecordCid(h, record), metadata, false)],
      ns.journal + [BindEntry(h, revision, record, target, metadata)],
      revision + 1)
  }

  function UnbindRefusal(ns: Namespace, path: Text, ifRevision: nat): Option<ApiError> {
    if path !in ns.bindings then Some(PathNotBound)
    else if ns.bindings[path].revision != ifRevision then Some(RevisionConflict)
    else None
  }

  function UnbindEntry(h: Hash, revision: nat, record: MutationRecord, hardDelete: bool): JournalEntry {
    JournalEntry(revision, record, RecordCid(h, record), None, None, map[], !hardDelete)
  }

  function Unbind(h: Hash, ns: Namespace, path: Text, record: MutationRecord, hardDelete: bool): Namespace {
    var revision := ns.nextRevision;
    Namespace(
      revision,
      if hardDelete then ns.bindings - {path}
      else ns.bindings[path := Binding(path, None, None, revision, RecordCid(h, record), map[], true)],
      ns.journal + [UnbindEntry(h, revision, record, hardDelete)],
      revision + 1)
  }

  // ---------------------------------------------------------------- snapshots

  /** The effect of one journal entry on a snapshot. */
  function Replayed(bindings: map<Text, Binding>, e: JournalEntry): map<Text, Binding> {
    var p := e.record.path;
    if e.tombstone then bindings[p := Binding(p, None, None, e.revision, e.recordCid, e.metadata, true)]
    else if e.record.kind == HardDeleteKind then bindings - {p}
    else bindings[p := Binding(p, e.target, e.manifest, e.revision, e.recordCid, e.metadata, false)]
  }

  function Replay(journal: seq<JournalEntry>): map<Text, Binding> {
    if journal == [] then map[] else Replayed(Replay(journal[..|journal| - 1]), journal[|journal| - 1])
  }

  /** The entries before the first one beyond the limit: the loop stops there. */
  function Before(journal: seq<JournalEntry>, limit: nat): (prefix: seq<JournalEntry>)
    ensures prefix <= journal
  {
    if journal == [] || journal[0].revision > limit then []
    else [journal[0]] + Before(journal[1..], limit)
  }

  /** The bindings as of a revision, or the current ones. */
  function SnapshotAt(ns: Namespace, at: Option<nat>): map<Text, Binding> {
    if at.None? then ns.bindings else Replay(Before(ns.journal, at.value))
  }

  lemma {:induction false} BeforeStops(journal: seq<JournalEntry>, limit: nat, i: nat)
    requires i <= |journal| && forall k :: 0 <= k < i ==> journal[k].revision <= limit
    requires i < |journal| ==> journal[i].revision > limit
    ensures Before(journal, limit) == journal[..i]
  {
    if i > 0 {
      BeforeStops(journal[1..], limit, i - 1);
      assert journal[..i] == [journal[0]] + journal[1..][..i - 1];
    }
  }

  /** namespace_snapshot_at: replay the journal until an entry is too new. */
  method TakeSnapshot(ns: Namespace, at: Option<nat>) returns (bindings: map<Text, Binding>)
    ensures bindings == SnapshotAt(ns, at)
  {
    if at.None? { return ns.bindings; }
    bindings := map[];
    var i := 0;
    while i < |ns.journal| && ns.journal[i].revision <= at.value
      invariant 0 <= i <= |ns.journal|
      invariant forall k :: 0 <= k < i ==> ns.journal[k].revision <= at.value
      invariant bindings == Replay(ns.journal[..i])
    {
      var e := ns.journal[i];
      var p := e.record.path;
      if e.tombstone {
        bindings := bindings[p := Binding(p, None, None, e.revision, e.recordCid, e.metadata, true)];
      } else if e.record.kind == HardDeleteKind {
        bindings := bindings - {p};
      } else {
        bindings := bindings[p := Binding(p, e.target, e.manifest, e.revision, e.recordCid, e.metadata, false)];
      }
      assert ns.journal[..i + 1][..i] == ns.journal[..i];
      i := i + 1;
    }
    BeforeStops(ns.journal, at.value, i);
  }

  // ------------------------------------------------------------- the invariant

  /** An entry's shape follows from the kind of its signed record. */
  predicate WellFormedEntry(name: Text, e: JournalEntry) {
    && e.record.namespace == name && name != [] && e.record.path != []
    && e.tombstone == (e.record.kind == UnbindKind)
    && (e.record.kind == BindKind <==> e.target.Some?)
    && e.manifest == e.target
  }

  /** The precondition that a mutation's signed record states held when it was applied. */
  predicate PreconditionHeld(journal: seq<JournalEntry>, k: nat)
    requires k < |journal|
  {
    var r := journal[k].record;
    r.ifRevision.Some? && r.ifRevision.value != 0 ==>
      var before := Replay(journal[..k]);
      r.path in before && before[r.path].revision == r.ifRevision.value
  }

  ghost predicate Inv(name: Text, ns: Namespace) {
    && ns.nextRevision == ns.revision + 1
    && ns.revision == (if ns.journal == [] then 0 else ns.journal[|ns.journal| - 1].revision)
    && (forall i :: 0 <= i < |ns.journal| ==> ns.journal[i].revision >= 1)
    && (forall i, j :: 0 <= i < j < |ns.journal| ==> ns.journal[i].revision < ns.journal[j].revision)
    && (forall i :: 0 <= i < |ns.journal| ==> WellFormedEntry(name, ns.journal[i]))
    && (forall k :: 0 <= k < |ns.journal| ==> PreconditionHeld(ns.journal, k))
    && ns.bindings == Replay(ns.journal)
  }

  /** ns' is ns after any number of mutations. */
  ghost predicate Extends(ns: Namespace, ns': Namespace) {
    ns.journal <= ns'.journal
  }

  lemma EmptyInv(name: Text)
    ensures Inv(name, EMPTY)
  {
  }

  lemma AppendKeepsInv(name: Text, ns: Namespace, ns': Namespace, e: JournalEntry)
    requires Inv(name, ns) && WellFormedEntry(name, e) && e.revision == ns.nextRevision
    requires e.record.ifRevision.Some? && e.record.ifRevision.value != 0 ==>
               e.record.path in ns.bindings && ns.bindings[e.record.path].revision == e.record.ifRevision.value
    requires ns' == Namespace(e.revision, Replayed(ns.bindings, e), ns.journal + [e], e.revision + 1)
    ensures Inv(name, ns') && Extends(ns, ns')
  {
    hide WellFormedEntry, Replay, Replayed, PreconditionHeld;
    ReplayAppended(ns.journal, e);
    forall k | 0 <= k < |ns'.journal| ensures PreconditionHeld(ns'.journal, k) {
      PreconditionAppended(ns, e, k);
    }
  }

  lemma ReplayAppended(journal: seq<JournalEntry>, e: JournalEntry)
    ensures Replay(journal + [e]) == Replayed(Replay(journal), e)
  {
    hide Replayed;
    assert (journal + [e])[..|journal|] == journal;
  }

  lemma PreconditionAppended(ns: Namespace, e: JournalEntry, k: nat)
    requires k <= |ns.journal| && ns.bindings == Replay(ns.journal)
    requires k < |ns.journal| ==> PreconditionHeld(ns.journal, k)
    requires e.record.ifRevision.Some? && e.record.ifRevision.value != 0 ==>
               e.record.path in ns.bindings && ns.bindings[e.record.path].revision == e.record.ifRevision.value
    ensures PreconditionHeld(ns.journal + [e], k)
  {
    hide Replay;
    assert (ns.journal + [e])[..k] == ns.journal[..k];
    if k == |ns.journal| { assert ns.journal[..k] == ns.journal; }
  }

  /** A bind whose signed record names the same path, kind and precondition keeps the invariant. */
  lemma BindKeepsInv(
    h: Hash, name: Text, ns: Namespace, path: Text, record: MutationRecord, target: Text, metadata: Metadata,
    ifAbsent: bool)
    requires Inv(name, ns) && name != [] && path != []
    requires record.namespace == name && record.path == path && record.kind == BindKind
    requires BindRefusal(ns, path, record.ifRevision, ifAbsent) == None
    ensures Inv(name, Bind(h, ns, path, record, target, metadata))
    ensures Extends(ns, Bind(h, ns, path, record, target, metadata))
  {
    AppendKeepsInv(name, ns, Bind(h, ns, path, record, target, metadata),
                   BindEntry(h, ns.nextRevision, record, target, metadata));
  }

  lemma UnbindKeepsInv(h: Hash, name: Text, ns: Namespace, path: Text, record: MutationRecord, hardDelete: bool)
    requires Inv(name, ns) && name != [] && path != []
    requires record.namespace == name && record.path == path && record.ifRevision.Some?
    requires record.kind == if hardDelete then HardDeleteKind else UnbindKind
    requires UnbindRefusal(ns, path, record.ifRevision.value) == None
    ensures Inv(name, Unbind(h, ns, path, record, hardDelete))
    ensures Extends(ns, Unbind(h, ns, path, record, hardDelete))
  {
    AppendKeepsInv(name, ns, Unbind(h, ns, path, record, hardDelete),
                   UnbindEntry(h, ns.nextRevision, record, hardDelete));
  }

  // ------------------------------------------------------------- main results

  lemma InvSorted(name: Text, ns: Namespace, i: nat)
    requires Inv(name, ns) && i < |ns.journal|
    ensures 1 <= ns.journal[i].revision <= ns.revision
  {
  }

  /** Replaying the journal up to the current revision gives the current bindings. */
  lemma CurrentIsReplay(name: Text, ns: Namespace)
    requires Inv(name, ns)
    ensures SnapshotAt(ns, Some(ns.revision)) == ns.bindings
  {
    BeyondIsCurrent(name, ns, ns.revision);
  }

  /** A revision at or beyond the current one reads the current bindings. */
  lemma BeyondIsCurrent(name: Text, ns: Namespace, revision: nat)
    requires Inv(name, ns) && revision >= ns.revision
    ensures SnapshotAt(ns, Some(revision)) == ns.bindings
  {
    forall k | 0 <= k < |ns.journal| ensures ns.journal[k].revision <= revision { InvSorted(name, ns, k); }
    BeforeStops(ns.journal, revision, |ns.journal|);
    assert ns.journal[..|ns.journal|] == ns.journal;
  }

  /** Later mutations never change what an earlier revision reads. */
  lemma HistoryImmutable(name: Text, ns: Namespace, ns': Namespace, revision: nat)
    requires Inv(name, ns) && Inv(name, ns') && Extends(ns, ns') && revision <= ns.revision
    ensures SnapshotAt(ns', Some(revision)) == SnapshotAt(ns, Some(revision))
  {
    hide Replay, WellFormedEntry, PreconditionHeld;
    var i := CutPoint(ns.journal, revision);
    BeforeStops(ns.journal, revision, i);
    if i == |ns.journal| < |ns'.journal| {
      LaterRevision(name, ns, ns');
    }
    BeforeStops(ns'.journal, revision, i);
    assert ns'.journal[..i] == ns.journal[..i];
  }

  /** What is appended after a state has a revision beyond it. */
  lemma LaterRevision(name: Text, ns: Namespace, ns': Namespace)
    requires Inv(name, ns) && Inv(name, ns') && Extends(ns, ns') && |ns.journal| < |ns'.journal|
    ensures ns'.journal[|ns.journal|].revision > ns.revision
  {
    hide Replay, WellFormedEntry, PreconditionHeld;
    var n := |ns.journal|;
    if n > 0 { assert ns'.journal[n - 1] == ns.journal[n - 1]; }
  }

  lemma CutPoint(journal: seq<JournalEntry>, limit: nat) returns (i: nat)
    ensures i <= |journal| && forall k :: 0 <= k < i ==> journal[k].revision <= limit
    ensures i < |journal| ==> journal[i].revision > limit
  {
    i := 0;
    while i < |journal| && journal[i].revision <= limit
      invariant i <= |journal| && forall k :: 0 <= k < i ==> journal[k].revision <= limit
    {
      i := i + 1;
    }
  }

  /** A binding of the replayed journal was written by the entry whose revision it carries. */
  lemma {:induction false} BindingOrigin(journal: seq<JournalEntry>, path: Text) returns (k: nat)
    requires path in Replay(journal)
    ensures k < |journal| && journal[k].record.path == path
    ensures Replay(journal)[path].revision == journal[k].revision && Replay(journal)[path].path == path
    ensures Replay(journal)[path].tombstone == journal[k].tombstone
    ensures Replay(journal)[path].target == (if journal[k].tombstone then None else journal[k].target)
    ensures Replay(journal)[path].manifest == (if journal[k].tombstone then None else journal[k].manifest)
    ensures !(journal[k].record.kind == HardDeleteKind && !journal[k].tombstone)
    ensures forall j :: k < j < |journal| ==> journal[j].record.path != path
    decreases |journal|
  {
    var n := |journal| - 1;
    if journal[n].record.path == path {
      k := n;
    } else {
      k := BindingOrigin(journal[..n], path);
    }
  }

  /** Once an entry has replaced the binding of a path, no later binding of it is as old. */
  lemma RevisionMovedOn(name: Text, ns: Namespace, i: nat, j: nat)
    requires Inv(name, ns) && i < j < |ns.journal|
    ensures var p := ns.journal[i].record.path;
            p in Replay(ns.journal[..j]) ==> Replay(ns.journal[..j])[p].revision >= ns.journal[i].revision
  {
    var p := ns.journal[i].record.path;
    var before := ns.journal[..j];
    if p in Replay(before) {
      var k := BindingOrigin(before, p);
      assert before[i].record.path == p;
      assert k >= i;
    }
  }

  /**
   In every reachable namespace no two applied mutations of one path state the
   same non-zero if_revision, hard deletes in between or not.
   */
  lemma RevisionUsedOnce(name: Text, ns: Namespace, i: nat, j: nat)
    requires Inv(name, ns) && i < j < |ns.journal|
    requires ns.journal[i].record.path == ns.journal[j].record.path
    requires ns.journal[i].record.ifRevision.Some? && ns.journal[i].record.ifRevision.value != 0
    ensures ns.journal[i].record.ifRevision != ns.journal[j].record.ifRevision
  {
    var r := ns.journal[i].record.ifRevision.value;
    var p := ns.journal[i].record.path;
    assert PreconditionHeld(ns.journal, i) && PreconditionHeld(ns.journal, j);
    var k := BindingOrigin(ns.journal[..i], p);
    assert r == ns.journal[k].revision < ns.journal[i].revision;
    RevisionMovedOn(name, ns, i, j);
  }
}
