/**
 The tenant's event log and its subscribers: appended with consecutive numbers,
 read in windows, delivered through a filter and resumed by cursor.
 */
module Events {
  import opened Basics
  import opened Records
  import opened Paths

  datatype EventType =
    | ObjectCommitted | NamespaceBound | NamespaceUnbound | NamespaceTombstoned | AuthDenied | PinAccepted

  datatype EventRecord = EventRecord(
    number: nat, at: nat, eventType: EventType, namespace: Option<Text>, path: Option<Text>,
    cid: Option<Text>, revision: Option<nat>, payload: Metadata)

  /** The stored events by number, and the counter. */
  datatype Log = Log(records: map<nat, EventRecord>, next: nat)

  const EMPTY_LOG: Log := Log(map[], 1)

  function Append(log: Log, e: EventRecord): Log {
    Log(log.records[log.next := e.(number := log.next)], log.next + 1)
  }

  datatype Filter = Filter(
    namespacePrefix: Option<Text>, pathExact: Option<Text>, objectCid: Option<Text>,
    eventType: Option<EventType>, tenantScope: Option<Text>)

  predicate FilterAccepts(f: Filter, e: EventRecord) {
    && (f.namespacePrefix.Some? ==> e.namespace.Some? && Under(f.namespacePrefix.value, e.namespace.value))
    && (f.pathExact.Some? ==> e.path == f.pathExact)
    && (f.objectCid.Some? ==> e.cid == f.objectCid)
    && (f.eventType.Some? ==> Some(e.eventType) == f.eventType)
  }

  /** No filters at all accept everything. */
  predicate Matches(filters: seq<Filter>, e: EventRecord) {
    filters == [] || exists i :: 0 <= i < |filters| && FilterAccepts(filters[i], e)
  }

  /** The first `max` stored events numbered `from` or more. */
  function Window(log: Log, from: nat, max: nat): seq<EventRecord>
    decreases SatSub(log.next, from)
  {
    if from >= log.next || max == 0 then []
    else if from in log.records then [log.records[from]] + Window(log, from + 1, max - 1)
    else Window(log, from + 1, max)
  }

  /** read_event_records_after. */
  method ReadRecordsAfter(log: Log, from: nat, max: nat) returns (items: seq<EventRecord>)
    ensures items == Window(log, from, max)
  {
    items := [];
    var number: nat := from;
    while number < log.next
      invariant |items| <= max
      invariant Window(log, from, max) == items + Window(log, number, max - |items|)
      decreases SatSub(log.next, number)
    {
      if |items| >= max { break; }
      if number in log.records {
        assert Window(log, number, max - |items|) ==
               [log.records[number]] + Window(log, number + 1, max - |items| - 1);
        items := items + [log.records[number]];
      }
      number := number + 1;
    }
  }

  function Select(filters: seq<Filter>, events: seq<EventRecord>): seq<EventRecord> {
    if events == [] then []
    else (if Matches(filters, events[0]) then [events[0]] else []) + Select(filters, events[1..])
  }

  datatype PollResult = PollResult(delivered: seq<EventRecord>, cursor: nat)

  /** subscribe_poll: the cursor moves past the last delivered event, or stays. */
  function Poll(log: Log, filters: seq<Filter>, cursor: nat, batchMax: nat): PollResult {
    var d := Select(filters, Window(log, cursor, batchMax));
    PollResult(d, if d == [] then cursor else d[|d| - 1].number + 1)
  }

  /** EVENT_REPLAY_WINDOW: the settings' event_replay_window_sec, compared with event numbers. */
  const REPLAY_WINDOW: nat := 3600

  /** subscribe_start: where a subscription begins. */
  function StartAt(log: Log, tenant: Text, cursor: Option<Text>, fromNumber: Option<nat>): Result<nat> {
    var chosen :=
      if cursor.Some? then
        var c := DecodeEventCursor(cursor.value);
        if c.None? || c.value.tenant != tenant then None else Some(c.value.nextSeq)
      else if fromNumber.Some? then fromNumber
      else Some(log.next);
    if chosen.None? then Err(InvalidCursor)
    else if chosen.value < SatSub(log.next, REPLAY_WINDOW) then Err(CursorExpired)
    else Ok(chosen.value)
  }

  // ------------------------------------------------------------- the invariant

  ghost predicate LogInv(log: Log) {
    && log.next >= 1
    && (forall n :: n in log.records <==> 1 <= n < log.next)
    && (forall n :: n in log.records ==> log.records[n].number == n)
  }

  /** log' is log after any number of appends. */
  ghost predicate Grown(log: Log, log': Log) {
    && log.next <= log'.next
    && (forall n :: n in log.records ==> n in log'.records && log'.records[n] == log.records[n])
  }

  lemma AppendKeepsInv(log: Log, e: EventRecord)
    requires LogInv(log)
    ensures LogInv(Append(log, e)) && Grown(log, Append(log, e))
  {
  }

  /** The reference: every matching event numbered from..to, in order. */
  function Matching(log: Log, filters: seq<Filter>, from: nat, to: nat): seq<EventRecord>
    decreases SatSub(to, from)
  {
    if from >= to then []
    else (if from in log.records && Matches(filters, log.records[from]) then [log.records[from]] else [])
         + Matching(log, filters, from + 1, to)
  }

  // ---------------------------------------------------------------- one poll

  lemma {:induction false} MatchingSplit(log: Log, filters: seq<Filter>, a: nat, b: nat, c: nat)
    requires a <= b <= c
    ensures Matching(log, filters, a, c) == Matching(log, filters, a, b) + Matching(log, filters, b, c)
    decreases SatSub(b, a)
  {
    if a < b { MatchingSplit(log, filters, a + 1, b, c); }
  }

  lemma {:induction false} MatchingGrown(log: Log, log': Log, filters: seq<Filter>, from: nat, to: nat)
    requires LogInv(log) && LogInv(log') && Grown(log, log') && to <= log.next
    ensures Matching(log', filters, from, to) == Matching(log, filters, from, to)
    decreases SatSub(to, from)
  {
    if from < to { MatchingGrown(log, log', filters, from + 1, to); }
  }

  /** What is selected from a window is what matches up to the number after the last one selected. */
  lemma {:induction false} PollIsMatching(log: Log, filters: seq<Filter>, from: nat, max: nat)
    requires LogInv(log)
    ensures var d := Select(filters, Window(log, from, max));
            d != [] ==>
              && from <= d[|d| - 1].number < log.next
              && d == Matching(log, filters, from, d[|d| - 1].number + 1)
    decreases SatSub(log.next, from)
  {
    if from < log.next && max > 0 {
      hide Matches, LogInv;
      if from !in log.records {
        PollIsMatching(log, filters, from + 1, max);
      } else {
        PollIsMatching(log, filters, from + 1, max - 1);
        var e := log.records[from];
        var rest := Window(log, from + 1, max - 1);
        assert e.number == from by { assert LogInv(log); NumberAt(log, from); }
        assert ([e] + rest)[1..] == rest;
        var d := Select(filters, rest);
        if d == [] {
          assert Matching(log, filters, from + 1, from + 1) == [];
        }
      }
    }
  }

  lemma NumberAt(log: Log, n: nat)
    requires LogInv(log) && n in log.records
    ensures log.records[n].number == n
  {
  }

  lemma PollExact(log: Log, filters: seq<Filter>, cursor: nat, batchMax: nat)
    requires LogInv(log)
    ensures var r := Poll(log, filters, cursor, batchMax);
            && r.cursor >= cursor && r.cursor <= Max(cursor, log.next)
            && r.delivered == Matching(log, filters, cursor, r.cursor)
            && (r.cursor == cursor <==> r.delivered == [])
  {
    PollIsMatching(log, filters, cursor, batchMax);
  }

  // ------------------------------------------------------- runs of a subscriber

  /** Polls that thread the returned cursor, one per log state. */
  function Session(logs: seq<Log>, filters: seq<Filter>, batches: seq<nat>, cursor: nat): PollResult
    requires |logs| == |batches|
    decreases |logs|
  {
    if logs == [] then PollResult([], cursor) else
      var first := Poll(logs[0], filters, cursor, batches[0]);
      var rest := Session(logs[1..], filters, batches[1..], first.cursor);
      PollResult(first.delivered + rest.delivered, rest.cursor)
  }

  /** Logs as successive polls find them, none later than `last`. */
  ghost predicate GrowingTo(logs: seq<Log>, last: Log) {
    LogInv(last) && forall i :: 0 <= i < |logs| ==> LogInv(logs[i]) && Grown(logs[i], last)
  }

  /**
   Whatever is appended between the polls, a subscriber receives exactly the
   matching events from its first cursor up to its current one, in order, with
   no gap and no repeat.
   */
  lemma {:induction false} DeliveredExactly(
    logs: seq<Log>, last: Log, filters: seq<Filter>, batches: seq<nat>, cursor: nat)
    requires |logs| == |batches| && GrowingTo(logs, last)
    ensures var r := Session(logs, filters, batches, cursor);
            r.cursor >= cursor && r.delivered == Matching(last, filters, cursor, r.cursor)
    decreases |logs|
  {
    if logs != [] {
      var first := Poll(logs[0], filters, cursor, batches[0]);
      PollExact(logs[0], filters, cursor, batches[0]);
      if first.cursor > cursor {
        MatchingGrown(logs[0], last, filters, cursor, first.cursor);
      }
      DeliveredExactly(logs[1..], last, filters, batches[1..], first.cursor);
      var rest := Session(logs[1..], filters, batches[1..], first.cursor);
      hide Poll, Window, Select;
      MatchingSplit(last, filters, cursor, first.cursor, rest.cursor);
    }
  }

  lemma {:induction false} WindowNonEmpty(log: Log, from: nat, max: nat)
    requires LogInv(log) && max >= 1 && 1 < log.next && from < log.next
    ensures Window(log, from, max) != []
    decreases SatSub(log.next, from)
  {
    if from !in log.records { WindowNonEmpty(log, from + 1, max); }
  }

  /** An unfiltered subscriber moves on as long as there is an event for it. */
  lemma UnfilteredMoves(log: Log, cursor: nat, batchMax: nat)
    requires LogInv(log) && batchMax >= 1 && 1 < log.next && cursor < log.next
    ensures Poll(log, [], cursor, batchMax).cursor > cursor
  {
    WindowNonEmpty(log, cursor, batchMax);
    PollExact(log, [], cursor, batchMax);
  }

  /** So once the log has stopped growing it reaches the end, in at most one poll per event. */
  lemma {:induction false} UnfilteredReachesEnd(logs: seq<Log>, batches: seq<nat>, cursor: nat, log: Log)
    requires |logs| == |batches| && LogInv(log) && 1 < log.next
    requires forall i :: 0 <= i < |logs| ==> logs[i] == log && batches[i] >= 1
    ensures Session(logs, [], batches, cursor).cursor >= Min(cursor + |logs|, log.next)
    decreases |logs|
  {
    if logs != [] {
      PollExact(log, [], cursor, batches[0]);
      if cursor < log.next { UnfilteredMoves(log, cursor, batches[0]); }
      UnfilteredReachesEnd(logs[1..], batches[1..], Poll(log, [], cursor, batches[0]).cursor, log);
    }
  }

  // ------------------------------------------------- a filter that stops moving

  predicate AnyMatch(filters: seq<Filter>, events: seq<EventRecord>) {
    exists i :: 0 <= i < |events| && Matches(filters, events[i])
  }

  lemma {:induction false} SelectEmpty(filters: seq<Filter>, events: seq<EventRecord>)
    ensures Select(filters, events) == [] <==> !AnyMatch(filters, events)
  {
    hide Matches;
    if events != [] {
      SelectEmpty(filters, events[1..]);
      assert forall i :: 1 <= i < |events| ==> events[i] == events[1..][i - 1];
    }
  }

  /** A poll moves the cursor exactly when its window holds a match. */
  lemma PollMovesIff(log: Log, filters: seq<Filter>, cursor: nat, batchMax: nat)
    requires LogInv(log)
    ensures Poll(log, filters, cursor, batchMax).cursor > cursor <==>
            AnyMatch(filters, Window(log, cursor, batchMax))
  {
    SelectEmpty(filters, Window(log, cursor, batchMax));
    PollExact(log, filters, cursor, batchMax);
  }

  lemma {:induction false} FullWindowFixed(log: Log, log': Log, from: nat, max: nat)
    requires LogInv(log) && LogInv(log') && Grown(log, log') && |Window(log, from, max)| == max
    ensures Window(log', from, max) == Window(log, from, max)
    decreases SatSub(log.next, from)
  {
    if from < log.next && max > 0 {
      if from in log.records {
        FullWindowFixed(log, log', from + 1, max - 1);
      } else {
        FullWindowFixed(log, log', from + 1, max);
      }
    }
  }

  lemma {:induction false} WindowPrefix(log: Log, from: nat, max: nat, max': nat)
    requires max' <= max
    ensures Window(log, from, max') <= Window(log, from, max)
    decreases SatSub(log.next, from)
  {
    if from < log.next && max' > 0 {
      if from in log.records {
        WindowPrefix(log, from + 1, max - 1, max' - 1);
      } else {
        WindowPrefix(log, from + 1, max, max');
      }
    }
  }

  /**
   A full window without a match is final for its size: whatever is appended
   afterwards, matching or not, no poll of that batch_max or a smaller one
   delivers anything again; a larger one does exactly when its own window
   reaches a match.
   */
  lemma FullWindowWithoutMatchIsFinal(
    log: Log, log': Log, filters: seq<Filter>, cursor: nat, batchMax: nat, batchMax': nat)
    requires LogInv(log) && LogInv(log') && Grown(log, log')
    requires |Window(log, cursor, batchMax)| == batchMax
    requires !AnyMatch(filters, Window(log, cursor, batchMax))
    ensures batchMax' <= batchMax ==> Poll(log', filters, cursor, batchMax') == PollResult([], cursor)
    ensures Poll(log', filters, cursor, batchMax').cursor > cursor <==>
            AnyMatch(filters, Window(log', cursor, batchMax')[Min(batchMax, |Window(log', cursor, batchMax')|)..])
  {
    hide Matches, Window, Select, LogInv, Grown, AnyMatch;
    var w, w' := Window(log, cursor, batchMax), Window(log', cursor, batchMax');
    FullWindowFixed(log, log', cursor, batchMax);
    WindowWithin(log', cursor, batchMax');
    if batchMax' <= batchMax {
      WindowPrefix(log', cursor, batchMax, batchMax');
    } else {
      WindowPrefix(log', cursor, batchMax', batchMax);
    }
    NoMatchBefore(filters, w, w');
    PollMovesIff(log', filters, cursor, batchMax');
    SelectEmpty(filters, w');
    if batchMax' <= batchMax { NoMatchInNothing(filters, w'[|w'|..]); }
  }

  lemma NoMatchInNothing(filters: seq<Filter>, events: seq<EventRecord>)
    requires events == []
    ensures !AnyMatch(filters, events)
  {
  }

  /** Where one list begins the other and the first holds no match, a match lies beyond it. */
  lemma NoMatchBefore(filters: seq<Filter>, w: seq<EventRecord>, w': seq<EventRecord>)
    requires !AnyMatch(filters, w) && (w <= w' || w' <= w)
    ensures AnyMatch(filters, w') <==> AnyMatch(filters, w'[Min(|w|, |w'|)..])
  {
    hide Matches;
    var n := Min(|w|, |w'|);
    var rest := w'[n..];
    assert forall i :: 0 <= i < |rest| ==> rest[i] == w'[n + i];
    assert forall i :: 0 <= i < n ==> w[i] == w'[i] && !Matches(filters, w[i]);
    if AnyMatch(filters, w') {
      var i :| 0 <= i < |w'| && Matches(filters, w'[i]);
      assert rest[i - n] == w'[i];
    }
  }

  lemma {:induction false} WindowWithin(log: Log, from: nat, max: nat)
    ensures |Window(log, from, max)| <= max
    decreases SatSub(log.next, from)
  {
    if from < log.next && max > 0 {
      WindowWithin(log, from + 1, if from in log.records then max - 1 else max);
    }
  }

  // ------------------------------------------------------- what a filter and a cursor mean

  /** Every field that the filter sets is as it says; a namespace may also lie below the one named. */
  predicate Passes(f: Filter, e: EventRecord) {
    && (f.namespacePrefix == None || e.namespace == f.namespacePrefix ||
        (e.namespace.Some? && f.namespacePrefix.value + [0x2F] <= e.namespace.value))
    && (f.pathExact == None || e.path == f.pathExact)
    && (f.objectCid == None || e.cid == f.objectCid)
    && (f.eventType == None || f.eventType == Some(e.eventType))
  }

  lemma FilterIff(f: Filter, e: EventRecord)
    ensures FilterAccepts(f, e) <==> Passes(f, e)
  {
  }

  lemma MatchesIff(filters: seq<Filter>, e: EventRecord)
    ensures Matches(filters, e) <==> filters == [] || exists i :: 0 <= i < |filters| && Passes(filters[i], e)
  {
    hide FilterAccepts, Passes;
    forall i | 0 <= i < |filters| ensures FilterAccepts(filters[i], e) <==> Passes(filters[i], e) {
      FilterIff(filters[i], e);
    }
  }

  lemma {:induction false} MatchingHas(log: Log, filters: seq<Filter>, from: nat, to: nat, e: EventRecord)
    requires LogInv(log)
    ensures e in Matching(log, filters, from, to) <==>
            from <= e.number < to && e.number in log.records && log.records[e.number] == e && Matches(filters, e)
    decreases SatSub(to, from)
  {
    hide Matches;
    if from < to { MatchingHas(log, filters, from + 1, to, e); }
  }

  /** The events a subscriber is due: those of the stretch that some filter lets through, by number. */
  lemma MatchingIff(log: Log, filters: seq<Filter>, from: nat, to: nat, e: EventRecord)
    requires LogInv(log)
    ensures e in Matching(log, filters, from, to) <==>
            && from <= e.number < to && e.number in log.records && log.records[e.number] == e
            && (filters == [] || exists i :: 0 <= i < |filters| && Passes(filters[i], e))
  {
    hide Matches, Passes, LogInv, Matching;
    MatchingHas(log, filters, from, to, e);
    MatchesIff(filters, e);
  }

  ghost predicate ByNumber(events: seq<EventRecord>) {
    forall i, j :: 0 <= i < j < |events| ==> events[i].number < events[j].number
  }

  lemma ByNumberCons(e: EventRecord, events: seq<EventRecord>)
    requires ByNumber(events) && forall i :: 0 <= i < |events| ==> e.number < events[i].number
    ensures ByNumber([e] + events)
  {
  }

  lemma {:induction false} MatchingInOrder(log: Log, filters: seq<Filter>, from: nat, to: nat)
    requires LogInv(log)
    ensures ByNumber(Matching(log, filters, from, to))
    decreases SatSub(to, from)
  {
    hide Matches;
    if from < to {
      MatchingInOrder(log, filters, from + 1, to);
      var m := Matching(log, filters, from + 1, to);
      forall i | 0 <= i < |m| ensures m[i].number > from {
        assert m[i] in m;
        MatchingHas(log, filters, from + 1, to, m[i]);
      }
      if from in log.records && Matches(filters, log.records[from]) {
        ByNumberCons(log.records[from], m);
      } else {
        assert [] + m == m;
      }
    }
  }

  /** A poll delivers at most its batch. */
  lemma PollSize(log: Log, filters: seq<Filter>, cursor: nat, batchMax: nat)
    ensures |Poll(log, filters, cursor, batchMax).delivered| <= batchMax
  {
    WindowWithin(log, cursor, batchMax);
    SelectWithin(filters, Window(log, cursor, batchMax));
  }

  lemma {:induction false} SelectWithin(filters: seq<Filter>, events: seq<EventRecord>)
    ensures |Select(filters, events)| <= |events|
  {
    if events != [] { SelectWithin(filters, events[1..]); }
  }

  /**
   Where a subscription starts: at its cursor if it is this tenant's, else at the
   number asked for, else at the end; and not more than 3600 events back.
   */
  lemma StartAtIs(log: Log, tenant: Text, cursor: Option<EventCursor>, from: Option<nat>)
    requires cursor.Some? ==> |cursor.value.tenant| < U64 && cursor.value.nextSeq < U64
    ensures var r := StartAt(log, tenant, if cursor.Some? then Some(EncodeEventCursor(cursor.value)) else None, from);
            var wanted := if cursor.Some? then cursor.value.nextSeq else if from.Some? then from.value else log.next;
            if cursor.Some? && (cursor.value.tenant != tenant || tenant == []) then r == Err(InvalidCursor)
            else if wanted + 3600 < log.next then r == Err(CursorExpired)
            else r == Ok(wanted)
  {
    if cursor.Some? {
      EventCursorRoundTrip(cursor.value, []);
      assert EncodeEventCursor(cursor.value) + [] == EncodeEventCursor(cursor.value);
    }
    hide EncodeEventCursor, DecodeEventCursor;
  }
}
