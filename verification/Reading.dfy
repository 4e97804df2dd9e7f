/**
 The range read of AlphaService::get: the loop that clips each chunk of a
 manifest to the requested range.
 */
module Reading {
  import opened Basics
  import opened Records
  import opened Chunker

  datatype Fragment = Fragment(
    index: nat, cid: Text, chunkOffset: nat, rangeStart: nat, rangeEnd: nat,
    fragmentOffset: nat, fragmentLength: nat, bytes: Text)

  /** What one chunk contributes to the range a..=b: nothing, a fragment, or an error. */
  function Clip(chunks: map<Text, Text>, c: ChunkRef, a: nat, b: nat): Result<seq<Fragment>> {
    var chunkEnd := SatAdd(c.offset, SatSub(c.logicalLen, 1));
    if chunkEnd < a || c.offset > b then Ok([])
    else if c.cid !in chunks then Err(MissingChunk)
    else
      var start := Max(a, c.offset);
      var end := Min(b, chunkEnd);
      var offset := SatSub(start, c.offset);
      var length := SatAdd(SatSub(end, start), 1);
      if offset + length > |chunks[c.cid]| then Err(InvalidRange)
      else Ok([Fragment(c.index, c.cid, c.offset, start, end, offset, length,
                        chunks[c.cid][offset..offset + length])])
  }

  /** The fragments of a list of chunks, in order, up to the first error. */
  function Fragments(chunks: map<Text, Text>, refs: seq<ChunkRef>, a: nat, b: nat): Result<seq<Fragment>> {
    if refs == [] then Ok([]) else
      var before := Fragments(chunks, refs[..|refs| - 1], a, b);
      if before.Err? then before else
        var last := Clip(chunks, refs[|refs| - 1], a, b);
        if last.Err? then last else Ok(before.value + last.value)
  }

  lemma {:induction false} FragmentsStop(chunks: map<Text, Text>, refs: seq<ChunkRef>, n: nat, a: nat, b: nat)
    requires n <= |refs| && Fragments(chunks, refs[..n], a, b).Err?
    ensures Fragments(chunks, refs, a, b) == Fragments(chunks, refs[..n], a, b)
    decreases |refs|
  {
    if n == |refs| {
      assert refs[..n] == refs;
    } else {
      var front := refs[..|refs| - 1];
      assert front[..n] == refs[..n];
      FragmentsStop(chunks, front, n, a, b);
    }
  }

  /** The read loop. */
  method ReadFragments(chunks: map<Text, Text>, refs: seq<ChunkRef>, a: nat, b: nat)
    returns (r: Result<seq<Fragment>>)
    ensures r == Fragments(chunks, refs, a, b)
  {
    var out: seq<Fragment> := [];
    var i := 0;
    while i < |refs|
      invariant 0 <= i <= |refs|
      invariant Fragments(chunks, refs[..i], a, b) == Ok(out)
    {
      assert refs[..i + 1][..i] == refs[..i];
      var piece := Clip(chunks, refs[i], a, b);
      if piece.Err? {
        FragmentsStop(chunks, refs, i + 1, a, b);
        return piece;
      }
      out := out + piece.value;
      i := i + 1;
    }
    assert refs[..i] == refs;
    r := Ok(out);
  }

  function Body(fragments: seq<Fragment>): Text {
    if fragments == [] then [] else Body(fragments[..|fragments| - 1]) + fragments[|fragments| - 1].bytes
  }

  // ------------------------------------------------------------- what is read

  /** The chunk list tiles the object: consecutive non-empty stretches, each stored under its CID. */
  ghost predicate Tiled(chunks: map<Text, Text>, refs: seq<ChunkRef>, data: Text) {
    && |data| < U64
    && (forall i :: 0 <= i < |refs| ==>
          && refs[i].offset < Bound(refs, data, i + 1) == refs[i].offset + refs[i].logicalLen <= |data|
          && refs[i].cid in chunks
          && chunks[refs[i].cid] == data[refs[i].offset..Bound(refs, data, i + 1)])
    && Bound(refs, data, 0) == 0
  }

  /** Where the i-th chunk begins, or where the object ends. */
  function Bound(refs: seq<ChunkRef>, data: Text, i: nat): nat {
    if i < |refs| then refs[i].offset else |data|
  }

  /** The fragment holds exactly the object's bytes of the stretch it names. */
  ghost predicate Faithful(f: Fragment, data: Text) {
    && f.rangeStart <= f.rangeEnd < |data|
    && f.bytes == data[f.rangeStart..f.rangeEnd + 1]
    && f.fragmentLength == |f.bytes|
    && f.chunkOffset + f.fragmentOffset == f.rangeStart
  }

  /** Fragments that cover a..=b without gap or overlap. */
  ghost predicate Tiles(fragments: seq<Fragment>, data: Text, a: nat, b: nat) {
    && fragments != []
    && fragments[0].rangeStart == a
    && fragments[|fragments| - 1].rangeEnd == b
    && (forall i :: 0 <= i < |fragments| ==> Faithful(fragments[i], data))
    && (forall i, j :: 0 <= i && j == i + 1 < |fragments| ==> fragments[j].rangeStart == fragments[i].rangeEnd + 1)
  }

  lemma TilesAppend(fragments: seq<Fragment>, f: Fragment, data: Text, a: nat, b: nat)
    requires Tiles(fragments, data, a, b) && Faithful(f, data) && f.rangeStart == b + 1
    ensures Tiles(fragments + [f], data, a, f.rangeEnd)
  {
    hide Faithful;
  }

  lemma SliceOfSlice(s: Text, lo: nat, hi: nat, x: nat, y: nat)
    requires lo <= x <= y <= hi <= |s|
    ensures s[lo..hi][x - lo..y - lo] == s[x..y]
  {
    var t := s[lo..hi];
    forall k | 0 <= k < y - x ensures t[x - lo..y - lo][k] == s[x..y][k] {
      assert t[x - lo + k] == s[x + k];
    }
  }

  /** The part of a..=b before `reached` is covered. */
  ghost predicate Covers(fragments: seq<Fragment>, data: Text, a: nat, b: nat, reached: nat) {
    if reached <= a then fragments == [] else Tiles(fragments, data, a, Min(b, reached - 1))
  }

  /** What clipping the stretch lo..hi contributes. */
  ghost predicate Piece(piece: seq<Fragment>, data: Text, a: nat, b: nat, lo: nat, hi: nat) {
    if hi <= a || lo > b then piece == []
    else
      && |piece| == 1 && Faithful(piece[0], data)
      && piece[0].rangeStart == Max(a, lo) && piece[0].rangeEnd == Min(b, hi - 1)
  }

  /** Clipping one stored chunk. */
  lemma ClipChunk(chunks: map<Text, Text>, c: ChunkRef, data: Text, a: nat, b: nat)
    requires a <= b < |data| < U64
    requires 0 < c.logicalLen && c.offset + c.logicalLen <= |data| && c.cid in chunks
    requires chunks[c.cid] == data[c.offset..c.offset + c.logicalLen]
    ensures var r := Clip(chunks, c, a, b);
            r.Ok? && Piece(r.value, data, a, b, c.offset, c.offset + c.logicalLen)
  {
    var lo, hi := c.offset, c.offset + c.logicalLen;
    assert SatAdd(lo, SatSub(c.logicalLen, 1)) == hi - 1;
    if hi > a && lo <= b {
      var start, end := Max(a, lo), Min(b, hi - 1);
      SliceOfSlice(data, lo, hi, start, end + 1);
      assert SatSub(start, lo) == start - lo && SatAdd(SatSub(end, start), 1) == end + 1 - start;
    }
  }

  lemma CoverStep(fragments: seq<Fragment>, piece: seq<Fragment>, data: Text, a: nat, b: nat, lo: nat, hi: nat)
    requires a <= b && lo < hi
    requires Covers(fragments, data, a, b, lo) && Piece(piece, data, a, b, lo, hi)
    ensures Covers(fragments + piece, data, a, b, hi)
  {
    if piece == [] {
      assert fragments + piece == fragments;
    } else if fragments == [] {
      assert fragments + piece == [piece[0]];
    } else {
      assert piece == [piece[0]];
      TilesAppend(fragments, piece[0], data, a, lo - 1);
    }
  }

  lemma TiledAt(chunks: map<Text, Text>, refs: seq<ChunkRef>, data: Text, i: nat)
    requires Tiled(chunks, refs, data) && i < |refs|
    ensures |data| < U64
    ensures Bound(refs, data, i) == refs[i].offset
    ensures refs[i].offset < Bound(refs, data, i + 1) == refs[i].offset + refs[i].logicalLen <= |data|
    ensures refs[i].cid in chunks
    ensures chunks[refs[i].cid] == data[refs[i].offset..refs[i].offset + refs[i].logicalLen]
  {
  }

  lemma FragmentsStep(chunks: map<Text, Text>, refs: seq<ChunkRef>, a: nat, b: nat, n: nat)
    requires n < |refs| && Fragments(chunks, refs[..n], a, b).Ok? && Clip(chunks, refs[n], a, b).Ok?
    ensures Fragments(chunks, refs[..n + 1], a, b) ==
            Ok(Fragments(chunks, refs[..n], a, b).value + Clip(chunks, refs[n], a, b).value)
  {
    hide Clip;
    var front := refs[..n + 1];
    assert front[..n] == refs[..n] && front[n] == refs[n];
  }

  /** After n chunks the loop has covered the range up to the n-th boundary. */
  lemma {:induction false} FragmentsOfPrefix(
    chunks: map<Text, Text>, refs: seq<ChunkRef>, data: Text, a: nat, b: nat, n: nat)
    requires Tiled(chunks, refs, data) && a <= b < |data| && n <= |refs|
    ensures Fragments(chunks, refs[..n], a, b).Ok?
    ensures Covers(Fragments(chunks, refs[..n], a, b).value, data, a, b, Bound(refs, data, n))
    decreases n
  {
    hide Clip, Covers, Piece, Tiled, Bound, Fragments;
    if n == 0 {
      CoversNothing(chunks, refs, data, a, b);
    } else {
      FragmentsOfPrefix(chunks, refs, data, a, b, n - 1);
      TiledAt(chunks, refs, data, n - 1);
      var c := refs[n - 1];
      ClipChunk(chunks, c, data, a, b);
      FragmentsStep(chunks, refs, a, b, n - 1);
      CoverStep(Fragments(chunks, refs[..n - 1], a, b).value, Clip(chunks, c, a, b).value,
                data, a, b, c.offset, c.offset + c.logicalLen);
    }
  }

  lemma CoversNothing(chunks: map<Text, Text>, refs: seq<ChunkRef>, data: Text, a: nat, b: nat)
    requires Tiled(chunks, refs, data)
    ensures Fragments(chunks, refs[..0], a, b) == Ok([]) && Covers([], data, a, b, Bound(refs, data, 0))
  {
    assert refs[..0] == [];
  }

  lemma {:induction false} TilesBody(fragments: seq<Fragment>, data: Text, a: nat, b: nat)
    requires Tiles(fragments, data, a, b)
    ensures a <= b < |data| && Body(fragments) == data[a..b + 1]
  {
    var n := |fragments| - 1;
    var front, last := fragments[..n], fragments[n];
    assert Faithful(last, data);
    if n == 0 {
      assert front == [];
    } else {
      TilesFront(fragments, data, a, b);
      hide Tiles;
      TilesBody(front, data, a, last.rangeStart - 1);
      assert data[a..last.rangeStart] + data[last.rangeStart..b + 1] == data[a..b + 1];
    }
  }

  lemma TilesFront(fragments: seq<Fragment>, data: Text, a: nat, b: nat)
    requires Tiles(fragments, data, a, b) && |fragments| > 1
    ensures var n := |fragments| - 1;
            && fragments[n].rangeStart >= 1 && fragments[n].rangeEnd == b
            && Tiles(fragments[..n], data, a, fragments[n].rangeStart - 1)
  {
    hide Faithful;
    var n := |fragments| - 1;
    assert fragments[n].rangeStart == fragments[n - 1].rangeEnd + 1;
  }

  /** A range read of a tiled object returns exactly the inclusive slice, in fragments that tile it. */
  lemma RangeReadExact(chunks: map<Text, Text>, refs: seq<ChunkRef>, data: Text, a: nat, b: nat)
    requires Tiled(chunks, refs, data) && a <= b < |data|
    ensures var r := Fragments(chunks, refs, a, b);
            r.Ok? && Tiles(r.value, data, a, b) && Body(r.value) == data[a..b + 1]
  {
    FragmentsOfPrefix(chunks, refs, data, a, b, |refs|);
    assert refs[..|refs|] == refs;
    TilesBody(Fragments(chunks, refs, a, b).value, data, a, b);
  }

  /** Fixed chunking tiles the object, wherever its chunks are stored. */
  lemma ChunkedIsTiled(h: Hash, chunks: map<Text, Text>, data: Text)
    requires 0 < |data| < U64
    requires forall i :: 0 <= i < Count(|data|) ==>
               h(Slice(data, i)) in chunks && chunks[h(Slice(data, i))] == Slice(data, i)
    ensures Tiled(chunks, Refs(ChunkCiphertext(h, data)), data)
  {
    var refs := Refs(ChunkCiphertext(h, data));
    forall i | 0 <= i < |refs|
      ensures && refs[i].offset < Bound(refs, data, i + 1) == refs[i].offset + refs[i].logicalLen <= |data|
              && refs[i].cid in chunks
              && chunks[refs[i].cid] == data[refs[i].offset..Bound(refs, data, i + 1)]
    {
      assert refs[i] == FixedChunkRef(h, i % U32, i * SIZE, Slice(data, i));
    }
  }
}
