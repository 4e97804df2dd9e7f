/**
 hsp-distribution's fixed-size chunking: the one-shot form over a whole object
 and the streaming form that carries a pending chunk from part to part.
 */
module Chunker {
  import opened Basics
  import opened Records

  /** FIXED_CHUNK_SIZE: one mebibyte. */
  const SIZE: nat := 0x10_0000

  datatype Staged = Staged(chunk: ChunkRef, bytes: Text)

  function FixedChunkRef(h: Hash, index: nat, offset: nat, bytes: Text): ChunkRef {
    ChunkRef(index, h(bytes), offset, |bytes|, |bytes|, Ascii("identity"))
  }

  function Count(length: nat): nat { (length + SIZE - 1) / SIZE }

  /** The i-th slice of at most SIZE bytes. */
  function Slice(s: Text, i: nat): (c: Text)
    requires i < Count(|s|)
    ensures 0 < |c| <= SIZE && |c| == Min(|s|, (i + 1) * SIZE) - i * SIZE
  {
    s[i * SIZE..Min(|s|, (i + 1) * SIZE)]
  }

  /** chunk_ciphertext; the index is cast to u32. */
  function ChunkCiphertext(h: Hash, s: Text): (staged: seq<Staged>)
    ensures |staged| == Count(|s|)
  {
    seq(Count(|s|), i requires 0 <= i < Count(|s|) =>
      Staged(FixedChunkRef(h, i % U32, i * SIZE, Slice(s, i)), Slice(s, i)))
  }

  function Refs(staged: seq<Staged>): seq<ChunkRef> {
    seq(|staged|, i requires 0 <= i < |staged| => staged[i].chunk)
  }

  function Concat(parts: seq<Text>): Text {
    if parts == [] then [] else Concat(parts[..|parts| - 1]) + parts[|parts| - 1]
  }

  /** The chunks of an object in plain numbers: mebibytes from the front, the last one shorter, each by its hash. */
  lemma ChunksAre(h: Hash, data: Text, i: nat)
    requires i * 1048576 < |data| < 0x10_0000_0000_0000
    ensures var end := if (i + 1) * 1048576 <= |data| then (i + 1) * 1048576 else |data|;
            var bytes := data[i * 1048576..end];
            && i < |ChunkCiphertext(h, data)|
            && ChunkCiphertext(h, data)[i] ==
               Staged(ChunkRef(i, h(bytes), i * 1048576, |bytes|, |bytes|, Ascii("identity")), bytes)
    ensures (|ChunkCiphertext(h, data)| - 1) * 1048576 < |data| <= |ChunkCiphertext(h, data)| * 1048576
  {
    assert i < Count(|data|) && i % U32 == i;
  }

  /** Completing the pending chunk adds one staged chunk and nothing else. */
  lemma ChunkAppended(h: Hash, done: Text, chunk: Text)
    requires |done| % SIZE == 0 && 0 < |chunk| <= SIZE
    ensures ChunkCiphertext(h, done + chunk) ==
            ChunkCiphertext(h, done) + [Staged(FixedChunkRef(h, |done| / SIZE % U32, |done|, chunk), chunk)]
  {
    var n := |done| / SIZE;
    assert |done| == n * SIZE;
    var all := done + chunk;
    assert Count(|done|) == n && Count(|all|) == n + 1;
    forall i | 0 <= i < n ensures Slice(all, i) == Slice(done, i) { }
    assert Slice(all, n) == chunk;
  }

  /** The state that both streaming passes carry: what is emitted is hashed in the first, uploaded in the second. */
  class FixedChunker {
    const h: Hash
    var pending: Text
    var emitted: seq<Staged>
    var nextIndex: nat
    var nextOffset: nat
    ghost var consumed: Text

    ghost predicate Valid()
      reads this
    {
      && |pending| < SIZE
      && |consumed| >= |pending|
      && nextOffset == |consumed| - |pending|
      && nextOffset == nextIndex * SIZE
      && nextIndex < U32
      && consumed[nextOffset..] == pending
      && emitted == ChunkCiphertext(h, consumed[..nextOffset])
    }

    constructor (h: Hash)
      ensures Valid() && consumed == [] && this.h == h
    {
      this.h := h;
      pending, emitted, nextIndex, nextOffset, consumed := [], [], 0, 0, [];
    }

    /** append_fixed_chunk_ref and advance_fixed_chunk_cursor: both additions are checked. */
    method Append(chunk: Text) returns (ok: bool)
      requires nextIndex < U32 && nextOffset < U64
      modifies this`emitted, this`nextIndex, this`nextOffset
      ensures emitted == old(emitted) + [Staged(FixedChunkRef(h, old(nextIndex), old(nextOffset), chunk), chunk)]
      ensures ok <==> old(nextIndex) + 1 < U32 && old(nextOffset) + |chunk| < U64
      ensures ok ==> nextIndex == old(nextIndex) + 1 && nextOffset == old(nextOffset) + |chunk|
    {
      emitted := emitted + [Staged(FixedChunkRef(h, nextIndex, nextOffset, chunk), chunk)];
      if nextIndex + 1 >= U32 { return false; }
      nextIndex := nextIndex + 1;
      if nextOffset + |chunk| >= U64 { return false; }
      nextOffset := nextOffset + |chunk|;
      return true;
    }

    /** One turn of the loop: extend the pending chunk and emit it when it is full. */
    method Fill(taken: Text) returns (ok: bool)
      requires Valid() && |pending| + |taken| <= SIZE
      modifies this
      ensures ok <==> |old(consumed) + taken| / SIZE < U32
      ensures ok ==> Valid() && consumed == old(consumed) + taken
    {
      hide ChunkCiphertext;
      ghost var done := consumed[..nextOffset];
      pending := pending + taken;
      consumed := consumed + taken;
      assert consumed == done + pending;
      ok := true;
      if |pending| == SIZE {
        ChunkAppended(h, done, pending);
        ok := Append(pending);
        pending := [];
        assert ok ==> consumed[..nextOffset] == consumed;
      } else {
        assert consumed[..nextOffset] == done;
      }
    }

    /** collect_fixed_chunk_refs and upload_fixed_chunks. */
    method Collect(bytes: Text) returns (ok: bool)
      requires Valid()
      modifies this
      ensures ok <==> |old(consumed) + bytes| / SIZE < U32
      ensures ok ==> Valid() && consumed == old(consumed) + bytes
    {
      hide ChunkCiphertext;
      var remaining := bytes;
      while remaining != []
        invariant Valid()
        invariant consumed + remaining == old(consumed) + bytes
        decreases |remaining|
      {
        var take := Min(SIZE - |pending|, |remaining|);
        var added := Fill(remaining[..take]);
        if !added { return false; }
        remaining := remaining[take..];
      }
      return true;
    }

    /** flush_fixed_chunk_ref and flush_fixed_chunk_upload. */
    method Flush() returns (ok: bool)
      requires Valid()
      modifies this
      ensures ok <==> Count(|old(consumed)|) < U32
      ensures ok ==> emitted == ChunkCiphertext(h, old(consumed)) && nextOffset == |old(consumed)| && pending == []
    {
      hide ChunkCiphertext;
      if pending == [] {
        assert consumed[..nextOffset] == consumed;
        return true;
      }
      ghost var done := consumed[..nextOffset];
      ChunkAppended(h, done, pending);
      assert consumed == done + pending;
      ok := Append(pending);
      pending := [];
    }
  }

  lemma ConcatPrefix(parts: seq<Text>, i: nat)
    requires i < |parts|
    ensures Concat(parts[..i + 1]) == Concat(parts[..i]) + parts[i]
    ensures |Concat(parts[..i])| <= |Concat(parts)|
    decreases |parts|
  {
    assert parts[..i + 1][..i] == parts[..i];
    if i < |parts| - 1 {
      var front := parts[..|parts| - 1];
      ConcatPrefix(front, i);
      assert front[..i] == parts[..i];
    }
  }

  /**
   One streaming pass over the parts of a multipart upload: whatever the split,
   it emits exactly the chunks that chunking the concatenation at once gives,
   and ends at the object's length. It refuses exactly the objects of 2^32
   chunks or more.
   */
  method StreamParts(h: Hash, parts: seq<Text>) returns (r: Result<(seq<Staged>, nat)>)
    ensures r.Ok? <==> Count(|Concat(parts)|) < U32
    ensures r.Ok? ==> r.value == (ChunkCiphertext(h, Concat(parts)), |Concat(parts)|)
    ensures r.Err? ==> r.error == ObjectTooLarge
  {
    var chunker := new FixedChunker(h);
    var i := 0;
    while i < |parts|
      invariant 0 <= i <= |parts|
      invariant fresh(chunker) && chunker.Valid() && chunker.h == h
      invariant chunker.consumed == Concat(parts[..i])
    {
      ConcatPrefix(parts, i);
      var ok := chunker.Collect(parts[i]);
      if !ok {
        if i + 1 < |parts| { ConcatPrefix(parts, i + 1); } else { assert parts[..i + 1] == parts; }
        return Err(ObjectTooLarge);
      }
      i := i + 1;
    }
    assert parts[..i] == parts;
    var ok := chunker.Flush();
    if !ok { return Err(ObjectTooLarge); }
    r := Ok((chunker.emitted, chunker.nextOffset));
  }
}
