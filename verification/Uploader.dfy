/**
 The second streaming pass of a multipart upload: the parts are cut into chunks
 again and every complete chunk is sent as soon as it is there.
 */
module Uploader {
  import opened Basics
  import opened Chunker
  import opened Policy
  import opened Service
  import opened Distribution
  import opened Alpha

  // ------------------------------------------------------------- what is sent so far

  /** Sending a longer list: it goes on where the shorter one ended, or stops where it stopped. */
  lemma {:induction false} UploadSplit(
    env: Env, s: Store, seen: Cache, auth: Auth, id: Text, a: seq<Staged>, b: seq<Staged>, i: nat, now: nat)
    requires i <= |a| && a <= b
    ensures var t := UploadChunks(env, s, seen, auth, id, a, i, now);
            UploadChunks(env, s, seen, auth, id, b, i, now) ==
            if t.reply.Err? then t else UploadChunks(env, t.store, t.seen, auth, id, b, |a|, now)
    decreases |a| - i
  {
    hide ChunkStep;
    if i < |a| {
      var c := a[i].chunk;
      var t := ChunkStep(env, s, seen, auth, ChunkRequest(id, c.index, c.cid, c.offset, c.storedLen), a[i].bytes, now);
      if t.reply.Ok? { UploadSplit(env, t.store, t.seen, auth, id, a, b, i + 1, now); }
    }
  }

  /** The step of sending one staged chunk. */
  function SendOne(env: Env, s: Store, seen: Cache, auth: Auth, id: Text, c: Staged, now: nat): Step<()> {
    var t := ChunkStep(env, s, seen, auth, ChunkRequest(id, c.chunk.index, c.chunk.cid, c.chunk.offset, c.chunk.storedLen),
                       c.bytes, now);
    Step(t.store, t.seen, if t.reply.Err? then Err(t.reply.error) else Ok(()))
  }

  lemma UploadOneMore(
    env: Env, s: Store, seen: Cache, auth: Auth, id: Text, a: seq<Staged>, c: Staged, now: nat)
    requires UploadChunks(env, s, seen, auth, id, a, 0, now).reply.Ok?
    ensures var t := UploadChunks(env, s, seen, auth, id, a, 0, now);
            UploadChunks(env, s, seen, auth, id, a + [c], 0, now) == SendOne(env, t.store, t.seen, auth, id, c, now)
  {
    var t := UploadChunks(env, s, seen, auth, id, a, 0, now);
    UploadSplit(env, s, seen, auth, id, a, a + [c], 0, now);
    hide ChunkStep;
    var u := SendOne(env, t.store, t.seen, auth, id, c, now);
    assert (a + [c])[|a|] == c;
    assert u.reply.Ok? ==> UploadChunks(env, u.store, u.seen, auth, id, a + [c], |a| + 1, now) == Step(u.store, u.seen, Ok(()));
  }

  /** The complete chunks of a beginning are the first chunks of the whole. */
  lemma ChunksPrefix(h: Hash, done: Text, total: Text)
    requires done <= total && (|done| % SIZE == 0 || done == total)
    ensures ChunkCiphertext(h, done) <= ChunkCiphertext(h, total)
  {
    if done != total {
      var n := |done| / SIZE;
      assert |done| == n * SIZE && Count(|done|) == n <= Count(|total|);
      forall i | 0 <= i < n ensures Slice(total, i) == Slice(done, i) { }
    }
  }

  /** upload_fixed_chunks, flush_fixed_chunk_upload and put_fixed_chunk, with the cursor they share. */
  class FixedUploader {
    const alpha: AlphaService
    const auth: Auth
    const sessionId: Text
    const now: nat
    var pending: Text
    var nextIndex: nat
    var nextOffset: nat
    ghost const total: Text
    ghost const begun: Step<()>
    ghost var consumed: Text

    /** What sending the chunks of a text from the beginning does. */
    ghost function Sent(text: Text): Step<()> {
      UploadChunks(alpha.env, begun.store, begun.seen, auth, sessionId, ChunkCiphertext(alpha.env.h, text), 0, now)
    }

    /** Everything before the pending chunk has been sent. */
    ghost predicate UpToDate()
      reads this, alpha, alpha.replayCache
    {
      && Count(|total|) < U32 && consumed <= total && |consumed| >= |pending|
      && nextOffset == |consumed| - |pending| && nextOffset == nextIndex * SIZE
      && consumed[nextOffset..] == pending
      && Sent(consumed[..nextOffset]) == Step(alpha.State(), alpha.replayCache.seen, Ok(()))
    }

    ghost predicate Valid()
      reads this, alpha, alpha.replayCache
    {
      UpToDate() && |pending| < SIZE
    }

    constructor (alpha: AlphaService, auth: Auth, sessionId: Text, now: nat, ghost total: Text)
      requires Count(|total|) < U32
      ensures Valid() && consumed == [] && this.total == total && this.alpha == alpha && this.auth == auth
      ensures this.sessionId == sessionId && this.now == now
      ensures begun == Step(alpha.State(), alpha.replayCache.seen, Ok(()))
    {
      this.alpha, this.auth, this.sessionId, this.now, this.total := alpha, auth, sessionId, now, total;
      begun := Step(alpha.State(), alpha.replayCache.seen, Ok(()));
      pending, nextIndex, nextOffset, consumed := [], 0, 0, [];
    }

    /** put_fixed_chunk; the checked additions to the cursor cannot fail, as the first pass has made them. */
    method PutFixedChunk(bytes: Text) returns (r: Result<()>)
      requires nextIndex + 1 < U32 && nextOffset + |bytes| < U64
      modifies this`nextIndex, this`nextOffset, alpha, alpha.replayCache
      ensures var c := Staged(FixedChunkRef(alpha.env.h, old(nextIndex), old(nextOffset), bytes), bytes);
              Step(alpha.State(), alpha.replayCache.seen, r) ==
              SendOne(alpha.env, old(alpha.State()), old(alpha.replayCache.seen), auth, sessionId, c, now)
      ensures r.Ok? ==> nextIndex == old(nextIndex) + 1 && nextOffset == old(nextOffset) + |bytes|
    {
      hide ChunkStep;
      var c := FixedChunkRef(alpha.env.h, nextIndex, nextOffset, bytes);
      var sent := alpha.PutChunk(auth, ChunkRequest(sessionId, c.index, c.cid, c.offset, c.storedLen), bytes, now);
      if sent.Err? { return Err(sent.error); }
      nextIndex := nextIndex + 1;
      nextOffset := nextOffset + |bytes|;
      r := Ok(());
    }

    /** The complete chunk at the cursor, sent: the run of the whole has come one chunk further or to its end. */
    method SendPending() returns (r: Result<()>)
      requires UpToDate() && 0 < |pending| <= SIZE && (|pending| == SIZE || consumed == total)
      modifies this`nextIndex, this`nextOffset, alpha, alpha.replayCache
      ensures r.Ok? ==>
                && nextIndex == old(nextIndex) + 1 && nextOffset == |consumed|
                && Sent(consumed) == Step(alpha.State(), alpha.replayCache.seen, Ok(()))
      ensures r.Err? ==> Step(alpha.State(), alpha.replayCache.seen, r) == Sent(total)
    {
      hide ChunkCiphertext, UploadChunks, SendOne, ChunkStep;
      ghost var done := consumed[..nextOffset];
      assert consumed == done + pending;
      IndexInRange();
      ChunkAppended(alpha.env.h, done, pending);
      assert |done| / SIZE % U32 == nextIndex;
      UploadOneMore(alpha.env, begun.store, begun.seen, auth, sessionId, ChunkCiphertext(alpha.env.h, done),
                    Staged(FixedChunkRef(alpha.env.h, nextIndex, nextOffset, pending), pending), now);
      ChunksPrefix(alpha.env.h, consumed, total);
      UploadSplit(alpha.env, begun.store, begun.seen, auth, sessionId, ChunkCiphertext(alpha.env.h, consumed),
                  ChunkCiphertext(alpha.env.h, total), 0, now);
      r := PutFixedChunk(pending);
      if r.Ok? { assert r.value == (); }
    }

    lemma IndexInRange()
      requires UpToDate() && 0 < |pending|
      ensures nextIndex + 1 < U32 && nextOffset + |pending| < U64
    {
      assert nextIndex * SIZE < |total|;
    }

    /** upload_fixed_chunks. */
    method Upload(bytes: Text) returns (r: Result<()>)
      requires Valid() && consumed + bytes <= total
      modifies this, alpha, alpha.replayCache
      ensures r.Ok? ==> Valid() && consumed == old(consumed) + bytes
      ensures r.Err? ==> Step(alpha.State(), alpha.replayCache.seen, r) == Sent(total)
    {
      hide ChunkCiphertext, UploadChunks;
      var remaining := bytes;
      while remaining != []
        invariant Valid() && consumed + remaining == old(consumed) + bytes
        decreases |remaining|
      {
        var take := Min(SIZE - |pending|, |remaining|);
        ghost var before := consumed;
        pending := pending + remaining[..take];
        consumed := consumed + remaining[..take];
        assert consumed[..nextOffset] == before[..nextOffset];
        remaining := remaining[take..];
        if |pending| == SIZE {
          var sent := SendPending();
          if sent.Err? { return sent; }
          pending := [];
          assert consumed[..nextOffset] == consumed;
        }
      }
      r := Ok(());
    }

    /** flush_fixed_chunk_upload. */
    method Flush() returns (r: Result<()>)
      requires Valid() && consumed == total
      modifies this, alpha, alpha.replayCache
      ensures Step(alpha.State(), alpha.replayCache.seen, r) == Sent(total)
    {
      hide ChunkCiphertext, UploadChunks;
      if pending == [] {
        assert consumed[..nextOffset] == total;
        return Ok(());
      }
      r := SendPending();
      if r.Err? { return r; }
      assert r.value == ();
      pending := [];
    }
  }

  /**
   The second pass over the parts does exactly what sending the chunks of the
   concatenation does, up to the first refusal.
   */
  method UploadParts(alpha: AlphaService, auth: Auth, sessionId: Text, parts: seq<Text>, now: nat) returns (r: Result<()>)
    requires Count(|Concat(parts)|) < U32
    modifies alpha, alpha.replayCache
    ensures Step(alpha.State(), alpha.replayCache.seen, r) ==
            UploadChunks(alpha.env, old(alpha.State()), old(alpha.replayCache.seen), auth, sessionId,
                         ChunkCiphertext(alpha.env.h, Concat(parts)), 0, now)
  {
    hide ChunkCiphertext, UploadChunks;
    var uploader := new FixedUploader(alpha, auth, sessionId, now, Concat(parts));
    ghost var begun := uploader.begun;
    var i := 0;
    while i < |parts|
      invariant 0 <= i <= |parts|
      invariant fresh(uploader) && uploader.alpha == alpha && uploader.auth == auth && uploader.sessionId == sessionId
      invariant uploader.now == now && uploader.total == Concat(parts) && uploader.begun == begun
      invariant uploader.Valid() && uploader.consumed == Concat(parts[..i])
    {
      ConcatPrefix(parts, i);
      ConcatGrows(parts, i + 1);
      var sent := uploader.Upload(parts[i]);
      if sent.Err? { return sent; }
      i := i + 1;
    }
    assert parts[..i] == parts;
    r := uploader.Flush();
  }

  lemma {:induction false} ConcatGrows(parts: seq<Text>, n: nat)
    requires n <= |parts|
    ensures Concat(parts[..n]) <= Concat(parts)
    decreases |parts|
  {
    if n == |parts| {
      assert parts[..n] == parts;
    } else {
      var front := parts[..|parts| - 1];
      ConcatGrows(front, n);
      assert front[..n] == parts[..n];
    }
  }
}
