/** What one read request covers: its chunks partition the receive buffer range, stay inside the
    file, and (sequential mode) read the file range that follows the previous request. */
module SessionReads {
  import opened Basics
  import opened SessionModel

  /** The chunks fill buffer range [from, to) one after the other, without gap or overlap. */
  ghost predicate Packed(chunks: seq<Chunk>, from: int, to: int) {
    if chunks == [] then from == to
    else chunks[0].buf == from && 0 <= chunks[0].len && Packed(chunks[1..], from + chunks[0].len, to)
  }

  ghost predicate Covers(c: Chunk, x: int) {
    c.buf <= x < c.buf + c.len
  }

  /** Packed read point by point: each buffer position belongs to exactly one chunk. */
  lemma {:induction false} PackedCoversOnce(chunks: seq<Chunk>, from: int, to: int, x: int)
    requires Packed(chunks, from, to)
    ensures from <= to
    ensures from <= x < to <==> exists k :: 0 <= k < |chunks| && Covers(chunks[k], x)
    ensures forall j, k :: 0 <= j < k < |chunks| ==> !(Covers(chunks[j], x) && Covers(chunks[k], x))
  {
    if chunks != [] {
      var rest, mid := chunks[1..], from + chunks[0].len;
      PackedCoversOnce(rest, mid, to, x);
      assert forall k :: 0 < k < |chunks| ==> chunks[k] == rest[k - 1];
      if Covers(chunks[0], x) {
        assert forall k :: 0 < k < |chunks| ==> !Covers(chunks[k], x) by {
          forall k | 0 < k < |chunks| ensures !Covers(chunks[k], x) {
            assert !Covers(rest[k - 1], x);
          }
        }
      } else if from <= x < to {
        var k :| 0 <= k < |rest| && Covers(rest[k], x);
        assert Covers(chunks[k + 1], x);
      }
    }
  }

  /** Every chunk is at most chunk_size long and reads inside the file. */
  ghost predicate InBounds(o: Options, fileSize: int, chunks: seq<Chunk>) {
    forall k :: 0 <= k < |chunks| ==>
      0 <= chunks[k].len <= o.chunkSize && 0 <= chunks[k].off && chunks[k].off + chunks[k].len <= fileSize
  }

  /** File position and buffer position advance together from `base`. */
  ghost predicate Aligned(chunks: seq<Chunk>, base: int) {
    forall k :: 0 <= k < |chunks| ==> chunks[k].off == base + chunks[k].buf
  }

  lemma SampleInBounds(draw: nat, fileSize: nat, len: int)
    requires 0 <= len <= fileSize
    ensures 0 <= SampleOffset(draw, fileSize, len)
    ensures SampleOffset(draw, fileSize, len) + len <= fileSize
  {
  }

  /** Every offset that fits can be drawn: the sampled offsets are exactly the fitting ones. */
  lemma SampleReachesEveryOffset(fileSize: nat, len: nat, off: nat)
    requires 0 < len && off + len <= fileSize
    ensures SampleOffset(off, fileSize, len) == off
  {
    if len < fileSize {
      assert off < fileSize - len + 1;
    }
  }

  lemma MinOfProduct(chunk: nat, n: nat, left: nat)
    requires n > 0
    ensures Min(left, chunk * n) == Min(chunk, left) + Min(left - Min(chunk, left), chunk * (n - 1))
  {
    assert chunk * n == chunk * (n - 1) + chunk;
    assert 0 <= chunk * (n - 1);
  }

  /** A plan asks for min(left, n * chunk_size) bytes in at most n chunks. */
  lemma {:induction false} PlanTotal(o: Options, fileSize: nat, n: nat, off: int, left: nat, buf: int,
                                     draws: seq<nat>, i: nat)
    ensures |Plan(o, fileSize, n, off, left, buf, draws, i)| <= n
    ensures TotalLen(Plan(o, fileSize, n, off, left, buf, draws, i)) == Min(left, o.chunkSize * n)
    decreases n
  {
    if n == 0 || left == 0 {
      assert 0 <= o.chunkSize * n;
    } else {
      var len := Min(o.chunkSize, left);
      PlanTotal(o, fileSize, n - 1, off + len, left - len, buf + len, draws, i + 1);
      MinOfProduct(o.chunkSize, n, left);
    }
  }

  /** Chunks that fill the buffer from `buf` on, stay in the file, and in sequential mode read the
      file in step with the buffer. */
  ghost predicate GoodChunks(o: Options, fileSize: int, buf: int, base: int, chunks: seq<Chunk>) {
    && Packed(chunks, buf, buf + TotalLen(chunks))
    && InBounds(o, fileSize, chunks)
    && (!o.randomOffset ==> Aligned(chunks, base))
  }

  lemma GoodChunksNone(o: Options, fileSize: int, buf: int, base: int)
    ensures GoodChunks(o, fileSize, buf, base, [])
  {
  }

  lemma GoodChunksMore(o: Options, fileSize: int, c: Chunk, rest: seq<Chunk>, base: int)
    requires 0 <= c.len <= o.chunkSize && 0 <= c.off && c.off + c.len <= fileSize
    requires !o.randomOffset ==> c.off == base + c.buf
    requires GoodChunks(o, fileSize, c.buf + c.len, base, rest)
    ensures GoodChunks(o, fileSize, c.buf, base, [c] + rest)
  {
    assert ([c] + rest)[1..] == rest;
  }

  lemma {:induction false} PlanCovers(o: Options, fileSize: nat, n: nat, off: nat, left: nat, buf: int,
                                      draws: seq<nat>, i: nat)
    requires if o.randomOffset then left <= fileSize else off + left <= fileSize
    ensures GoodChunks(o, fileSize, buf, off - buf, Plan(o, fileSize, n, off, left, buf, draws, i))
    decreases n
  {
    if n == 0 || left <= 0 {
      GoodChunksNone(o, fileSize, buf, off - buf);
    } else {
      var len := Min(o.chunkSize, left);
      var at := if o.randomOffset then SampleOffset(Draw(draws, i), fileSize, len) else off;
      SampleInBounds(Draw(draws, i), fileSize, len);
      PlanCovers(o, fileSize, n - 1, off + len, left - len, buf + len, draws, i + 1);
      GoodChunksMore(o, fileSize, Chunk(at, len, buf),
                     Plan(o, fileSize, n - 1, off + len, left - len, buf + len, draws, i + 1), off - buf);
    }
  }

  /** A read request of `total` bytes as the program promises it: its chunks, at most
      `vector_chunks` of them, partition [0, total) of the buffer, are in bounds and, in
      sequential mode, read file range [base, base + total). */
  ghost predicate GoodRead(o: Options, fileSize: int, base: int, total: int, chunks: seq<Chunk>) {
    && |chunks| <= Max(1, o.vectorChunks)
    && TotalLen(chunks) == total
    && Packed(chunks, 0, total)
    && InBounds(o, fileSize, chunks)
    && (!o.randomOffset ==> Aligned(chunks, base))
  }

  lemma NextChunksGood(o: Options, s: Session, draws: seq<nat>)
    requires 0 < s.remaining && 0 <= s.nextOffset
    requires if o.randomOffset then s.remaining <= s.fileSize else s.nextOffset + s.remaining <= s.fileSize
    ensures GoodRead(o, s.fileSize, s.nextOffset, Min(OpSize(o), s.remaining), NextChunks(o, s, draws))
  {
    if o.vectorChunks > 0 {
      PlanTotal(o, s.fileSize, o.vectorChunks, s.nextOffset, s.remaining, 0, draws, 0);
      PlanCovers(o, s.fileSize, o.vectorChunks, s.nextOffset, s.remaining, 0, draws, 0);
    } else {
      SampleInBounds(Draw(draws, 0), s.fileSize, Min(o.chunkSize, s.remaining));
    }
  }

  /** In random mode each chunk of a VectorRead has an offset of its own: the k-th is sampled with the
      k-th number drawn. */
  lemma {:induction false} EachChunkItsOwnDraw(o: Options, fileSize: nat, n: nat, off: int, left: int, buf: int,
                                               draws: seq<nat>, i: nat, k: nat)
    requires o.randomOffset && k < |Plan(o, fileSize, n, off, left, buf, draws, i)|
    ensures var c := Plan(o, fileSize, n, off, left, buf, draws, i)[k];
            c.off == SampleOffset(Draw(draws, i + k), fileSize, c.len)
    decreases n
  {
    if k > 0 {
      var len := Min(o.chunkSize, left);
      EachChunkItsOwnDraw(o, fileSize, n - 1, off + len, left - len, buf + len, draws, i + 1, k - 1);
    }
  }
}
