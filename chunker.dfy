/**
 * The slices that the multipart loop of `multipartUpload` cuts from a blob
 * (lib/client-helpers.js:56-65): from the running offset, a whole chunk when one
 * still fits in the blob, otherwise the rest of the blob.
 */
module Chunker {

  /** The half-open byte range [start, end) of one part. */
  datatype Slice = Slice(start: nat, end: nat)

  /**
   * `s` tiles [offset, size) in chunks: each slice starts where the previous one
   * ended, every slice but the last is one whole chunk, the last is non-empty and at
   * most one chunk, and the last ends at `size`.
   */
  predicate Tiles(s: seq<Slice>, offset: nat, size: nat, chunkSize: nat) {
    if s == [] then offset == size
    else
      s[0].start == offset && offset < s[0].end <= offset + chunkSize
      && (|s| > 1 ==> s[0].end == offset + chunkSize)
      && Tiles(s[1..], s[0].end, size, chunkSize)
  }

  /**
   * The slices emitted from `offset` on. Before the end of the blob they tile
   * [offset, size) exactly; at or past it there are none.
   */
  function SlicesFrom(offset: nat, size: nat, chunkSize: nat): (s: seq<Slice>)
    requires chunkSize > 0
    ensures s == [] <==> offset >= size
    ensures offset <= size ==> Tiles(s, offset, size, chunkSize)
    ensures forall i :: 0 <= i < |s| ==> offset <= s[i].start < s[i].end <= size
    decreases size - offset
  {
    if offset >= size then []
    else if offset + chunkSize <= size then [Slice(offset, offset + chunkSize)] + SlicesFrom(offset + chunkSize, size, chunkSize)
    else [Slice(offset, size)]
  }

  function Slices(size: nat, chunkSize: nat): seq<Slice>
    requires chunkSize > 0
  {
    SlicesFrom(0, size, chunkSize)
  }

  lemma DivisionUnique(y: nat, c: nat, n: nat)
    requires c > 0 && n * c <= y < (n + 1) * c
    ensures y / c == n
  {
    var q := y / c;
    assert q * c <= y < q * c + c;
    MulMonotone(q + 1, n, c);
    MulMonotone(n + 1, q, c);
    assert (q + 1) * c == q * c + c && (n + 1) * c == n * c + c;
  }

  lemma MulMonotone(a: int, b: int, c: nat)
    ensures a <= b ==> a * c <= b * c
  {
  }

  lemma OneMoreChunk(m: int, c: int, d: int)
    requires (m - 1) * c < d - c <= m * c
    ensures m * c < d <= (m + 1) * c
  {
    assert (m + 1) * c == m * c + c;
    assert (m - 1) * c == m * c - c;
  }

  /** The number of slices is the least n with n * chunkSize >= size - offset. */
  lemma {:induction false} SliceCountBounds(offset: nat, size: nat, chunkSize: nat)
    requires chunkSize > 0 && offset <= size
    ensures var n := |SlicesFrom(offset, size, chunkSize)|;
      (n - 1) * chunkSize < size - offset <= n * chunkSize
    decreases size - offset
  {
    var n := |SlicesFrom(offset, size, chunkSize)|;
    if offset == size {
      assert n == 0;
    } else if offset + chunkSize <= size {
      SliceCountBounds(offset + chunkSize, size, chunkSize);
      var m := |SlicesFrom(offset + chunkSize, size, chunkSize)|;
      assert n == m + 1;
      OneMoreChunk(m, chunkSize, size - offset);
    } else {
      assert n == 1;
    }
  }

  /** The number of parts is ceil((size - offset) / chunkSize). */
  lemma SliceCount(offset: nat, size: nat, chunkSize: nat)
    requires chunkSize > 0 && offset <= size
    ensures |SlicesFrom(offset, size, chunkSize)| == (size - offset + chunkSize - 1) / chunkSize
  {
    var n := |SlicesFrom(offset, size, chunkSize)|;
    SliceCountBounds(offset, size, chunkSize);
    if n > 0 {
      assert (n + 1) * chunkSize == n * chunkSize + chunkSize;
      assert (n - 1) * chunkSize == n * chunkSize - chunkSize;
      DivisionUnique(size - offset + chunkSize - 1, chunkSize, n);
    }
  }

  /** A blob of `size` bytes is cut into ceil(size / chunkSize) parts. */
  lemma PartCount(size: nat, chunkSize: nat)
    requires chunkSize > 0
    ensures |Slices(size, chunkSize)| == (size + chunkSize - 1) / chunkSize
  {
    SliceCount(0, size, chunkSize);
    assert size - 0 + chunkSize - 1 == size + chunkSize - 1;
  }

  /** The contents of the slices, in order. */
  function Pieces<T>(xs: seq<T>, s: seq<Slice>): (p: seq<seq<T>>)
    requires forall i :: 0 <= i < |s| ==> s[i].start <= s[i].end <= |xs|
    ensures |p| == |s|
    ensures forall i :: 0 <= i < |s| ==> p[i] == xs[s[i].start..s[i].end]
  {
    if s == [] then [] else [xs[s[0].start..s[0].end]] + Pieces(xs, s[1..])
  }

  function Flatten<T>(p: seq<seq<T>>): seq<T> {
    if p == [] then [] else p[0] + Flatten(p[1..])
  }

  /** The first slice from `offset` is one chunk, or the rest of the blob. */
  lemma PiecesStep<T>(xs: seq<T>, offset: nat, chunkSize: nat)
    requires chunkSize > 0 && offset < |xs|
    ensures var next := if offset + chunkSize <= |xs| then offset + chunkSize else |xs|;
      Pieces(xs, SlicesFrom(offset, |xs|, chunkSize)) == [xs[offset..next]] + Pieces(xs, SlicesFrom(next, |xs|, chunkSize))
  {
  }

  lemma FlattenPiecesCons<T>(xs: seq<T>, s: seq<Slice>)
    requires s != [] && forall i :: 0 <= i < |s| ==> s[i].start <= s[i].end <= |xs|
    ensures Flatten(Pieces(xs, s)) == xs[s[0].start..s[0].end] + Flatten(Pieces(xs, s[1..]))
  {
  }

  /** Joining the pieces from `offset` gives the first slice, then the pieces from its end. */
  lemma FlattenStep<T>(xs: seq<T>, offset: nat, chunkSize: nat, next: nat)
    requires chunkSize > 0 && offset < |xs|
    requires next == if offset + chunkSize <= |xs| then offset + chunkSize else |xs|
    ensures Flatten(Pieces(xs, SlicesFrom(offset, |xs|, chunkSize)))
         == xs[offset..next] + Flatten(Pieces(xs, SlicesFrom(next, |xs|, chunkSize)))
  {
    var s := SlicesFrom(offset, |xs|, chunkSize);
    FlattenPiecesCons(xs, s);
    assert s[0] == Slice(offset, next) && s[1..] == SlicesFrom(next, |xs|, chunkSize);
  }

  /** Putting the slices back together gives the blob from `offset` on: no byte
      is lost, repeated or moved. */
  lemma {:induction false} Reassemble<T>(xs: seq<T>, offset: nat, chunkSize: nat)
    requires chunkSize > 0 && offset <= |xs|
    ensures Flatten(Pieces(xs, SlicesFrom(offset, |xs|, chunkSize))) == xs[offset..]
    decreases |xs| - offset
  {
    if offset < |xs| {
      var next := if offset + chunkSize <= |xs| then offset + chunkSize else |xs|;
      FlattenStep(xs, offset, chunkSize, next);
      Reassemble(xs, next, chunkSize);
      assert xs[offset..] == xs[offset..next] + xs[next..];
    }
  }

  /** Putting all the slices of a blob back together gives the blob. */
  lemma ReassembleAll<T>(xs: seq<T>, chunkSize: nat)
    requires chunkSize > 0
    ensures Flatten(Pieces(xs, Slices(|xs|, chunkSize))) == xs
  {
    Reassemble(xs, 0, chunkSize);
    assert xs[0..] == xs;
  }

  /** A 12 MiB blob in 5 MiB chunks: two whole chunks, then the last 2 MiB. */
  lemma TwelveMiBInFiveMiBChunks()
    ensures Slices(12582912, 5242880)
         == [Slice(0, 5242880), Slice(5242880, 10485760), Slice(10485760, 12582912)]
  {
    var c := 5242880;
    assert SlicesFrom(10485760, 12582912, c) == [Slice(10485760, 12582912)];
    assert SlicesFrom(5242880, 12582912, c) == [Slice(5242880, 10485760)] + SlicesFrom(10485760, 12582912, c);
  }
}
