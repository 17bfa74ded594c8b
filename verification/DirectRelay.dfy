/** Relaying part of a file straight from the upstream: the upstream sends all of it, in chunks of its own choosing. */
module DirectRelay {
  import opened Common
  import opened CacheBuild

  /** The bytes from `start` up to `end`, or as far as there are any. */
  function Range(content: Bytes, start: nat, end: Option<nat>): Bytes {
    var stop := if end.None? then |content| else Min(|content|, end.value + 1);
    if start >= stop then [] else content[start..stop]
  }

  /** Byte `k` of the content belongs to the range if and only if it lies between its ends, which both count. */
  lemma RangeIsInclusive(content: Bytes, start: nat, end: Option<nat>, k: nat)
    requires k < |content|
    ensures var last := if end.Some? && end.value < |content| then end.value else |content| - 1;
            && |Range(content, start, end)| == (if start <= last then last + 1 - start else 0)
            && (start <= k <= last ==> Range(content, start, end)[k - start] == content[k])
  {
  }

  /** Where chunk `k` begins. */
  function StartOf(chunks: seq<Bytes>, k: nat): nat
    requires k <= |chunks|
  {
    |Concat(chunks[..k])|
  }

  /** The part of a chunk that is relayed; nothing where the source skips the chunk. */
  method Cut(chunk: Bytes, chunkStart: nat, start: nat, end: Option<nat>) returns (piece: Bytes)
    requires end.Some? ==> chunkStart <= end.value
    ensures piece == Part(chunk, chunkStart, start, end)
  {
    var sliceStart := 0;
    if chunkStart < start {
      sliceStart := Min(|chunk|, start - chunkStart);
    }
    if sliceStart >= |chunk| {
      return [];
    }
    var sliceEnd := if end.None? then |chunk| else Min(|chunk|, end.value - chunkStart + 1);
    if sliceEnd <= sliceStart {
      return [];
    }
    return chunk[sliceStart..sliceEnd];
  }

  /** What a chunk that begins at `at` has of the range. */
  function Part(chunk: Bytes, at: nat, start: nat, end: Option<nat>): Bytes {
    var low := if at < start then Min(|chunk|, start - at) else 0;
    var high := if end.None? then |chunk| else Min(|chunk|, end.value - at + 1);
    if low < high then chunk[low..high] else []
  }

  predicate NoneEmpty(pieces: seq<Bytes>) {
    forall piece | piece in pieces :: piece != []
  }

  /** The first `n` chunks all begin within the range or before it. */
  predicate AllWithin(chunks: seq<Bytes>, n: nat, end: Option<nat>)
    requires n <= |chunks|
  {
    forall k: nat | k < n :: end.Some? ==> StartOf(chunks, k) <= end.value
  }

  lemma NothingYet(chunks: seq<Bytes>, start: nat, end: Option<nat>)
    ensures Concat([]) == Range(Concat(chunks[..0]), start, end) && StartOf(chunks, 0) == 0
    ensures NoneEmpty([]) && AllWithin(chunks, 0, end)
  {
    assert chunks[..0] == [];
  }

  lemma FewerWithin(chunks: seq<Bytes>, end: Option<nat>)
    ensures chunks != [] && AllWithin(chunks, |chunks|, end) ==> AllWithin(chunks, |chunks| - 1, end)
  {
    hide StartOf;
  }

  lemma OneMoreWithin(chunks: seq<Bytes>, n: nat, end: Option<nat>)
    requires n < |chunks| && AllWithin(chunks, n, end)
    ensures end.None? || StartOf(chunks, n) <= end.value ==> AllWithin(chunks, n + 1, end)
  {
    hide StartOf;
  }

  /** The loop of the relay; `taken` is how many chunks it has asked the upstream for. */
  method Relay(chunks: seq<Bytes>, start: nat, end: Option<nat>) returns (yielded: seq<Bytes>, taken: nat)
    ensures Concat(yielded) == Range(Concat(chunks), start, end)
    ensures NoneEmpty(yielded)
    ensures taken <= |chunks| && (taken > 0 ==> AllWithin(chunks, taken - 1, end))
    ensures taken < |chunks| ==> end.Some? && 0 < taken && StartOf(chunks, taken - 1) > end.value
  {
    hide Concat, StartOf, Range, Part, NoneEmpty, AllWithin;
    yielded := [];
    var offset := 0;
    taken := 0;
    NothingYet(chunks, start, end);
    assert chunks[..|chunks|] == chunks;
    while taken < |chunks|
      invariant taken <= |chunks| && offset == StartOf(chunks, taken)
      invariant Concat(yielded) == Range(Concat(chunks[..taken]), start, end)
      invariant NoneEmpty(yielded) && AllWithin(chunks, taken, end)
    {
      var chunk := chunks[taken];
      var chunkStart := offset;
      NextChunk(chunks, taken, start, end);
      OneMoreWithin(chunks, taken, end);
      offset := offset + |chunk|;
      taken := taken + 1;
      if end.Some? && chunkStart > end.value {
        PastTheEnd(chunks, taken - 1, start, end);
        return;
      }
      var piece := Cut(chunk, chunkStart, start, end);
      if piece == [] {
        continue;
      }
      ConcatSnoc(yielded, piece);
      yielded := yielded + [piece];
    }
    FewerWithin(chunks, end);
  }

  lemma ConcatSnoc(chunks: seq<Bytes>, chunk: Bytes)
    ensures Concat(chunks + [chunk]) == Concat(chunks) + chunk
    ensures NoneEmpty(chunks) && chunk != [] ==> NoneEmpty(chunks + [chunk])
  {
    assert (chunks + [chunk])[..|chunks|] == chunks;
  }

  /** One more chunk of the upstream. */
  lemma NextChunk(chunks: seq<Bytes>, k: nat, start: nat, end: Option<nat>)
    requires k < |chunks|
    ensures StartOf(chunks, k) + |chunks[k]| == StartOf(chunks, k + 1)
    ensures Range(Concat(chunks[..k + 1]), start, end)
            == Range(Concat(chunks[..k]), start, end) + Part(chunks[k], StartOf(chunks, k), start, end)
  {
    assert chunks[..k + 1] == chunks[..k] + [chunks[k]];
    ConcatSnoc(chunks[..k], chunks[k]);
    RangeOfMore(Concat(chunks[..k]), chunks[k], start, end);
  }

  /** What one more chunk adds to the range. */
  lemma RangeOfMore(before: Bytes, chunk: Bytes, start: nat, end: Option<nat>)
    ensures Range(before + chunk, start, end) == Range(before, start, end) + Part(chunk, |before|, start, end)
  {
    var whole, n := before + chunk, |before|;
    var stop := if end.None? then |whole| else Min(|whole|, end.value + 1);
    if start < stop {
      SliceOfBoth(before, chunk, start, stop);
    }
  }

  /** Once past the end, no chunk adds anything. */
  lemma {:induction false} PastTheEnd(chunks: seq<Bytes>, k: nat, start: nat, end: Option<nat>)
    requires k <= |chunks| && end.Some? && StartOf(chunks, k) > end.value
    ensures Range(Concat(chunks), start, end) == Range(Concat(chunks[..k]), start, end)
  {
    if k == |chunks| {
      assert chunks[..k] == chunks;
    } else {
      var n := |chunks| - 1;
      assert chunks[..n][..k] == chunks[..k];
      PastTheEnd(chunks[..n], k, start, end);
      ConcatGrows(chunks[..n], k);
      RangeOfMore(Concat(chunks[..n]), chunks[n], start, end);
    }
  }
}
