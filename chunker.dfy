/** The character chunker of the RAG system (`RAGSystem._chunk_text`): it walks the text from offset 0,
    proposes a hard end `start + size`, moves the end back to the nearest whitespace when the hard end
    falls inside the text, emits the stripped span and restarts `overlap` characters before the end. */
module Chunker {
  import opened Text
  import opened Seqs

  /** Python's `text[i:j]` for a non-negative `i`; an end past the text is clamped. */
  function Slice(text: string, i: nat, j: int): (r: string)
    ensures i <= j <= |text| ==> r == text[i..j]
    ensures i <= |text| <= j ==> r == text[i..]
  {
    if j <= i || |text| <= i then [] else text[i..if j < |text| then j else |text|]
  }

  /** The inner backward search: from `hi` down while above `lo` and not on whitespace. */
  function BreakSearch(text: string, lo: nat, hi: nat): (e: nat)
    requires lo <= hi < |text|
    ensures lo <= e <= hi
    decreases hi
  {
    if hi == lo || IsSpace(text[hi]) then hi else BreakSearch(text, lo, hi - 1)
  }

  /** The search stops on the last whitespace in `(lo, hi]`, or at `lo` when there is none. */
  lemma {:induction false} BreakSearchIsLastBreak(text: string, lo: nat, hi: nat)
    requires lo <= hi < |text|
    ensures BreakSearch(text, lo, hi) > lo ==> IsSpace(text[BreakSearch(text, lo, hi)])
    ensures forall k :: BreakSearch(text, lo, hi) < k <= hi ==> !IsSpace(text[k])
    decreases hi
  {
    if hi != lo && !IsSpace(text[hi]) {
      BreakSearchIsLastBreak(text, lo, hi - 1);
    }
  }

  /** Some character at an index in `(lo, hi]` is whitespace. */
  predicate HasBreak(text: string, lo: nat, hi: nat)
    requires hi < |text|
  {
    exists k :: lo < k <= hi && IsSpace(text[k])
  }

  /** The end chosen for the chunk that starts at `start` (see ChunkEndIsLastBreak). */
  function ChunkEnd(text: string, start: nat, size: nat): (e: nat)
    ensures e <= start + size
    ensures size > 0 ==> start < e
    ensures start + size >= |text| ==> e == start + size
  {
    var hard := start + size;
    if hard < |text| then
      var found := BreakSearch(text, start, hard);
      if found == start then hard else found
    else hard
  }

  /** When the hard end `start + size` is inside the text, the chosen end is the largest whitespace
      index in `(start, start + size]`, or the hard end when that range holds no whitespace. */
  lemma ChunkEndIsLastBreak(text: string, start: nat, size: nat)
    requires start + size < |text|
    ensures !HasBreak(text, start, start + size) ==> ChunkEnd(text, start, size) == start + size
    ensures HasBreak(text, start, start + size) ==>
      var e := ChunkEnd(text, start, size);
      start < e && IsSpace(text[e]) && forall k :: e < k <= start + size ==> !IsSpace(text[k])
  {
    BreakSearchIsLastBreak(text, start, start + size);
  }

  /** Every start the loop reaches from `start` is followed by a strictly larger one until the text is
      covered: the condition under which `_chunk_text` terminates with non-negative starts. */
  ghost predicate Advances(text: string, size: nat, overlap: nat, start: nat)
    decreases |text| - start
  {
    start >= |text| ||
    (ChunkEnd(text, start, size) - overlap > start &&
     Advances(text, size, overlap, ChunkEnd(text, start, size) - overlap))
  }

  /** The raw span `[start, end)` of one chunk, before clamping and stripping. */
  datatype Span = Span(start: nat, end: nat)

  /** Offset `i` lies in the span. */
  predicate InSpan(s: Span, i: nat) {
    s.start <= i < s.end
  }

  /** The spans the loop visits from `start` on. */
  ghost function Spans(text: string, size: nat, overlap: nat, start: nat): seq<Span>
    requires Advances(text, size, overlap, start)
    decreases |text| - start
  {
    if start >= |text| then []
    else
      var e := ChunkEnd(text, start, size);
      [Span(start, e)] + Spans(text, size, overlap, e - overlap)
  }

  /** The chunk emitted for a span: `text[start:end].strip()`, the span clamped to the text (see
      ChunkOfIsStrippedSlice). */
  function ChunkOf(text: string, s: Span): string {
    var lo := if s.start < |text| then s.start else |text|;
    var hi := if s.end < lo then lo else if s.end < |text| then s.end else |text|;
    StripRange(text, lo, hi)
  }

  /** The chunk of a span is the Python slice of the text, stripped. */
  lemma ChunkOfIsStrippedSlice(text: string, s: Span)
    ensures ChunkOf(text, s) == Strip(Slice(text, s.start, s.end))
  {
    var lo := if s.start < |text| then s.start else |text|;
    var hi := if s.end < lo then lo else if s.end < |text| then s.end else |text|;
    StripRangeOfSlice(text, lo, hi, lo, hi);
    assert Slice(text, s.start, s.end) == text[lo..hi];
  }

  /** The end search of one iteration: step back from the hard end to whitespace, falling back to the
      hard end when the search reaches `start`. */
  method FindEnd(text: string, start: nat, size: nat) returns (end: nat)
    ensures end == ChunkEnd(text, start, size)
  {
    end := start + size;
    if end < |text| {
      while end > start && !IsSpace(text[end])
        invariant start <= end <= start + size
        invariant BreakSearch(text, start, end) == BreakSearch(text, start, start + size)
      {
        end := end - 1;
      }
      if end == start {
        end := start + size;
      }
    }
  }

  /** The chunks of a list of spans, in order. */
  function ChunksOf(text: string, spans: seq<Span>): seq<string>
  {
    if spans == [] then []
    else ChunksOf(text, spans[..|spans| - 1]) + [ChunkOf(text, spans[|spans| - 1])]
  }

  lemma ChunksOfSnoc(text: string, spans: seq<Span>, sp: Span)
    ensures ChunksOf(text, spans + [sp]) == ChunksOf(text, spans) + [ChunkOf(text, sp)]
  {
    assert (spans + [sp])[..|spans|] == spans;
  }

  /** There is one chunk per span, and the k-th chunk is the chunk of the k-th span. */
  lemma {:induction false} ChunksOfIndex(text: string, spans: seq<Span>, k: nat)
    ensures |ChunksOf(text, spans)| == |spans|
    ensures k < |spans| ==> ChunksOf(text, spans)[k] == ChunkOf(text, spans[k])
    decreases |spans|
  {
    if spans != [] {
      var init := spans[..|spans| - 1];
      ChunksOfIndex(text, init, k);
      if k < |init| {
        assert spans[k] == init[k];
      }
    }
  }

  /** `_chunk_text`: the chunks emitted are those of the spans visited from offset 0. */
  method ChunkText(text: string, size: nat, overlap: nat) returns (chunks: seq<string>)
    requires Advances(text, size, overlap, 0)
    ensures chunks == ChunksOf(text, Spans(text, size, overlap, 0))
  {
    chunks := [];
    var length := |text|;
    var start: int := 0;
    ghost var done: seq<Span> := [];
    while start < length
      invariant 0 <= start
      invariant Advances(text, size, overlap, start)
      invariant done + Spans(text, size, overlap, start) == Spans(text, size, overlap, 0)
      invariant chunks == ChunksOf(text, done)
      decreases length - start
    {
      var end := FindEnd(text, start, size);
      SpansStep(text, size, overlap, start);
      ChunksOfSnoc(text, done, Span(start, end));
      AppendAssociates(done, [Span(start, end)], Spans(text, size, overlap, end - overlap));
      chunks := chunks + [ChunkOf(text, Span(start, end))];
      done := done + [Span(start, end)];
      start := end - overlap;
    }
    assert done == Spans(text, size, overlap, 0);
  }

  /** One step of the loop: from a start inside the text, the spans are the current span followed by
      the spans from the strictly larger next start. */
  lemma SpansStep(text: string, size: nat, overlap: nat, start: nat)
    requires Advances(text, size, overlap, start)
    requires start < |text|
    ensures ChunkEnd(text, start, size) - overlap > start
    ensures Advances(text, size, overlap, ChunkEnd(text, start, size) - overlap)
    ensures Spans(text, size, overlap, start) ==
      [Span(start, ChunkEnd(text, start, size))] + Spans(text, size, overlap, ChunkEnd(text, start, size) - overlap)
  {
  }

  /** Each span starts inside the text at or after `start`, is non-empty, is at most `size` long and
      ends at the chosen end; there are none exactly when `start` is past the text. */
  lemma {:induction false} SpansBounds(text: string, size: nat, overlap: nat, start: nat)
    requires Advances(text, size, overlap, start)
    ensures var sp := Spans(text, size, overlap, start);
      && (|sp| == 0 <==> start >= |text|)
      && (forall k :: 0 <= k < |sp| ==>
            && start <= sp[k].start < |text|
            && sp[k].start < sp[k].end <= sp[k].start + size
            && sp[k].end == ChunkEnd(text, sp[k].start, size))
    decreases |text| - start
  {
    if start < |text| {
      var e := ChunkEnd(text, start, size);
      var next: nat := e - overlap;
      SpansBounds(text, size, overlap, next);
      var rest := Spans(text, size, overlap, next);
      var sp := Spans(text, size, overlap, start);
      assert sp == [Span(start, e)] + rest;
      forall k | 0 <= k < |sp|
        ensures && start <= sp[k].start < |text|
                && sp[k].start < sp[k].end <= sp[k].start + size
                && sp[k].end == ChunkEnd(text, sp[k].start, size)
      {
        if k > 0 {
          assert sp[k] == rest[k - 1];
        }
      }
    }
  }

  /** The first span begins at `start`, consecutive spans overlap by exactly `overlap` characters, and
      the last one reaches past the text. */
  lemma {:induction false} SpansLinked(text: string, size: nat, overlap: nat, start: nat)
    requires Advances(text, size, overlap, start)
    ensures var sp := Spans(text, size, overlap, start);
      && (|sp| > 0 ==> sp[0].start == start && sp[|sp| - 1].end >= |text| + overlap)
      && (forall k :: 0 <= k < |sp| - 1 ==> sp[k + 1].start == sp[k].end - overlap)
    decreases |text| - start
  {
    if start < |text| {
      var e := ChunkEnd(text, start, size);
      var next: nat := e - overlap;
      SpansLinked(text, size, overlap, next);
      var rest := Spans(text, size, overlap, next);
      var sp := Spans(text, size, overlap, start);
      assert sp == [Span(start, e)] + rest;
      forall k | 0 <= k < |sp| - 1
        ensures sp[k + 1].start == sp[k].end - overlap
      {
        assert sp[k + 1] == rest[k];
        if k > 0 {
          assert sp[k] == rest[k - 1];
        }
      }
      if |rest| > 0 {
        assert sp[|sp| - 1] == rest[|rest| - 1];
      }
    }
  }

  /** The shape of the spans: each is non-empty, at most `size` long and ends at the chosen end,
      consecutive spans overlap by exactly `overlap` characters, and the last one reaches past the text. */
  lemma SpansShape(text: string, size: nat, overlap: nat, start: nat)
    requires Advances(text, size, overlap, start)
    ensures var sp := Spans(text, size, overlap, start);
      && (|sp| == 0 <==> start >= |text|)
      && (|sp| > 0 ==> sp[0].start == start && sp[|sp| - 1].end >= |text| + overlap)
      && (forall k :: 0 <= k < |sp| ==>
            && start <= sp[k].start < |text|
            && sp[k].start < sp[k].end <= sp[k].start + size
            && sp[k].end == ChunkEnd(text, sp[k].start, size))
      && (forall k :: 0 <= k < |sp| - 1 ==> sp[k + 1].start == sp[k].end - overlap)
  {
    SpansBounds(text, size, overlap, start);
    SpansLinked(text, size, overlap, start);
  }

  /** Every character of the text lies inside some span, so no text is lost between chunks. */
  lemma {:induction false} SpansCoverText(text: string, size: nat, overlap: nat, start: nat, i: nat)
    requires Advances(text, size, overlap, start)
    requires start <= i < |text|
    ensures exists k :: 0 <= k < |Spans(text, size, overlap, start)| && InSpan(Spans(text, size, overlap, start)[k], i)
    decreases |text| - start
  {
    var e := ChunkEnd(text, start, size);
    var next: nat := e - overlap;
    var sp := Spans(text, size, overlap, start);
    var rest := Spans(text, size, overlap, next);
    assert sp == [Span(start, e)] + rest;
    if i < e {
      assert sp[0] == Span(start, e);
      assert InSpan(sp[0], i);
    } else {
      SpansCoverText(text, size, overlap, next, i);
      var k :| 0 <= k < |rest| && InSpan(rest[k], i);
      assert sp[k + 1] == rest[k];
      assert InSpan(sp[k + 1], i);
    }
  }

  /** Empty text yields no chunk; a text of length at most `size - overlap` yields exactly one chunk,
      the stripped text. */
  lemma ShortTextChunks(text: string, size: nat, overlap: nat)
    requires |text| <= size - overlap
    ensures Advances(text, size, overlap, 0)
    ensures |text| == 0 ==> Spans(text, size, overlap, 0) == []
    ensures |text| > 0 ==> Spans(text, size, overlap, 0) == [Span(0, size)]
    ensures |text| > 0 ==> ChunkOf(text, Spans(text, size, overlap, 0)[0]) == Strip(text)
  {
    if |text| > 0 {
      assert ChunkEnd(text, 0, size) == size;
      assert Advances(text, size, overlap, size - overlap);
      assert Slice(text, 0, size) == text;
    }
  }

  /** A text longer than `size - overlap` but at most `size` (and at most twice the step) yields exactly
      two spans: the whole text and the rest from `size - overlap` (see TwoChunkContents). */
  lemma TwoChunkTexts(text: string, size: nat, overlap: nat)
    requires overlap < size
    requires size - overlap < |text| <= size
    requires |text| <= 2 * (size - overlap)
    ensures Advances(text, size, overlap, 0)
    ensures Spans(text, size, overlap, 0) == [Span(0, size), Span(size - overlap, 2 * size - overlap)]
  {
    var step: nat := size - overlap;
    var next: nat := step + size - overlap;
    assert ChunkEnd(text, step, size) == step + size;
    assert Spans(text, size, overlap, next) == [];
    assert Spans(text, size, overlap, step) == [Span(step, step + size)] + [];
    assert ChunkEnd(text, 0, size) == size;
    assert Spans(text, size, overlap, 0) == [Span(0, size)] + Spans(text, size, overlap, step);
  }

  /** The two chunks of such a text are the stripped text and its stripped suffix. */
  lemma TwoChunkContents(text: string, size: nat, overlap: nat)
    requires overlap < size
    requires size - overlap < |text| <= size
    ensures ChunkOf(text, Span(0, size)) == Strip(text)
    ensures ChunkOf(text, Span(size - overlap, 2 * size - overlap)) == Strip(text[size - overlap..])
  {
    var step: nat := size - overlap;
    StripRangeOfSlice(text, step, |text|, step, |text|);
    assert text[step..|text|] == text[step..];
  }

  /** In whitespace-free text the backward search finds nothing, so every end is the hard end. */
  lemma SpaceFreeEnd(text: string, start: nat, size: nat)
    requires SpaceFree(text)
    ensures ChunkEnd(text, start, size) == start + size
  {
    if start + size < |text| {
      assert !HasBreak(text, start, start + size);
      ChunkEndIsLastBreak(text, start, size);
    }
  }

  /** In whitespace-free text the loop always advances by `size - overlap` when `overlap < size`. */
  lemma {:induction false} SpaceFreeAdvances(text: string, size: nat, overlap: nat, start: nat)
    requires SpaceFree(text)
    requires overlap < size
    ensures Advances(text, size, overlap, start)
    decreases |text| - start
  {
    if start < |text| {
      SpaceFreeEnd(text, start, size);
      SpaceFreeAdvances(text, size, overlap, start + size - overlap);
    }
  }

  /** In whitespace-free text every span is exactly `size` long. */
  lemma SpaceFreeSpanLength(text: string, size: nat, overlap: nat, start: nat, k: nat)
    requires SpaceFree(text)
    requires overlap < size
    ensures Advances(text, size, overlap, start)
    ensures var sp := Spans(text, size, overlap, start);
      k < |sp| ==> sp[k].end == sp[k].start + size
  {
    SpaceFreeAdvances(text, size, overlap, start);
    SpansShape(text, size, overlap, start);
    var sp := Spans(text, size, overlap, start);
    if k < |sp| {
      SpaceFreeEnd(text, sp[k].start, size);
    }
  }

  /** In whitespace-free text the number of chunks is the remaining length divided by the step,
      rounded up. */
  lemma {:induction false} SpaceFreeSpanCount(text: string, size: nat, overlap: nat, start: nat)
    requires SpaceFree(text)
    requires overlap < size
    requires start < |text|
    ensures Advances(text, size, overlap, start)
    ensures var n := |Spans(text, size, overlap, start)|;
      (n - 1) * (size - overlap) < |text| - start <= n * (size - overlap)
    decreases |text| - start
  {
    SpaceFreeAdvances(text, size, overlap, start);
    var step: nat := size - overlap;
    SpaceFreeEnd(text, start, size);
    SpansStep(text, size, overlap, start);
    var n, m := |Spans(text, size, overlap, start)|, |Spans(text, size, overlap, start + step)|;
    assert n == m + 1;
    if start + step < |text| {
      SpaceFreeSpanCount(text, size, overlap, start + step);
      OneMoreStep(m, step);
    } else {
      assert Spans(text, size, overlap, start + step) == [];
    }
  }

  lemma OneMoreStep(m: nat, step: nat)
    ensures (m + 1) * step == m * step + step
    ensures (m + 1 - 1) * step == m * step
  {
  }

  /** The tail behaviour with the default 1000/200 settings: 2500 whitespace-free characters give four
      spans, starting at 0, 800, 1600 and 2400. */
  lemma SpaceFreeSpans2500(text: string)
    requires |text| == 2500 && SpaceFree(text)
    ensures Advances(text, 1000, 200, 0)
    ensures Spans(text, 1000, 200, 0) == [Span(0, 1000), Span(800, 1800), Span(1600, 2600), Span(2400, 3400)]
  {
    SpaceFreeSpanCount(text, 1000, 200, 0);
    SpansShape(text, 1000, 200, 0);
    var sp := Spans(text, 1000, 200, 0);
    assert |sp| == 4;
    SpaceFreeSpanLength(text, 1000, 200, 0, 0);
    SpaceFreeSpanLength(text, 1000, 200, 0, 1);
    SpaceFreeSpanLength(text, 1000, 200, 0, 2);
    SpaceFreeSpanLength(text, 1000, 200, 0, 3);
  }

  /** The last two of those chunks are the suffixes from 1600 and from 2400: the fourth chunk repeats
      the last 100 characters that the third chunk already holds. */
  lemma SpaceFreeTailChunks2500(text: string)
    requires |text| == 2500 && SpaceFree(text)
    ensures ChunkOf(text, Span(1600, 2600)) == text[1600..]
    ensures ChunkOf(text, Span(2400, 3400)) == text[2400..]
    ensures text[1600..][800..] == text[2400..]
  {
    StripRangeOfSlice(text, 1600, 2500, 1600, 2500);
    StripRangeOfSlice(text, 2400, 2500, 2400, 2500);
    assert text[1600..2500] == text[1600..];
    assert text[2400..2500] == text[2400..];
    StripSpaceFree(text[1600..]);
    StripSpaceFree(text[2400..]);
  }

  /** When the last whitespace before the hard end lies within `overlap` characters of `start`, the next
      start is not larger than `start`: the loop does not advance (and the start can go negative). */
  lemma StallWhenBreakNearStart(text: string, size: nat, overlap: nat, start: nat, p: nat)
    requires start < |text| && start + size < |text|
    requires start < p <= start + overlap && p <= start + size && IsSpace(text[p])
    requires forall k :: p < k <= start + size ==> !IsSpace(text[k])
    ensures ChunkEnd(text, start, size) == p
    ensures ChunkEnd(text, start, size) - overlap <= start
    ensures !Advances(text, size, overlap, start)
  {
    assert HasBreak(text, start, start + size);
    ChunkEndIsLastBreak(text, start, size);
  }

  /** With the default settings, 200 letters, one space and 1000 more letters make the first step
      return to offset 0: the loop repeats the same chunk forever. */
  lemma DefaultSettingsStall(text: string)
    requires |text| == 1201
    requires forall i :: 0 <= i < |text| ==> text[i] == if i == 200 then ' ' else 'a'
    ensures ChunkEnd(text, 0, 1000) - 200 == 0
    ensures !Advances(text, 1000, 200, 0)
  {
    assert IsSpace(text[200]);
    forall k | 200 < k <= 1000
      ensures !IsSpace(text[k])
    {
      assert text[k] == 'a';
    }
    StallWhenBreakNearStart(text, 1000, 200, 0, 200);
  }
}
