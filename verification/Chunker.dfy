/** Splitting a text into overlapping chunks, and putting it together again. */
module Chunker {
  import opened Arithmetic

  datatype ChunkError = SizeNotPositive | OverlapOutOfRange
  datatype Result<T> = Ok(value: T) | Err(error: ChunkError)

  /** `str.strip`, for a given idea of white space. */
  function StripLeft(text: string, space: char -> bool): string
    decreases |text|
  {
    if |text| > 0 && space(text[0]) then StripLeft(text[1..], space) else text
  }

  function StripRight(text: string, space: char -> bool): string
    decreases |text|
  {
    if |text| > 0 && space(text[|text| - 1]) then StripRight(text[..|text| - 1], space) else text
  }

  function Strip(text: string, space: char -> bool): string
  {
    StripRight(StripLeft(text, space), space)
  }

  /** Everything outside these bounds is white space, and what is between them, if anything, begins and ends with
      something else. */
  predicate Bounds(text: string, space: char -> bool, a: nat, b: nat)
  {
    a <= b <= |text| && (forall k :: 0 <= k < a ==> space(text[k])) && (forall k :: b <= k < |text| ==> space(text[k])) &&
    (a < b ==> !space(text[a]) && !space(text[b - 1]))
  }

  lemma {:induction false} LeftCut(text: string, space: char -> bool) returns (a: nat)
    ensures a <= |text| && StripLeft(text, space) == text[a..] && (forall k :: 0 <= k < a ==> space(text[k]))
    ensures a < |text| ==> !space(text[a])
    decreases |text|
  {
    a := 0;
    if |text| > 0 && space(text[0]) {
      var n := LeftCut(text[1..], space);
      assert forall k :: 0 < k <= n ==> text[k] == text[1..][k - 1];
      a := n + 1;
    }
  }

  lemma {:induction false} RightCut(text: string, space: char -> bool) returns (b: nat)
    ensures b <= |text| && StripRight(text, space) == text[..b] && (forall k :: b <= k < |text| ==> space(text[k]))
    ensures b > 0 ==> !space(text[b - 1])
    decreases |text|
  {
    b := |text|;
    if |text| > 0 && space(text[|text| - 1]) {
      b := RightCut(text[..|text| - 1], space);
    }
  }

  /** Stripping cuts off exactly the white space at both ends. */
  lemma StripCutsTheEnds(text: string, space: char -> bool) returns (a: nat, b: nat)
    ensures Bounds(text, space, a, b) && Strip(text, space) == text[a..b]
  {
    a := LeftCut(text, space);
    b := RightCut(text[a..], space);
    assert forall k :: a <= k < |text| ==> text[k] == text[a..][k - a];
    b := a + b;
  }

  /** What the loop has still to produce from here on. */
  function ChunksFrom(text: string, size: nat, overlap: nat): seq<string>
    requires overlap < size
    decreases |text|
  {
    if |text| == 0 then [] else if |text| <= size then [text]
    else [text[..size]] + ChunksFrom(text[size - overlap..], size, overlap)
  }

  method ChunkText(text: string, chunkSize: int, overlap: int, space: char -> bool)
    returns (result: Result<seq<string>>)
    ensures result == Err(SizeNotPositive) <==> chunkSize <= 0
    ensures result == Err(OverlapOutOfRange) <==> chunkSize > 0 && !(0 <= overlap < chunkSize)
    ensures result.Ok? ==>
              0 <= overlap < chunkSize &&
              exists a: nat, b: nat :: Bounds(text, space, a, b) && result.value == ChunksFrom(text[a..b], chunkSize, overlap)
  {
    if chunkSize <= 0 { return Err(SizeNotPositive); }
    if overlap < 0 || overlap >= chunkSize { return Err(OverlapOutOfRange); }
    var stripped := Strip(text, space);
    ghost var a, b := StripCutsTheEnds(text, space);
    if |stripped| == 0 { return Ok([]); }
    var chunks: seq<string> := [];
    var start, length, stride := 0, |stripped|, chunkSize - overlap;
    while start < length
      invariant 0 <= start <= length
      invariant chunks + ChunksFrom(stripped[start..], chunkSize, overlap) == ChunksFrom(stripped, chunkSize, overlap)
      decreases length - start
    {
      var end := if start + chunkSize < length then start + chunkSize else length;
      assert stripped[start..][..end - start] == stripped[start..end];
      if end == length {
        assert stripped[start..] == stripped[start..end];
        chunks := chunks + [stripped[start..end]];
        return Ok(chunks);
      }
      assert stripped[start..][stride..] == stripped[start + stride..];
      chunks := chunks + [stripped[start..end]];
      start := start + stride;
    }
    return Ok(chunks);
  }

  function DropEach(chunks: seq<string>, overlap: nat): string
    decreases |chunks|
  {
    if chunks == [] then "" else
      (if overlap <= |chunks[0]| then chunks[0][overlap..] else "") + DropEach(chunks[1..], overlap)
  }

  /** Dropping each later chunk's first `overlap` characters and joining what is left. */
  function Joined(chunks: seq<string>, overlap: nat): string
  {
    if chunks == [] then "" else chunks[0] + DropEach(chunks[1..], overlap)
  }

  function CeilDiv(n: nat, d: nat): nat
    requires d > 0
  {
    (n + d - 1) / d
  }

  lemma FirstChunk(text: string, size: nat, overlap: nat)
    requires overlap < size && text != ""
    ensures var chunks := ChunksFrom(text, size, overlap);
            chunks != [] && chunks[0] == text[..if |text| < size then |text| else size] && (|chunks| == 1 <==> |text| <= size)
  {}

  /** A chunk, and a joined rest that begins with its last `overlap` characters. */
  lemma JoinStep(text: string, later: seq<string>, size: nat, overlap: nat)
    requires overlap < size < |text| && later != [] && |later[0]| >= overlap
    requires Joined(later, overlap) == text[size - overlap..]
    ensures Joined([text[..size]] + later, overlap) == text
  {
    var rest := text[size - overlap..];
    var tail := DropEach(later[1..], overlap);
    assert ([text[..size]] + later)[1..] == later;
    assert rest == later[0] + tail;
    assert rest[overlap..] == later[0][overlap..] + tail;
    assert rest[overlap..] == text[size..];
    assert text == text[..size] + text[size..];
  }

  /** Splitting loses nothing and repeats only the overlaps. */
  lemma {:induction false} ChunksRejoin(text: string, size: nat, overlap: nat)
    requires overlap < size
    ensures Joined(ChunksFrom(text, size, overlap), overlap) == text
    decreases |text|
  {
    if |text| > size {
      var rest := text[size - overlap..];
      ChunksRejoin(rest, size, overlap);
      FirstChunk(rest, size, overlap);
      JoinStep(text, ChunksFrom(rest, size, overlap), size, overlap);
    } else if text != "" {
      assert [text][1..] == [];
    }
  }

  /** Every chunk but the last has exactly the chunk size; the last is not empty and, after another, longer
      than the overlap; consecutive chunks share exactly the overlap. */
  lemma {:induction false} ChunkShapes(text: string, size: nat, overlap: nat)
    requires overlap < size
    ensures var chunks := ChunksFrom(text, size, overlap);
            (forall i :: 0 <= i < |chunks| - 1 ==> |chunks[i]| == size) &&
            (chunks != [] ==> 0 < |chunks[|chunks| - 1]| <= size) &&
            (|chunks| > 1 ==> overlap < |chunks[|chunks| - 1]|)
    ensures var chunks := ChunksFrom(text, size, overlap);
            forall i, j :: 0 <= i < j < |chunks| && j == i + 1 ==>
              |chunks[i]| == size && |chunks[j]| >= overlap && chunks[i][size - overlap..] == chunks[j][..overlap]
    decreases |text|
  {
    if |text| > size {
      var rest := text[size - overlap..];
      var later := ChunksFrom(rest, size, overlap);
      ChunkShapes(rest, size, overlap);
      FirstChunk(rest, size, overlap);
      assert text[..size][size - overlap..] == text[size - overlap..size];
      assert rest[..overlap] == text[size - overlap..size];
      assert later[0][..overlap] == rest[..overlap];
    }
  }

  lemma CeilDivStep(n: nat, d: nat)
    requires d > 0 && n > 0
    ensures CeilDiv(n, d) == 1 + if n <= d then 0 else CeilDiv(n - d, d)
  {
    if n <= d {
      DivIs(n + d - 1, d, 1, n - 1);
    } else {
      var q, r := (n - 1) / d, (n - 1) % d;
      assert n - 1 == q * d + r;
      assert n + d - 1 == (q + 1) * d + r;
      DivIs(n + d - 1, d, q + 1, r);
    }
  }

  /** The number of chunks, by arithmetic. */
  lemma {:induction false} ChunkCount(text: string, size: nat, overlap: nat)
    requires overlap < size
    ensures |ChunksFrom(text, size, overlap)| ==
            if |text| == 0 then 0 else if |text| <= size then 1 else 1 + CeilDiv(|text| - size, size - overlap)
    decreases |text|
  {
    if |text| > size {
      ChunkCount(text[size - overlap..], size, overlap);
      CeilDivStep(|text| - size, size - overlap);
    }
  }
}
