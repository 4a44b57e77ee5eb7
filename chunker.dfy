/** `DocumentProcessor.chunk_content` (src/claude_clis/shared/ai_client.py):
    splitting a long document into pieces of about `chunk_size` characters,
    cutting after a paragraph break if one lies close enough before the
    nominal end, else after a sentence end, else at the nominal end. */
module Chunking {
  import opened Base
  import opened Text

  /** `content[i:i+2] == "\n\n"`. */
  predicate IsParagraphBreak(s: string, i: int)
  {
    0 <= i && i + 2 <= |s| && s[i] == '\n' && s[i + 1] == '\n'
  }

  /** `content[i] in ".!?"`. */
  predicate IsSentenceEnd(s: string, i: int)
  {
    0 <= i < |s| && s[i] in {'.', '!', '?'}
  }

  /** The largest `i` in `(lo, hi]` with a paragraph break at `i`: the first hit
      of `for i in range(hi, lo, -1)`. */
  function LastParagraphBreak(s: string, lo: int, hi: int): (r: Option<int>)
    ensures r.Some? ==> lo < r.value <= hi && IsParagraphBreak(s, r.value)
    ensures r.Some? ==> forall k :: r.value < k <= hi ==> !IsParagraphBreak(s, k)
    ensures r.None? ==> forall k :: lo < k <= hi ==> !IsParagraphBreak(s, k)
    decreases hi - lo
  {
    if hi <= lo then None
    else if IsParagraphBreak(s, hi) then Some(hi)
    else LastParagraphBreak(s, lo, hi - 1)
  }

  /** The largest `i` in `(lo, hi]` holding a sentence end. */
  function LastSentenceEnd(s: string, lo: int, hi: int): (r: Option<int>)
    ensures r.Some? ==> lo < r.value <= hi && IsSentenceEnd(s, r.value)
    ensures r.Some? ==> forall k :: r.value < k <= hi ==> !IsSentenceEnd(s, k)
    ensures r.None? ==> forall k :: lo < k <= hi ==> !IsSentenceEnd(s, k)
    decreases hi - lo
  {
    if hi <= lo then None
    else if IsSentenceEnd(s, hi) then Some(hi)
    else LastSentenceEnd(s, lo, hi - 1)
  }

  /** Lower (exclusive) bounds of the two search windows. */
  function ParagraphLo(cur: int, size: int, end: int): int { Max(cur + size / 2, end - 200) }

  function SentenceLo(cur: int, size: int, end: int): int { Max(cur + size / 2, end - 100) }

  /** `min(current_pos + chunk_size, len(content))`. */
  function NominalEnd(content: string, size: int, cur: int): int { Min(cur + size, |content|) }

  /** The position `current_pos` moves to in one iteration of the loop.
      Dafny's `/` agrees with Python's `//` for the divisor 2. */
  function NextCut(content: string, size: int, cur: int): (r: int)
    requires 0 <= cur < |content|
    ensures size >= 1 ==> cur < r <= |content| && r <= cur + size + 2
    ensures size <= 0 ==> r <= cur
  {
    var end := NominalEnd(content, size, cur);
    if end < |content| then
      match LastParagraphBreak(content, ParagraphLo(cur, size, end), end)
      case Some(i) => i + 2
      case None =>
        match LastSentenceEnd(content, SentenceLo(cur, size, end), end)
        case Some(i) => i + 1
        case None => end
    else end
  }

  /** The cut rule stated without the search functions: at the end of the text
      the cut is the end; otherwise it is two past the last paragraph break of
      the first window if there is one, else one past the last sentence end of
      the second window if there is one, else the nominal end. */
  lemma NextCutRule(content: string, size: int, cur: int)
    requires 0 <= cur < |content| && size >= 1
    ensures var end := NominalEnd(content, size, cur);
      var r := NextCut(content, size, cur);
      var plo, slo := ParagraphLo(cur, size, end), SentenceLo(cur, size, end);
      && (end == |content| ==> r == |content|)
      && (end < |content| && (exists k :: plo < k <= end && IsParagraphBreak(content, k)) ==>
            plo < r - 2 <= end && IsParagraphBreak(content, r - 2)
            && forall k :: r - 2 < k <= end ==> !IsParagraphBreak(content, k))
      && (end < |content| && (forall k :: plo < k <= end ==> !IsParagraphBreak(content, k))
            && (exists k :: slo < k <= end && IsSentenceEnd(content, k)) ==>
            slo < r - 1 <= end && IsSentenceEnd(content, r - 1)
            && forall k :: r - 1 < k <= end ==> !IsSentenceEnd(content, k))
      && (end < |content| && (forall k :: plo < k <= end ==> !IsParagraphBreak(content, k))
            && (forall k :: slo < k <= end ==> !IsSentenceEnd(content, k)) ==>
            r == end)
  {
  }

  /** The raw slices `content[current_pos:end_pos]` from `cur` on. */
  function RawPieces(content: string, size: int, cur: nat): (r: seq<string>)
    requires size >= 1 && cur <= |content|
    decreases |content| - cur
  {
    if cur == |content| then []
    else
      var e := NextCut(content, size, cur);
      [content[cur..e]] + RawPieces(content, size, e)
  }

  function Concat(pieces: seq<string>): string
  {
    if pieces == [] then [] else pieces[0] + Concat(pieces[1..])
  }

  /** The raw slices tile the rest of the text. */
  lemma {:induction false} RawPiecesTile(content: string, size: int, cur: nat)
    requires size >= 1 && cur <= |content|
    ensures Concat(RawPieces(content, size, cur)) == content[cur..]
    decreases |content| - cur
  {
    if cur < |content| {
      var e := NextCut(content, size, cur);
      RawPiecesTile(content, size, e);
      assert RawPieces(content, size, cur)[1..] == RawPieces(content, size, e);
      assert content[cur..] == content[cur..e] + content[e..];
    }
  }

  /** Every raw slice is non-empty and at most `chunk_size + 2` long. */
  lemma {:induction false} RawPieceBounds(content: string, size: int, cur: nat)
    requires size >= 1 && cur <= |content|
    ensures forall p :: p in RawPieces(content, size, cur) ==> 1 <= |p| <= size + 2
    decreases |content| - cur
  {
    if cur < |content| {
      var e := NextCut(content, size, cur);
      RawPieceBounds(content, size, e);
      assert RawPieces(content, size, cur) == [content[cur..e]] + RawPieces(content, size, e);
    }
  }

  /** The strictly increasing cut positions after `cur`, ending at `|content|`. */
  function Cuts(content: string, size: int, cur: nat): (r: seq<int>)
    requires size >= 1 && cur <= |content|
    ensures forall k :: 0 <= k < |r| ==> cur < r[k] <= |content|
    ensures forall j, k :: 0 <= j < k < |r| ==> r[j] < r[k]
    ensures cur < |content| ==> r != [] && r[|r| - 1] == |content|
    decreases |content| - cur
  {
    if cur == |content| then []
    else
      var e := NextCut(content, size, cur);
      [e] + Cuts(content, size, e)
  }

  /** The raw slices are the text between consecutive cuts: slice k runs
      from the previous cut (or `cur`) to cut k. */
  lemma {:induction false} PiecesBetweenCuts(content: string, size: int, cur: nat)
    requires size >= 1 && cur <= |content|
    ensures var cs, ps := Cuts(content, size, cur), RawPieces(content, size, cur);
      |ps| == |cs| && forall k :: 0 <= k < |cs| ==> ps[k] == content[(if k == 0 then cur else cs[k - 1])..cs[k]]
    decreases |content| - cur
  {
    if cur < |content| {
      var e := NextCut(content, size, cur);
      PiecesBetweenCuts(content, size, e);
      var cs, ps := Cuts(content, size, cur), RawPieces(content, size, cur);
      assert cs == [e] + Cuts(content, size, e) && ps == [content[cur..e]] + RawPieces(content, size, e);
      forall k | 1 <= k < |cs|
        ensures ps[k] == content[cs[k - 1]..cs[k]]
      {
        assert ps[k] == RawPieces(content, size, e)[k - 1] && cs[k] == Cuts(content, size, e)[k - 1];
        if k > 1 {
          assert cs[k - 1] == Cuts(content, size, e)[k - 2];
        }
      }
    }
  }

  /** The slices kept by `chunk = piece.strip(); if chunk: chunks.append(chunk)`. */
  function KeepStripped(pieces: seq<string>): (r: seq<string>)
    ensures |r| <= |pieces|
  {
    if pieces == [] then []
    else
      var c := Strip(pieces[0]);
      (if c != [] then [c] else []) + KeepStripped(pieces[1..])
  }

  /** No kept chunk is empty or starts or ends with whitespace. */
  lemma {:induction false} KeptAreNonBlank(pieces: seq<string>)
    ensures forall c :: c in KeepStripped(pieces) ==> Trimmed(c)
  {
    if pieces != [] {
      var c := Strip(pieces[0]);
      assert c != [] ==> Trimmed(c) by { TrimEnds(pieces[0], Whitespace); }
      KeptAreNonBlank(pieces[1..]);
      var first := if c != [] then [c] else [];
      assert KeepStripped(pieces) == first + KeepStripped(pieces[1..]);
      assert forall x :: x in first ==> Trimmed(x);
    }
  }

  /** Non-empty, and neither starting nor ending with whitespace. */
  predicate Trimmed(c: string)
  {
    c != [] && !IsSpace(c[0]) && !IsSpace(c[|c| - 1])
  }

  /** Every kept chunk is one raw slice, stripped. */
  lemma {:induction false} KeptAreStrippedPieces(pieces: seq<string>)
    ensures forall c :: c in KeepStripped(pieces) ==> exists p :: p in pieces && c == Strip(p)
  {
    if pieces != [] {
      KeptAreStrippedPieces(pieces[1..]);
      forall c | c in KeepStripped(pieces)
        ensures exists p :: p in pieces && c == Strip(p)
      {
        if c in KeepStripped(pieces[1..]) {
          var p :| p in pieces[1..] && c == Strip(p);
          assert p in pieces;
        } else {
          assert c == Strip(pieces[0]) && pieces[0] in pieces;
        }
      }
    }
  }

  /** The value of `chunk_content(content, chunk_size)`. Sizes below one loop
      forever in the source unless the text already fits. */
  function Chunks(content: string, size: int): seq<string>
    requires size >= 1 || |content| <= size
  {
    if |content| <= size then [content] else KeepStripped(RawPieces(content, size, 0))
  }

  /** A text that fits is returned whole and unstripped. */
  lemma ChunksOfShortText(content: string, size: int)
    requires |content| <= size
    ensures Chunks(content, size) == [content]
  {
  }

  /** A long text yields non-blank chunks, each the stripped form of one raw
      slice; the slices tile the text and none exceeds `chunk_size + 2`. */
  lemma ChunksOfLongText(content: string, size: int)
    requires size >= 1 && |content| > size
    ensures forall c :: c in Chunks(content, size) ==> Trimmed(c)
    ensures forall c :: c in Chunks(content, size) ==>
      exists p :: p in RawPieces(content, size, 0) && c == Strip(p) && 1 <= |p| <= size + 2
    ensures Concat(RawPieces(content, size, 0)) == content
  {
    RawPiecesTile(content, size, 0);
    RawPieceBounds(content, size, 0);
    KeptAreNonBlank(RawPieces(content, size, 0));
    KeptAreStrippedPieces(RawPieces(content, size, 0));
  }

  /** With a size below one the loop position never advances. */
  lemma NoProgressWithoutPositiveSize(content: string, size: int, cur: int)
    requires 0 <= cur < |content| && size <= 0
    ensures NextCut(content, size, cur) <= cur
  {
  }

  /** One iteration of the outer loop: the next raw slice, stripped, is kept
      in front of the rest iff it is not blank. */
  lemma KeepStrippedStep(content: string, size: int, cur: nat)
    requires size >= 1 && cur < |content|
    ensures var e := NextCut(content, size, cur);
      var c := Strip(content[cur..e]);
      KeepStripped(RawPieces(content, size, cur))
        == (if c != [] then [c] else []) + KeepStripped(RawPieces(content, size, e))
  {
    var e := NextCut(content, size, cur);
    assert RawPieces(content, size, cur) == [content[cur..e]] + RawPieces(content, size, e);
    assert RawPieces(content, size, cur)[1..] == RawPieces(content, size, e);
  }

  lemma Regroup(a: seq<string>, b: seq<string>, c: seq<string>, whole: seq<string>, total: seq<string>)
    requires a + whole == total && whole == b + c
    ensures (a + b) + c == total
  {
    assert (a + b) + c == a + (b + c);
  }

  /** The paragraph-break loop `for i in range(hi, lo, -1)` with its `break`. */
  method FindParagraphBreak(s: string, lo: int, hi: int) returns (r: Option<int>)
    requires lo <= hi
    ensures r == LastParagraphBreak(s, lo, hi)
  {
    var i := hi;
    while i > lo && !IsParagraphBreak(s, i)
      invariant lo <= i <= hi
      invariant LastParagraphBreak(s, lo, i) == LastParagraphBreak(s, lo, hi)
      decreases i - lo
    {
      i := i - 1;
    }
    r := if i > lo then Some(i) else None;
  }

  /** The sentence-end loop, run only when the paragraph loop found nothing. */
  method FindSentenceEnd(s: string, lo: int, hi: int) returns (r: Option<int>)
    requires lo <= hi
    ensures r == LastSentenceEnd(s, lo, hi)
  {
    var i := hi;
    while i > lo && !IsSentenceEnd(s, i)
      invariant lo <= i <= hi
      invariant LastSentenceEnd(s, lo, i) == LastSentenceEnd(s, lo, hi)
      decreases i - lo
    {
      i := i - 1;
    }
    r := if i > lo then Some(i) else None;
  }

  /** One iteration's choice of `end_pos`. */
  method NextEnd(content: string, size: int, cur: nat) returns (end: int)
    requires size >= 1 && cur < |content|
    ensures end == NextCut(content, size, cur)
  {
    end := Min(cur + size, |content|);
    if end < |content| {
      var para := FindParagraphBreak(content, ParagraphLo(cur, size, end), end);
      if para.Some? {
        end := para.value + 2;
      } else {
        var sentence := FindSentenceEnd(content, SentenceLo(cur, size, end), end);
        if sentence.Some? {
          end := sentence.value + 1;
        }
      }
    }
  }

  /** `chunk_content`: a text that fits is returned whole; otherwise the loop
      over `current_pos` runs. */
  method ChunkContent(content: string, size: int) returns (chunks: seq<string>)
    requires size >= 1 || |content| <= size
    ensures chunks == Chunks(content, size)
  {
    if |content| <= size {
      return [content];
    }
    chunks := ChunkLoop(content, size);
  }

  /** The `while current_pos < len(content)` loop of `chunk_content`. */
  method ChunkLoop(content: string, size: int) returns (chunks: seq<string>)
    requires size >= 1
    ensures chunks == KeepStripped(RawPieces(content, size, 0))
  {
    chunks := [];
    var cur := 0;
    while cur < |content|
      invariant 0 <= cur <= |content|
      invariant chunks + KeepStripped(RawPieces(content, size, cur)) == KeepStripped(RawPieces(content, size, 0))
      decreases |content| - cur
    {
      chunks, cur := ChunkStep(content, size, cur, chunks, KeepStripped(RawPieces(content, size, 0)));
    }
  }

  /** One pass of the loop body: cut the next piece, keep it if it is not
      blank once stripped. */
  method ChunkStep(content: string, size: int, cur: nat, chunks: seq<string>, ghost total: seq<string>)
    returns (chunks': seq<string>, end: nat)
    requires size >= 1 && cur < |content|
    requires chunks + KeepStripped(RawPieces(content, size, cur)) == total
    ensures cur < end <= |content|
    ensures chunks' + KeepStripped(RawPieces(content, size, end)) == total
  {
    end := NextEnd(content, size, cur);
    var chunk := Strip(content[cur..end]);
    chunks' := chunks;
    if chunk != [] {
      chunks' := chunks + [chunk];
    }
    ghost var kept := if chunk != [] then [chunk] else [];
    assert chunks' == chunks + kept;
    assert KeepStripped(RawPieces(content, size, cur)) == kept + KeepStripped(RawPieces(content, size, end)) by {
      KeepStrippedStep(content, size, cur);
    }
    Regroup(chunks, kept, KeepStripped(RawPieces(content, size, end)), KeepStripped(RawPieces(content, size, cur)), total);
  }
}
