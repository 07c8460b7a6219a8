/** The word-window chunker `_chunk_words` (api/engine.py): a section's
    text is split into words and cut into windows of at most `maxWords`
    words, each window starting `step = maxWords - overlapWords` words after
    the previous one; the last window is cut short at the end of the text. */
module Chunker {
  import opened Text

  /** How many windows a text of `n > maxWords` words is cut into: the first
      one, plus one for every further `step` words, rounded up. */
  function ChunkCount(n: nat, maxWords: nat, step: nat): nat
    requires 0 < step && maxWords < n
  {
    (n - maxWords + step - 1) / step + 1
  }

  /** The text of window `i`: the words `words[i*step : i*step + maxWords]`
      (a Python slice, so cut short at the end) joined by single spaces. */
  function ChunkOf(words: seq<string>, maxWords: nat, step: nat, i: nat): string {
    Join(SlicePy(words, i * step, i * step + maxWords), " ")
  }

  /** The texts of all windows over a sequence of more than `maxWords` words. */
  function WindowChunks(words: seq<string>, maxWords: nat, step: nat): seq<string>
    requires 0 < step && maxWords < |words|
  {
    seq(ChunkCount(|words|, maxWords, step), i requires 0 <= i => ChunkOf(words, maxWords, step, i))
  }

  /** What `_chunk_words(text, max_words=maxWords, overlap_words=overlapWords)`
      returns: the stripped text alone when it has at most `maxWords` words,
      otherwise the text of every window. */
  function Chunks(text: string, maxWords: nat, overlapWords: nat): seq<string>
    requires overlapWords < maxWords
  {
    var words := Split(text);
    if |words| <= maxWords then [Strip(text)]
    else WindowChunks(words, maxWords, maxWords - overlapWords)
  }

  // ---------------------------------------------------------------------
  // The loop of `_chunk_words`

  /** `_chunk_words(text, max_words=maxWords, overlap_words=overlapWords)`. */
  method ChunkWords(text: string, maxWords: int, overlapWords: int) returns (chunks: seq<string>)
    requires 0 <= overlapWords < maxWords
    ensures chunks == Chunks(text, maxWords, overlapWords)
  {
    var words := Split(text);
    if |words| <= maxWords {
      return [Strip(text)];
    }
    chunks := SlideWindows(words, maxWords, maxWords - overlapWords);
  }

  /** The `for start in range(0, len(words), step)` loop of `_chunk_words`:
      one chunk per window, kept when non-empty, until a window reaches the
      last word. */
  method SlideWindows(words: seq<string>, size: nat, step: nat) returns (chunks: seq<string>)
    requires AllWords(words) && 0 < step <= size < |words|
    ensures chunks == WindowChunks(words, size, step)
  {
    var n := |words|;
    chunks := [];
    var start: nat := 0;
    while start < n
      invariant start == |chunks| * step
      invariant |chunks| == 0 || (|chunks| - 1) * step + size < n
      invariant forall j :: 0 <= j < |chunks| ==> chunks[j] == ChunkOf(words, size, step, j)
      decreases n - start
    {
      ghost var k := |chunks|;
      var end := Min(start + size, n);
      var chunk := JoinedChunk(words, start, end);
      assert chunk == ChunkOf(words, size, step, k);
      if chunk != [] {
        chunks := chunks + [chunk];
      }
      if end >= n {
        LastWindow(n, size, step, k);
        AllWindowsDone(words, size, step, chunks);
        break;
      }
      NextWindowStart(k, step);
      start := start + step;
    }
  }

  /** Once every window's text has been collected, in order, the chunks are complete. */
  lemma AllWindowsDone(words: seq<string>, size: nat, step: nat, chunks: seq<string>)
    requires 0 < step && size < |words|
    requires |chunks| == ChunkCount(|words|, size, step)
    requires forall j :: 0 <= j < |chunks| ==> chunks[j] == ChunkOf(words, size, step, j)
    ensures chunks == WindowChunks(words, size, step)
  {
  }

  lemma NextWindowStart(k: nat, step: nat)
    ensures (k + 1) * step == k * step + step
  {
  }

  /** `" ".join(words[start:end]).strip()`: words joined by single spaces
      have nothing to strip, and a non-empty range gives a non-empty chunk. */
  method JoinedChunk(words: seq<string>, start: nat, end: nat) returns (chunk: string)
    requires AllWords(words) && start < end <= |words|
    ensures chunk == Join(words[start..end], " ") && chunk != []
  {
    AllWordsSlice(words, start, end);
    StripJoinedWords(words[start..end]);
    chunk := Strip(Join(words[start..end], " "));
  }

  // ---------------------------------------------------------------------
  // Arithmetic of the window positions

  lemma MulAtLeast(k: int, s: int)
    requires k >= 1 && s > 0
    ensures k * s >= s
  {
  }

  lemma DivUnique(x: int, s: int, q: int, r: int)
    requires 0 < s && 0 <= r < s && x == q * s + r
    ensures x / s == q
  {
    var quotient, remainder := x / s, x % s;
    assert (quotient - q) * s == r - remainder;
    if quotient > q {
      MulAtLeast(quotient - q, s);
    } else if quotient < q {
      MulAtLeast(q - quotient, s);
    }
  }

  lemma MulMono(i: nat, j: nat, step: nat)
    requires i <= j
    ensures i * step <= j * step
  {
    assert j * step == i * step + (j - i) * step;
  }

  /** Window `k` is the last one exactly when it reaches the end of the text
      and the window before it (if any) does not. */
  lemma LastWindow(n: nat, maxWords: nat, step: nat, k: nat)
    requires 0 < step && maxWords < n
    ensures k + 1 == ChunkCount(n, maxWords, step)
        <==> k * step + maxWords >= n && (k == 0 || (k - 1) * step + maxWords < n)
  {
    var a := n - maxWords;
    var q := (a + step - 1) / step;
    var r := (a + step - 1) % step;
    assert a + step - 1 == q * step + r;
    assert q * step + maxWords >= n;
    assert q >= 1 ==> (q - 1) * step + maxWords < n by {
      if q >= 1 {
        assert (q - 1) * step == q * step - step;
      }
    }
    if k * step + maxWords >= n && (k == 0 || (k - 1) * step + maxWords < n) {
      assert k >= 1;
      assert (k - 1) * step == k * step - step;
      DivUnique(a + step - 1, step, k, a + step - 1 - k * step);
    }
  }

  /** Every window of a longer text starts inside it; all but the last end
      `maxWords` words later, before the end, and the last one reaches it. */
  lemma WindowBounds(n: nat, maxWords: nat, step: nat, i: nat)
    requires 0 < step <= maxWords < n
    requires i < ChunkCount(n, maxWords, step)
    ensures i * step < n
    ensures i + 1 < ChunkCount(n, maxWords, step) ==> i * step + maxWords < n
    ensures i + 1 == ChunkCount(n, maxWords, step) ==> i * step + maxWords >= n
  {
    var last := ChunkCount(n, maxWords, step) - 1;
    LastWindow(n, maxWords, step, last);
    if i < last {
      MulMono(i, last - 1, step);
    } else if last > 0 {
      assert last * step == (last - 1) * step + step;
    }
  }

  // ---------------------------------------------------------------------
  // Properties of the chunks

  /** A text of at most `maxWords` words is one chunk: the stripped text,
      which has exactly the text's words (so the empty text gives `[""]`). */
  lemma ShortTextIsOneChunk(text: string, maxWords: nat, overlapWords: nat)
    requires overlapWords < maxWords && |Split(text)| <= maxWords
    ensures Chunks(text, maxWords, overlapWords) == [Strip(text)]
    ensures Split(Chunks(text, maxWords, overlapWords)[0]) == Split(text)
  {
    SplitStrip(text);
  }

  /** For more than `maxWords` words (a longer text's `Split`), with
      `0 < step <= maxWords`: there are `ChunkCount(n, maxWords, step)`
      chunks, and chunk `i` is exactly the words
      `[i * step, min(i * step + maxWords, n))`, at least one and at most
      `maxWords` of them. */
  lemma ChunkWordsAt(words: seq<string>, maxWords: nat, step: nat, i: nat) returns (end: nat)
    requires AllWords(words) && 0 < step <= maxWords < |words|
    requires i < ChunkCount(|words|, maxWords, step)
    ensures |WindowChunks(words, maxWords, step)| == ChunkCount(|words|, maxWords, step)
    ensures end == Min(i * step + maxWords, |words|)
    ensures i * step < end <= |words| && end - i * step <= maxWords
    ensures Split(WindowChunks(words, maxWords, step)[i]) == words[i * step..end]
  {
    WindowBounds(|words|, maxWords, step, i);
    end := Min(i * step + maxWords, |words|);
    var slice := WindowSlice(words, maxWords, step, i);
    assert WindowChunks(words, maxWords, step)[i] == Join(slice, " ");
    SplitJoin(slice);
  }

  lemma WindowSlice(words: seq<string>, maxWords: nat, step: nat, i: nat) returns (slice: seq<string>)
    requires AllWords(words) && i * step < |words|
    ensures slice == words[i * step..Min(i * step + maxWords, |words|)]
    ensures slice == SlicePy(words, i * step, i * step + maxWords)
    ensures AllWords(slice)
  {
    slice := words[i * step..Min(i * step + maxWords, |words|)];
    AllWordsSlice(words, i * step, Min(i * step + maxWords, |words|));
  }

  /** The last chunk ends at the last word, and consecutive chunks start
      `step` words apart and share exactly `overlapWords` words. */
  lemma WindowsChain(n: nat, maxWords: nat, overlapWords: nat, i: nat)
    requires overlapWords < maxWords < n
    requires i < ChunkCount(n, maxWords, maxWords - overlapWords)
    ensures var step := maxWords - overlapWords;
      var end := Min(i * step + maxWords, n);
      && (i + 1 == ChunkCount(n, maxWords, step) ==> end == n)
      && (i + 1 < ChunkCount(n, maxWords, step) ==>
            end < n && end - (i + 1) * step == overlapWords)
  {
    var step := maxWords - overlapWords;
    WindowBounds(n, maxWords, step, i);
    assert (i + 1) * step == i * step + step;
  }

  /** Every word of a longer text is in some chunk: chunking drops nothing. */
  lemma EveryWordInSomeChunk(text: string, maxWords: nat, overlapWords: nat, j: nat) returns (i: nat)
    requires overlapWords < maxWords < |Split(text)|
    requires j < |Split(text)|
    ensures var n := |Split(text)|;
      var step := maxWords - overlapWords;
      && i < ChunkCount(n, maxWords, step)
      && i * step <= j < Min(i * step + maxWords, n)
  {
    i := WindowCovering(|Split(text)|, maxWords, maxWords - overlapWords, j);
  }

  /** The window that covers word position `j`. */
  lemma WindowCovering(n: nat, maxWords: nat, step: nat, j: nat) returns (i: nat)
    requires 0 < step <= maxWords < n && j < n
    ensures i < ChunkCount(n, maxWords, step)
    ensures i * step <= j < Min(i * step + maxWords, n)
  {
    var last := ChunkCount(n, maxWords, step) - 1;
    WindowBounds(n, maxWords, step, last);
    var q := j / step;
    QuotientBounds(j, step);
    if q < last {
      i := q;
    } else {
      i := last;
      MulMono(last, q, step);
    }
  }

  lemma QuotientBounds(j: nat, step: nat)
    requires 0 < step
    ensures (j / step) * step <= j < (j / step) * step + step
  {
    assert j == (j / step) * step + j % step;
  }
}
