/** The two truncation helpers that shorten search-result snippets:
    `_truncate_words` (a word budget for text) and `_truncate_code`
    (a character budget for a code block). */
module Snippets {
  import opened Text

  /** The single character U+2026 appended to a truncated snippet. */
  const Ellipsis: string := "\U{2026}"

  /** The character budget `_truncate_code` uses unless told otherwise. */
  const DefaultCodeChars: int := 1200

  /** `_truncate_words(text, max_words)`: the stripped text when it has at
      most `max_words` words, otherwise its first `max_words` words joined by
      single spaces and followed by an ellipsis. */
  function TruncateWords(text: string, maxWords: int): string {
    var words := Split(text);
    if |words| <= maxWords then Strip(text)
    else Strip(Join(TakePy(words, maxWords), " ")) + Ellipsis
  }

  /** `_truncate_code(code, max_chars)`: newlines are trimmed from both ends;
      a longer block keeps its first `max_chars` characters, without trailing
      whitespace, followed by a newline and an ellipsis. */
  function TruncateCode(code: string, maxChars: int): string {
    var trimmed := StripChars(code, {'\n'});
    if |trimmed| <= maxChars then trimmed
    else RStrip(TakePy(trimmed, maxChars)) + "\n" + Ellipsis
  }

  /** A text within the budget keeps exactly its words, and is not marked. */
  lemma TruncateWordsShort(text: string, maxWords: int)
    requires |Split(text)| <= maxWords
    ensures TruncateWords(text, maxWords) == Strip(text)
    ensures Split(TruncateWords(text, maxWords)) == Split(text)
  {
    SplitStrip(text);
  }

  /** A text over the budget becomes its first `maxWords` words, single-spaced,
      and then the ellipsis. */
  lemma TruncateWordsLong(text: string, maxWords: nat)
    requires maxWords < |Split(text)|
    ensures var kept := Join(Split(text)[..maxWords], " ");
      && TruncateWords(text, maxWords) == kept + Ellipsis
      && Split(kept) == Split(text)[..maxWords]
  {
    var words := Split(text);
    var kept := words[..maxWords];
    assert TakePy(words, maxWords) == kept;
    assert AllWords(kept) by {
      forall k | 0 <= k < |kept| ensures IsWord(kept[k]) {
        assert kept[k] == words[k];
      }
    }
    if maxWords > 0 {
      StripJoinedWords(kept);
    }
    SplitJoin(kept);
  }

  /** A code block within the budget is the block with its leading and
      trailing newlines removed, and nothing else. */
  lemma TruncateCodeShort(code: string, maxChars: int) returns (a: nat, b: nat)
    requires |StripChars(code, {'\n'})| <= maxChars
    ensures a <= b <= |code| && TruncateCode(code, maxChars) == code[a..b]
    ensures forall i :: 0 <= i < a ==> code[i] == '\n'
    ensures forall i :: b <= i < |code| ==> code[i] == '\n'
    ensures var r := TruncateCode(code, maxChars);
      r == [] || (r[0] != '\n' && r[|r| - 1] != '\n')
  {
    a, b := StripCharsSlice(code, {'\n'});
    StripCharsEnds(code, {'\n'});
  }

  /** A code block over the budget becomes a prefix of the trimmed block, at
      most `maxChars` long and not ending in whitespace, followed by a newline
      and the ellipsis; what it drops of the first `maxChars` characters is
      whitespace. */
  lemma TruncateCodeLong(code: string, maxChars: nat) returns (kept: string)
    requires |StripChars(code, {'\n'})| > maxChars
    ensures TruncateCode(code, maxChars) == kept + "\n" + Ellipsis
    ensures |kept| <= maxChars && kept == StripChars(code, {'\n'})[..|kept|]
    ensures kept == [] || !IsSpace(kept[|kept| - 1])
    ensures AllSpaces(StripChars(code, {'\n'})[|kept|..maxChars])
  {
    kept := RStripPrefix(StripChars(code, {'\n'}), maxChars);
  }

  /** Whatever the block, the result spends at most two characters beyond the
      budget (the newline and the ellipsis). */
  lemma TruncateCodeBounded(code: string, maxChars: nat)
    ensures |TruncateCode(code, maxChars)| <= maxChars + 2
  {
  }
}
