/** Python's `int(s)` on a string, base 10, as `Settings.from_env` uses it
    for every numeric variable, and the decimal text `str(n)` it inverts. */
module PyInt {
  import opened Wrappers
  import opened Text

  /** A decimal digit. Only the ASCII digits `0`-`9` are modelled: Python's
      `int` also accepts the other Unicode decimal digits, which this model
      rejects. */
  predicate IsDigit(c: char) {
    '0' <= c <= '9'
  }

  /** The digits of a base-10 literal: at least one digit, and every `_`
      sits between two digits (so none leads, trails or doubles). */
  predicate DigitRun(s: string) {
    && s != []
    && IsDigit(s[0])
    && forall i :: 0 <= i < |s| ==> IsDigit(s[i]) || (s[i] == '_' && i + 1 < |s| && IsDigit(s[i + 1]))
  }

  /** The value of a digit run, with the underscores ignored. */
  function DigitsValue(s: string): nat {
    if s == [] then 0
    else if s[|s| - 1] == '_' then DigitsValue(s[..|s| - 1])
    else 10 * DigitsValue(s[..|s| - 1]) + ((s[|s| - 1] as int - '0' as int) % 10)
  }

  /** `int(s)`: surrounding whitespace is ignored, one `+` or `-` may lead,
      and the rest must be a digit run of ASCII digits; anything else is
      `None` here (`int` raises `ValueError`, except on a run of other
      Unicode decimal digits, which it accepts). */
  function ParseInt(s: string): Option<int> {
    ParseLiteral(Strip(s))
  }

  /** `int` on an already stripped literal. */
  function ParseLiteral(t: string): Option<int> {
    var signed := t != [] && (t[0] == '-' || t[0] == '+');
    var body := if signed then t[1..] else t;
    var magnitude: int := DigitsValue(body);
    if !DigitRun(body) then None
    else if t[0] == '-' then Some(-magnitude)
    else Some(magnitude)
  }

  function DigitChar(d: nat): char
    requires d < 10
  {
    ('0' as int + d) as char
  }

  /** `str(n)` for a natural number: its decimal digits, without leading zeros. */
  function ShowNat(n: nat): (s: string)
    ensures s != [] && forall i :: 0 <= i < |s| ==> IsDigit(s[i])
  {
    if n < 10 then [DigitChar(n)] else ShowNat(n / 10) + [DigitChar(n % 10)]
  }

  /** `str(n)`. */
  function Show(n: int): string {
    if n < 0 then "-" + ShowNat(-n) else ShowNat(n)
  }

  // ---------------------------------------------------------------------

  lemma {:induction false} ShowNatValue(n: nat)
    ensures DigitRun(ShowNat(n)) && DigitsValue(ShowNat(n)) == n
  {
    var s := ShowNat(n);
    if n >= 10 {
      ShowNatValue(n / 10);
      assert s[..|s| - 1] == ShowNat(n / 10);
    }
  }

  /** `int(str(n)) == n`: the decimal text of every integer parses back to it. */
  lemma ParseShow(n: int)
    ensures ParseInt(Show(n)) == Some(n)
  {
    ShowUnpadded(n);
    ParseLiteralShow(n);
  }

  lemma ShowUnpadded(n: int)
    ensures Strip(Show(n)) == Show(n)
  {
    var s := Show(n);
    var m: nat := if n < 0 then -n else n;
    assert s[|s| - 1] == ShowNat(m)[|ShowNat(m)| - 1];
    StripUnpadded(s);
  }

  lemma ParseLiteralShow(n: int)
    ensures ParseLiteral(Show(n)) == Some(n)
  {
    var s := Show(n);
    var m: nat := if n < 0 then -n else n;
    ShowNatValue(m);
    if n < 0 {
      assert s[1..] == ShowNat(m);
    }
  }

  /** `int` ignores the whitespace around a literal. */
  lemma ParsePadded(pre: string, s: string, post: string)
    requires AllSpaces(pre) && AllSpaces(post)
    ensures ParseInt(pre + s + post) == ParseInt(s)
  {
    StripPadded(pre, s, post);
  }
}
