/**
 * The pieces of C `sscanf` that the debug-dump parser relies on, as functions
 * over a string and a position.  Each returns the position after what it
 * consumed, or None when the directive fails (a matching or input failure).
 *
 *  - a white-space directive in a format skips any amount of white space;
 *  - an ordinary character must match the next input character exactly;
 *  - `%s` skips white space, then takes a non-empty run of non-space characters;
 *  - `%[^c]` takes a non-empty run of characters other than `c`, skipping nothing;
 *  - `%d` skips white space, takes an optional sign and a non-empty run of digits.
 *
 * The functions promise only the bounds their callers need; what they accept
 * is stated by the lemmas at the end of the module.
 */
module Scanf {
  import opened Wrappers

  /** The characters C's `isspace` accepts in the "C" locale. */
  predicate IsSpace(c: char) {
    c == ' ' || c == '\t' || c == '\n' || c == '\r' || c == '\U{000B}' || c == '\U{000C}'
  }

  predicate IsDigit(c: char) {
    '0' <= c <= '9'
  }

  predicate AllDigits(ds: string) {
    forall k | 0 <= k < |ds| :: IsDigit(ds[k])
  }

  /** Skips white space from position i. */
  function SkipSpace(s: string, i: nat): (j: nat)
    requires i <= |s|
    ensures i <= j <= |s|
    decreases |s| - i
  {
    if i == |s| || !IsSpace(s[i]) then i else SkipSpace(s, i + 1)
  }

  /** End of the run of non-space characters from i. */
  function WordEnd(s: string, i: nat): (j: nat)
    requires i <= |s|
    ensures i <= j <= |s|
    decreases |s| - i
  {
    if i == |s| || IsSpace(s[i]) then i else WordEnd(s, i + 1)
  }

  /** End of the run of characters from i that differ from `stop`. */
  function ExcludingEnd(s: string, i: nat, stop: char): (j: nat)
    requires i <= |s|
    ensures i <= j <= |s|
    decreases |s| - i
  {
    if i == |s| || s[i] == stop then i else ExcludingEnd(s, i + 1, stop)
  }

  /** End of the run of decimal digits from i. */
  function DigitsEnd(s: string, i: nat): (j: nat)
    requires i <= |s|
    ensures i <= j <= |s|
    decreases |s| - i
  {
    if i == |s| || !IsDigit(s[i]) then i else DigitsEnd(s, i + 1)
  }

  /** The value of a string of decimal digits, most significant first. */
  function DecimalValue(ds: string): int
  {
    if ds == [] then 0
    else 10 * DecimalValue(ds[..|ds| - 1]) + (ds[|ds| - 1] as int - '0' as int)
  }

  /** An ordinary format character: it must be the next input character. */
  function Literal(s: string, i: nat, c: char): (r: Option<nat>)
    requires i <= |s|
    ensures r.Some? <==> i < |s| && s[i] == c
    ensures r.Some? ==> r.value == i + 1
  {
    if i < |s| && s[i] == c then Some(i + 1) else None
  }

  /**
   * A run of ordinary format characters: each must be the next input
   * character in turn, so the run matches exactly where the input holds it.
   */
  function Literals(s: string, i: nat, lit: string): (r: Option<nat>)
    requires i <= |s|
    ensures r.Some? ==> r.value == i + |lit| <= |s|
  {
    if i + |lit| <= |s| && s[i..i + |lit|] == lit then Some(i + |lit|) else None
  }

  /** `%s`: the token read and the position after it. */
  function Word(s: string, i: nat): (r: Option<(string, nat)>)
    requires i <= |s|
    ensures r.Some? ==> r.value.1 <= |s|
  {
    var j := SkipSpace(s, i);
    if j == |s| then None else Some((s[j..WordEnd(s, j)], WordEnd(s, j)))
  }

  /** `%[^stop]`: the token read and the position after it. */
  function Excluding(s: string, i: nat, stop: char): (r: Option<(string, nat)>)
    requires i <= |s|
    ensures r.Some? ==> r.value.1 <= |s|
  {
    var j := ExcludingEnd(s, i, stop);
    if j == i then None else Some((s[i..j], j))
  }

  /** `%d`: the integer read and the position after it. */
  function Decimal(s: string, i: nat): (r: Option<(int, nat)>)
    requires i <= |s|
    ensures r.Some? ==> r.value.1 <= |s|
  {
    var j := SkipSpace(s, i);
    var negative := j < |s| && s[j] == '-';
    var d := if j < |s| && (s[j] == '-' || s[j] == '+') then j + 1 else j;
    var e := DigitsEnd(s, d);
    if e == d then None
    else if negative then Some((-DecimalValue(s[d..e]), e))
    else Some((DecimalValue(s[d..e]), e))
  }

  // ---------------------------------------------------------------- what the directives accept

  /** White space is skipped up to the first non-space character. */
  lemma {:induction false} SkipSpaceRun(s: string, i: nat, n: nat)
    requires i + n <= |s|
    requires forall k | i <= k < i + n :: IsSpace(s[k])
    requires i + n == |s| || !IsSpace(s[i + n])
    ensures SkipSpace(s, i) == i + n
    decreases n
  {
    if n > 0 {
      SkipSpaceRun(s, i + 1, n - 1);
    }
  }

  /** A `%s` token runs up to the next white space. */
  lemma {:induction false} WordEndRun(s: string, i: nat, n: nat)
    requires i + n <= |s|
    requires forall k | i <= k < i + n :: !IsSpace(s[k])
    requires i + n == |s| || IsSpace(s[i + n])
    ensures WordEnd(s, i) == i + n
    decreases n
  {
    if n > 0 {
      WordEndRun(s, i + 1, n - 1);
    }
  }

  /** A scan set `%[^stop]` runs up to the next `stop`. */
  lemma {:induction false} ExcludingEndRun(s: string, i: nat, n: nat, stop: char)
    requires i + n <= |s|
    requires forall k | i <= k < i + n :: s[k] != stop
    requires i + n == |s| || s[i + n] == stop
    ensures ExcludingEnd(s, i, stop) == i + n
    decreases n
  {
    if n > 0 {
      ExcludingEndRun(s, i + 1, n - 1, stop);
    }
  }

  /** ExcludingEnd stops at the first `stop`, or at the end of the text. */
  lemma {:induction false} ExcludingEndStops(s: string, i: nat, stop: char)
    requires i <= |s|
    ensures forall k | i <= k < ExcludingEnd(s, i, stop) :: s[k] != stop
    ensures ExcludingEnd(s, i, stop) == |s| || s[ExcludingEnd(s, i, stop)] == stop
    decreases |s| - i
  {
    if i < |s| && s[i] != stop {
      ExcludingEndStops(s, i + 1, stop);
    }
  }

  /** A digit run ends at the first non-digit. */
  lemma {:induction false} DigitsEndRun(s: string, i: nat, n: nat)
    requires i + n <= |s|
    requires forall k | i <= k < i + n :: IsDigit(s[k])
    requires i + n == |s| || !IsDigit(s[i + n])
    ensures DigitsEnd(s, i) == i + n
    decreases n
  {
    if n > 0 {
      DigitsEndRun(s, i + 1, n - 1);
    }
  }

  /** `%[^stop]` on a non-empty run free of `stop` that ends at `stop` or at the end. */
  lemma ExcludingToken(s: string, i: nat, tok: string, stop: char)
    requires i + |tok| <= |s| && s[i..i + |tok|] == tok && tok != [] && stop !in tok
    requires i + |tok| == |s| || s[i + |tok|] == stop
    ensures Excluding(s, i, stop) == Some((tok, i + |tok|))
  {
    forall k | i <= k < i + |tok| ensures s[k] != stop {
      assert s[k] == tok[k - i];
    }
    ExcludingEndRun(s, i, |tok|, stop);
  }

  /** `%d` on an unsigned digit run followed by a non-digit reads the run's value. */
  lemma DecimalOfDigits(s: string, i: nat, ds: string)
    requires i + |ds| <= |s| && s[i..i + |ds|] == ds && ds != [] && AllDigits(ds)
    requires i + |ds| == |s| || !IsDigit(s[i + |ds|])
    ensures Decimal(s, i) == Some((DecimalValue(ds), i + |ds|))
  {
    assert s[i] == ds[0] && IsDigit(s[i]);
    SkipSpaceRun(s, i, 0);
    forall k | i <= k < i + |ds| ensures IsDigit(s[k]) {
      assert s[k] == ds[k - i];
    }
    DigitsEndRun(s, i, |ds|);
    DecimalUnsigned(s, i, i + |ds|);
  }

  /** `%d` at a digit reads the digits up to the end of their run, unsigned. */
  lemma DecimalUnsigned(s: string, i: nat, e: nat)
    requires i < |s| && IsDigit(s[i]) && SkipSpace(s, i) == i && DigitsEnd(s, i) == e
    ensures Decimal(s, i) == Some((DecimalValue(s[i..e]), e))
  {
  }

  /** `%d` fails on a character that is neither white space, a sign nor a digit. */
  lemma DecimalRejects(s: string, i: nat)
    requires i < |s| && !IsSpace(s[i]) && !IsDigit(s[i]) && s[i] != '-' && s[i] != '+'
    ensures Decimal(s, i).None?
  {
    SkipSpaceRun(s, i, 0);
  }

  predicate NoSpace(tok: string) {
    forall k | 0 <= k < |tok| :: !IsSpace(tok[k])
  }

  /** `%s` after one white-space character reads the token that follows it, up to white space or the end. */
  lemma WordAfterSpace(s: string, i: nat, tok: string)
    requires i + 1 + |tok| <= |s| && IsSpace(s[i])
    requires s[i + 1..i + 1 + |tok|] == tok && tok != [] && NoSpace(tok)
    requires i + 1 + |tok| == |s| || IsSpace(s[i + 1 + |tok|])
    ensures Word(s, i) == Some((tok, i + 1 + |tok|))
  {
    assert s[i + 1] == tok[0];
    SkipSpaceRun(s, i, 1);
    forall k | i + 1 <= k < i + 1 + |tok| ensures !IsSpace(s[k]) {
      assert s[k] == tok[k - i - 1];
    }
    WordEndRun(s, i + 1, |tok|);
  }
}
