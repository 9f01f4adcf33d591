/**
 * The helpers of `src/utils.ts`: the character classes the scanner uses, the
 * error report format, and `error`, which reports and then ends the process.
 * Ending the process is modelled as a `Failure` value that the scanner and
 * the parser return in place of their result.
 */
module Utils {

  import opened Results

  /** How a run of the program ends early. */
  datatype Failure =
    | ExitProcess(status: int, stderr: string)  // `error`: report on stderr, then exit
    | Uncaught(message: string)                 // a JavaScript `throw` nobody catches

  /**
   * `isDigit`: an ASCII decimal digit. The source tests whether `parseInt`
   * of the single character is a number; `IsDigitParses` shows that this is
   * the same class of characters.
   */
  predicate IsDigit(c: char) {
    '0' <= c <= '9'
  }

  /** The value of a digit character (meaningful only for digits). */
  function DigitValue(c: char): int {
    c as int - '0' as int
  }

  function DigitChar(d: nat): (c: char)
    requires d < 10
    ensures IsDigit(c) && DigitValue(c) == d
  {
    ('0' as int + d) as char
  }

  /** End of the maximal run of digits of `s` starting at `i`. */
  function DigitsEnd(s: string, i: nat): (j: nat)
    requires i <= |s|
    ensures i <= j <= |s|
    decreases |s| - i
  {
    if i < |s| && IsDigit(s[i]) then DigitsEnd(s, i + 1) else i
  }

  lemma {:induction false} DigitsEndMaximal(s: string, i: nat)
    requires i <= |s|
    ensures forall k | i <= k < DigitsEnd(s, i) :: IsDigit(s[k])
    ensures DigitsEnd(s, i) == |s| || !IsDigit(s[DigitsEnd(s, i)])
    decreases |s| - i
  {
    if i < |s| && IsDigit(s[i]) {
      DigitsEndMaximal(s, i + 1);
    }
  }

  /** Conversely, a maximal run of digits from `i` to `j` ends where `DigitsEnd` says. */
  lemma {:induction false} DigitsEndIs(s: string, i: nat, j: nat)
    requires i <= j <= |s|
    requires forall k | i <= k < j :: IsDigit(s[k])
    requires j == |s| || !IsDigit(s[j])
    ensures DigitsEnd(s, i) == j
    decreases j - i
  {
    if i < j {
      DigitsEndIs(s, i + 1, j);
    }
  }

  /** The number the first `k` characters of `s` denote, read as decimal digits. */
  function PrefixValue(s: string, k: nat): int
    requires k <= |s|
  {
    if k == 0 then 0 else 10 * PrefixValue(s, k - 1) + DigitValue(s[k - 1])
  }

  /** The number a string of decimal digits denotes. */
  function DigitsValue(s: string): int {
    PrefixValue(s, |s|)
  }

  /**
   * `parseInt(s, 10)` for a string that does not start with white space or a
   * sign (every string the scanner passes it): the value of the longest digit
   * prefix, or `None` (NaN) when there is none.
   */
  function ParseInt(s: string): (r: Option<int>)
    ensures r.Some? <==> |s| > 0 && IsDigit(s[0])
  {
    var k := DigitsEnd(s, 0);
    if k == 0 then None else Some(PrefixValue(s, k))
  }

  lemma IsDigitParses(c: char)
    ensures IsDigit(c) <==> ParseInt([c]).Some?
    ensures IsDigit(c) ==> ParseInt([c]) == Some(DigitValue(c))
  {
    if IsDigit(c) {
      DigitsEndIs([c], 0, 1);
      assert PrefixValue([c], 1) == 10 * PrefixValue([c], 0) + DigitValue(c);
    }
  }

  /** `isAlpha`: an ASCII letter or the underscore. */
  predicate IsAlpha(c: char) {
    ('a' <= c <= 'z') || ('A' <= c <= 'Z') || c == '_'
  }

  predicate IsAlphaNumeric(c: char) {
    IsAlpha(c) || IsDigit(c)
  }

  /** Decimal rendering of a natural number, as a template literal prints it. */
  function NatToString(n: nat): (s: string)
    ensures |s| > 0
    ensures forall i | 0 <= i < |s| :: IsDigit(s[i])
  {
    if n < 10 then [DigitChar(n)] else NatToString(n / 10) + [DigitChar(n % 10)]
  }

  function IntToString(i: int): string {
    if i < 0 then "-" + NatToString(-i) else NatToString(i)
  }

  /** `report`: the line written to stderr. */
  function Report(line: nat, where: string, message: string): string {
    "[line " + NatToString(line) + "] Error" + where + " : " + message
  }

  /** `error`: never returns; the process exits with status 65 after the report. */
  function Error(line: nat, message: string): (f: Failure)
    ensures f.ExitProcess? && f.status == 65
  {
    ExitProcess(65, Report(line, "", message))
  }

  /** Only the first `k` characters matter to the value of the first `k`. */
  lemma {:induction false} PrefixValueAgree(s: string, t: string, k: nat)
    requires k <= |s| && k <= |t|
    requires forall i | 0 <= i < k :: s[i] == t[i]
    ensures PrefixValue(s, k) == PrefixValue(t, k)
  {
    if k > 0 {
      PrefixValueAgree(s, t, k - 1);
    }
  }

  /** Reading back the decimal rendering gives the number again. */
  lemma {:induction false} NatToStringRoundTrip(n: nat)
    ensures DigitsValue(NatToString(n)) == n
    ensures ParseInt(NatToString(n)) == Some(n)
  {
    var s := NatToString(n);
    if n >= 10 {
      var high := NatToString(n / 10);
      NatToStringRoundTrip(n / 10);
      PrefixValueAgree(s, high, |high|);
      assert PrefixValue(s, |s|) == 10 * PrefixValue(s, |high|) + n % 10;
    } else {
      assert PrefixValue(s, 1) == 10 * PrefixValue(s, 0) + n;
    }
    DigitsEndIs(s, 0, |s|);
  }

  /** `parseInt` stops at the first non-digit: what follows it does not matter. */
  lemma ParseIntStopsAtNonDigit(digits: string, rest: string)
    requires |digits| > 0 && forall i | 0 <= i < |digits| :: IsDigit(digits[i])
    requires |rest| == 0 || !IsDigit(rest[0])
    ensures ParseInt(digits + rest) == Some(DigitsValue(digits))
  {
    DigitsEndIs(digits + rest, 0, |digits|);
    PrefixValueAgree(digits + rest, digits, |digits|);
  }
}
