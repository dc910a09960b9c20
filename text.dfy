/**
 Text helpers the session code relies on: substring search (Swift's
 `String.contains` on a string argument), decimal rendering of integers
 (string interpolation of an `Int` or a `UInt16`) and CRLF-terminated lines.
 Each rendering function is paired with its inverse and a round-trip lemma.
 */
module Text {
  import opened Wrappers

  // ---------------------------------------------------------------------------
  // Substrings

  /** True when `t` occurs in `s` as a contiguous block of characters. */
  predicate Contains(s: string, t: string)
    decreases |s|
  {
    if |t| > |s| then false
    else if s[..|t|] == t then true
    else Contains(s[1..], t)
  }

  /** `t` occurs in `s` starting at index `i`. */
  ghost predicate OccursAt(s: string, t: string, i: int)
  {
    0 <= i && i + |t| <= |s| && s[i..i + |t|] == t
  }

  /** `Contains` is exactly "occurs at some index". */
  lemma {:induction false} ContainsIffOccurs(s: string, t: string)
    ensures Contains(s, t) <==> exists i :: OccursAt(s, t, i)
    decreases |s|
  {
    if |t| > |s| {
      forall i | OccursAt(s, t, i) ensures false { }
    } else if s[..|t|] == t {
      assert OccursAt(s, t, 0);
    } else {
      ContainsIffOccurs(s[1..], t);
      if Contains(s[1..], t) {
        var i :| OccursAt(s[1..], t, i);
        assert s[1..][i..i + |t|] == s[i + 1..i + 1 + |t|];
        assert OccursAt(s, t, i + 1);
      } else {
        forall i | OccursAt(s, t, i) ensures false {
          if i > 0 {
            assert s[1..][i - 1..i - 1 + |t|] == s[i..i + |t|];
            assert OccursAt(s[1..], t, i - 1);
          }
        }
      }
    }
  }

  // ---------------------------------------------------------------------------
  // Decimal numerals

  predicate IsDigit(ch: char)
  {
    '0' <= ch <= '9'
  }

  predicate AllDigits(s: string)
  {
    forall i :: 0 <= i < |s| ==> IsDigit(s[i])
  }

  function DigitChar(d: nat): (ch: char)
    requires d < 10
    ensures IsDigit(ch) && ch as int - '0' as int == d
  {
    ('0' as int + d) as char
  }

  /** The decimal numeral of `n`, without leading zeros. */
  function NatToDecimal(n: nat): (s: string)
    ensures |s| >= 1 && AllDigits(s)
    ensures |s| > 1 ==> s[0] != '0'
    decreases n
  {
    if n < 10 then [DigitChar(n)] else NatToDecimal(n / 10) + [DigitChar(n % 10)]
  }

  /** The value of a string of decimal digits (the inverse of NatToDecimal). */
  function DecimalValue(s: string): nat
    requires AllDigits(s)
    decreases |s|
  {
    if s == [] then 0
    else DecimalValue(s[..|s| - 1]) * 10 + (s[|s| - 1] as int - '0' as int)
  }

  lemma {:induction false} DecimalRoundTrip(n: nat)
    ensures DecimalValue(NatToDecimal(n)) == n
    decreases n
  {
    if n >= 10 {
      var s := NatToDecimal(n);
      assert s[..|s| - 1] == NatToDecimal(n / 10);
      DecimalRoundTrip(n / 10);
    }
  }

  /** Swift's rendering of an `Int` in string interpolation. */
  function IntToDecimal(i: int): (s: string)
  {
    if i < 0 then "-" + NatToDecimal(-i) else NatToDecimal(i)
  }

  /** Reads back an optionally negative decimal numeral. */
  function ParseInt(s: string): Option<int>
  {
    if |s| >= 2 && s[0] == '-' && AllDigits(s[1..]) then Some(0 - DecimalValue(s[1..]) as int)
    else if |s| >= 1 && AllDigits(s) then Some(DecimalValue(s))
    else None
  }

  lemma IntRoundTrip(i: int)
    ensures ParseInt(IntToDecimal(i)) == Some(i)
  {
    var magnitude: nat := if i < 0 then -i else i;
    var d := NatToDecimal(magnitude);
    DecimalRoundTrip(magnitude);
    if i < 0 {
      var s := "-" + d;
      assert IntToDecimal(i) == s;
      assert s[1..] == d;
      assert ParseInt(s) == Some(0 - DecimalValue(d) as int);
    } else {
      assert IntToDecimal(i) == d;
      assert IsDigit(d[0]);
      assert ParseInt(d) == Some(DecimalValue(d));
    }
  }

  lemma IntToDecimalHasNoCarriageReturn(i: int)
    ensures '\r' !in IntToDecimal(i)
  {
    var d := NatToDecimal(if i < 0 then -i else i);
    assert forall k :: 0 <= k < |d| ==> d[k] != '\r';
  }

  /** Swift's `Int(x)` for a finite `Double`: truncation toward zero. */
  function TruncateToInt(x: real): (i: int)
    ensures x >= 0.0 ==> i as real <= x < i as real + 1.0
    ensures x < 0.0 ==> i as real - 1.0 < x <= i as real
  {
    if x >= 0.0 then x.Floor else -((-x).Floor)
  }

  // ---------------------------------------------------------------------------
  // CRLF-terminated lines

  const CRLF: string := "\r\n"

  /** Every line followed by CRLF. */
  function Terminated(lines: seq<string>): string
    decreases |lines|
  {
    if lines == [] then "" else lines[0] + CRLF + Terminated(lines[1..])
  }

  predicate CrlfAt(s: string, j: int)
  {
    0 <= j && j + 1 < |s| && s[j] == '\r' && s[j + 1] == '\n'
  }

  /** The index of the first CRLF in `s`, or `|s|` when there is none. */
  function LineEnd(s: string): (k: nat)
    ensures k <= |s|
    ensures k < |s| ==> CrlfAt(s, k)
    ensures forall j :: 0 <= j < k ==> !CrlfAt(s, j)
    decreases |s|
  {
    if |s| < 2 then |s|
    else if s[0] == '\r' && s[1] == '\n' then 0
    else
      var k := LineEnd(s[1..]);
      assert forall j :: 1 <= j < k + 1 ==> (CrlfAt(s, j) <==> CrlfAt(s[1..], j - 1));
      if k == |s| - 1 then |s| else k + 1
  }

  /** Splits CRLF-terminated text into its lines; None when text is left unterminated. */
  function SplitLines(s: string): Option<seq<string>>
    decreases |s|
  {
    if s == [] then Some([])
    else
      var k := LineEnd(s);
      if k == |s| then None
      else match SplitLines(s[k + 2..])
        case None => None
        case Some(rest) => Some([s[..k]] + rest)
  }

  lemma LineEndAfterLine(line: string, rest: string)
    requires '\r' !in line
    ensures LineEnd(line + CRLF + rest) == |line|
  {
    var s := line + CRLF + rest;
    var k := LineEnd(s);
    assert CrlfAt(s, |line|);
  }

  /** SplitLines undoes Terminated when no line holds a carriage return. */
  lemma {:induction false} SplitTerminated(lines: seq<string>)
    requires forall i :: 0 <= i < |lines| ==> '\r' !in lines[i]
    ensures SplitLines(Terminated(lines)) == Some(lines)
    decreases |lines|
  {
    if lines != [] {
      var s := Terminated(lines);
      var tail := Terminated(lines[1..]);
      assert s == lines[0] + CRLF + tail;
      LineEndAfterLine(lines[0], tail);
      assert s[|lines[0]| + 2..] == tail;
      assert s[..|lines[0]|] == lines[0];
      SplitTerminated(lines[1..]);
      assert [lines[0]] + lines[1..] == lines;
    }
  }
}
