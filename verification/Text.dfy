/** Lines and decimal numerals: what the splitter, the metric file and the
    truncation loop all read and write. */
module Text {
  const MAX_SAFE_INTEGER: nat := 9007199254740991  // 2^53 - 1

  /** Splits on LF only; there is always at least one piece. */
  function RawLines(s: string): (lines: seq<string>)
    ensures |lines| >= 1
    decreases |s|
  {
    if |s| == 0 then [""]
    else
      var rest := RawLines(s[1..]);
      if s[0] == '\n' then [""] + rest
      else [[s[0]] + rest[0]] + rest[1..]
  }

  function JoinLines(lines: seq<string>): string
    requires |lines| >= 1
  {
    if |lines| == 1 then lines[0] else lines[0] + "\n" + JoinLines(lines[1..])
  }

  ghost predicate LineFree(s: string) {
    forall i | 0 <= i < |s| :: s[i] != '\n'
  }

  ghost predicate AllLineFree(lines: seq<string>) {
    forall i | 0 <= i < |lines| :: LineFree(lines[i])
  }

  /** Cutting at the first LF is one step of the split. */
  lemma {:induction false} RawLinesCut(a: string, b: string)
    requires LineFree(a)
    ensures RawLines(a + "\n" + b) == [a] + RawLines(b)
  {
    var s := a + "\n" + b;
    if |a| == 0 {
      assert s[1..] == b;
    } else {
      assert s[1..] == a[1..] + "\n" + b;
      RawLinesCut(a[1..], b);
      assert [s[0]] + a[1..] == a;
    }
  }

  lemma {:induction false} RawLinesWhole(a: string)
    requires LineFree(a)
    ensures RawLines(a) == [a]
  {
    if |a| > 0 {
      RawLinesWhole(a[1..]);
      assert [a[0]] + a[1..] == a;
    }
  }

  /** RawLines is the one list of LF-free pieces whose join is the text. */
  lemma {:induction false} RawLinesIsTheSplit(s: string)
    ensures JoinLines(RawLines(s)) == s && AllLineFree(RawLines(s))
  {
    if |s| > 0 {
      RawLinesIsTheSplit(s[1..]);
      var rest := RawLines(s[1..]);
      var lines := RawLines(s);
      if s[0] == '\n' {
        assert lines[1..] == rest;
        assert s == "" + "\n" + s[1..];
      } else {
        assert lines[1..] == rest[1..];
        assert s == [s[0]] + s[1..];
        if |rest| > 1 {
          assert [s[0]] + (rest[0] + "\n" + JoinLines(rest[1..])) == ([s[0]] + rest[0]) + "\n" + JoinLines(rest[1..]);
        }
      }
    }
  }

  lemma {:induction false} RawLinesUnique(lines: seq<string>)
    requires |lines| >= 1 && AllLineFree(lines)
    ensures RawLines(JoinLines(lines)) == lines
  {
    if |lines| == 1 {
      RawLinesWhole(lines[0]);
      assert lines == [lines[0]];
    } else {
      RawLinesUnique(lines[1..]);
      RawLinesCut(lines[0], JoinLines(lines[1..]));
    }
  }

  // Decimal numerals

  predicate IsDigit(c: char) {
    '0' <= c <= '9'
  }

  predicate AllDigits(s: string) {
    |s| > 0 && forall i | 0 <= i < |s| :: IsDigit(s[i])
  }

  function DigitChar(d: nat): char
    requires d < 10
  {
    '0' + d as char
  }

  /** The shortest decimal numeral of n, as JavaScript prints it. */
  function Decimal(n: nat): (s: string)
    ensures AllDigits(s)
  {
    if n < 10 then [DigitChar(n)] else Decimal(n / 10) + [DigitChar(n % 10)]
  }

  function NumberOf(s: string): nat
    requires AllDigits(s)
  {
    var last := s[|s| - 1] as int - '0' as int;
    if |s| == 1 then last
    else 10 * NumberOf(s[..|s| - 1]) + last
  }

  lemma {:induction false} DecimalRoundTrip(n: nat)
    ensures NumberOf(Decimal(n)) == n
  {
    if n >= 10 {
      DecimalRoundTrip(n / 10);
      var s := Decimal(n);
      assert s[..|s| - 1] == Decimal(n / 10);
    }
  }

  function Pow10(k: nat): nat {
    if k == 0 then 1 else 10 * Pow10(k - 1)
  }

  /** A numeral has as many digits as the powers of ten say. */
  lemma {:induction false} DecimalLength(n: nat)
    ensures n < Pow10(|Decimal(n)|)
    ensures |Decimal(n)| > 1 ==> Pow10(|Decimal(n)| - 1) <= n
  {
    if n >= 10 {
      DecimalLength(n / 10);
    }
  }

  lemma {:induction false} DecimalLengthMonotone(m: nat, n: nat)
    requires m <= n
    ensures |Decimal(m)| <= |Decimal(n)|
  {
    if n >= 10 && m >= 10 {
      DecimalLengthMonotone(m / 10, n / 10);
    }
  }
}
