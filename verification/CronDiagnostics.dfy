/** Bounded diagnostic text: the truncation that states its own size, line endings kept
    apart, and the scanner that redacts secrets in escaped JSON. */
module CronDiagnostics {
  import opened Common
  import opened Text

  // Truncation

  const METADATA_LIMIT := 256

  function Suffix(omitted: nat): string {
    " [truncated " + Decimal(omitted) + " chars]"
  }

  function Retained(omitted: nat): nat {
    if |Suffix(omitted)| <= METADATA_LIMIT then METADATA_LIMIT - |Suffix(omitted)| else 0
  }

  /** A longer count never leaves more room. */
  lemma RetainedShrinks(a: nat, b: nat)
    requires a <= b
    ensures Retained(b) <= Retained(a)
    ensures |Decimal(a)| == |Decimal(b)| ==> Retained(a) == Retained(b)
  {
    DecimalLengthMonotone(a, b);
  }

  /** Too long a text is cut so that the text and its note fill the limit; the note gives
      the number of characters left out, its own room among them.  The loop ends because
      each round gives that number more digits. */
  method BoundedMetadata(characters: seq<char>) returns (r: seq<char>, omitted: nat)
    ensures |characters| <= METADATA_LIMIT ==> r == characters && omitted == 0
    ensures |characters| > METADATA_LIMIT ==>
      0 < omitted <= |characters| && r == characters[..|characters| - omitted] + Suffix(omitted)
    ensures METADATA_LIMIT < |characters| <= MAX_SAFE_INTEGER ==> |r| == METADATA_LIMIT
    ensures |r| <= METADATA_LIMIT || omitted == |characters|
  {
    var n := |characters|;
    if n <= METADATA_LIMIT {
      return characters, 0;
    }
    omitted := n - METADATA_LIMIT;
    var retained := Retained(omitted);
    while n - retained != omitted
      invariant retained == Retained(omitted) && 0 < omitted <= n - retained
      decreases |Decimal(n)| - |Decimal(omitted)|, if n - retained != omitted then 1 else 0
    {
      var next := n - retained;
      RetainedShrinks(omitted, next);
      DecimalLengthMonotone(omitted, next);
      DecimalLengthMonotone(next, n);
      omitted := next;
      retained := Retained(omitted);
    }
    r := characters[..retained] + Suffix(omitted);
    if n <= MAX_SAFE_INTEGER {
      TruncatedToTheLimit(n, omitted);
    }
  }

  /** Within JavaScript's safe lengths the result is exactly as long as the limit. */
  lemma TruncatedToTheLimit(n: nat, omitted: nat)
    requires n <= MAX_SAFE_INTEGER && 0 < omitted <= n && n - omitted == Retained(omitted)
    ensures n - omitted + |Suffix(omitted)| == METADATA_LIMIT
  {
    SafeIntegersHaveSixteenDigits();
    FewDigits(omitted, 16);
    assert |" [truncated "| + |" chars]"| == 19;
  }

  lemma {:induction false} FewDigits(n: nat, k: nat)
    requires 0 < k && n < Pow10(k)
    ensures |Decimal(n)| <= k
  {
    if n >= 10 {
      FewDigits(n / 10, k - 1);
    }
  }

  lemma SafeIntegersHaveSixteenDigits()
    ensures MAX_SAFE_INTEGER < Pow10(16)
  {
    assert Pow10(4) == 10_000;
    assert Pow10(8) == 100_000_000;
    assert Pow10(12) == 1_000_000_000_000;
  }

  // Lines

  datatype PreservedLine = PreservedLine(content: string, ending: string)

  function Rejoined(lines: seq<PreservedLine>): string
    decreases |lines|
  {
    if |lines| == 0 then ""
    else Rejoined(lines[..|lines| - 1]) + (lines[|lines| - 1].content + lines[|lines| - 1].ending)
  }

  predicate IsBreak(c: char) {
    c == '\r' || c == '\n'
  }

  predicate BreakFree(s: string) {
    forall i | 0 <= i < |s| :: !IsBreak(s[i])
  }

  /** A whole line: no break within, and one whole break, which `rest` does not go on with. */
  predicate LineBefore(line: PreservedLine, rest: string) {
    && BreakFree(line.content)
    && (line.ending == "\n" || line.ending == "\r\n"
        || (line.ending == "\r" && !(|rest| > 0 && rest[0] == '\n'))
        || (line.ending == "" && rest == "" && line.content != ""))
  }

  /** Every line is whole before what follows it. */
  predicate WellSplit(lines: seq<PreservedLine>, rest: string)
    decreases |lines|
  {
    |lines| > 0 ==>
      var last := lines[|lines| - 1];
      LineBefore(last, rest) && WellSplit(lines[..|lines| - 1], last.content + last.ending + rest)
  }

  /** The line that begins at `start`. */
  method NextLine(value: string, start: nat) returns (end: nat, next: nat)
    requires start < |value|
    ensures start <= end <= next <= |value| && start < next
    ensures LineBefore(PreservedLine(value[start..end], value[end..next]), value[next..])
  {
    end := start;
    while end < |value| && !IsBreak(value[end])
      invariant start <= end <= |value| && forall i | start <= i < end :: !IsBreak(value[i])
    {
      end := end + 1;
    }
    next := end;
    if end + 1 < |value| && value[end] == '\r' && value[end + 1] == '\n' {
      next := end + 2;
      assert value[end..next] == "\r\n";
    } else if end < |value| {
      next := end + 1;
      assert value[end..next] == [value[end]];
    }
  }

  lemma OneMoreLine(value: string, lines: seq<PreservedLine>, start: nat, end: nat, next: nat)
    requires start <= end <= next <= |value|
    requires Rejoined(lines) == value[..start] && WellSplit(lines, value[start..])
    requires LineBefore(PreservedLine(value[start..end], value[end..next]), value[next..])
    ensures var more := lines + [PreservedLine(value[start..end], value[end..next])];
      Rejoined(more) == value[..next] && WellSplit(more, value[next..])
  {
    var line := PreservedLine(value[start..end], value[end..next]);
    assert (lines + [line])[..|lines|] == lines;
    assert line.content + line.ending + value[next..] == value[start..];
    assert value[..start] + (line.content + line.ending) == value[..next];
  }

  method SplitPreservingLineEndings(value: string) returns (lines: seq<PreservedLine>)
    ensures Rejoined(lines) == value && WellSplit(lines, "")
  {
    lines := [];
    var start := 0;
    while start < |value|
      invariant start <= |value| && Rejoined(lines) == value[..start] && WellSplit(lines, value[start..])
      decreases |value| - start
    {
      var end, next := NextLine(value, start);
      OneMoreLine(value, lines, start, end, next);
      lines := lines + [PreservedLine(value[start..end], value[end..next])];
      start := next;
    }
    assert value[..start] == value && value[start..] == "";
  }

  // Escaped JSON

  const MARK := "[REDACTED]"

  /** A quote escaped once, as JSON inside a JSON string has them. */
  predicate EscapedQuoteAt(value: string, i: nat) {
    i + 1 < |value| && value[i] == '\\' && value[i + 1] == '"' && !(i > 0 && value[i - 1] == '\\')
  }

  predicate IsKeyChar(c: char) {
    IsDigit(c) || 'A' <= c <= 'Z' || 'a' <= c <= 'z' || c == '_' || c == '-'
  }

  predicate IsBlank(c: char) {
    c == ' ' || c == '\t'
  }

  predicate BlankBetween(value: string, i: nat, j: nat) {
    i <= j <= |value| && forall k | i <= k < j :: IsBlank(value[k])
  }

  /** Escaped quotes around a key that begins after the quote at `i` and ends before that at `c`. */
  predicate KeyBetween(value: string, i: nat, c: nat) {
    && i + 2 <= c && EscapedQuoteAt(value, i) && EscapedQuoteAt(value, c)
    && forall k | i + 2 <= k < c :: IsKeyChar(value[k])
  }

  /** Reading from `from` on, the quote at `i` opens something: it does not close a key. */
  ghost predicate Opens(value: string, from: nat, i: nat) {
    from <= i && EscapedQuoteAt(value, i) && forall j | from <= j < i :: KeyBetween(value, j, i) ==> !Opens(value, from, j)
  }

  /** The quote at `i` opens a sensitive key, and a colon and the quoted value at `s` follow. */
  predicate SecretAfter(value: string, sensitive: string -> bool, i: nat, keyEnd: nat, colon: nat, s: nat) {
    && KeyBetween(value, i, keyEnd) && i + 2 < keyEnd && sensitive(value[i + 2..keyEnd])
    && keyEnd + 2 <= colon < s <= |value|
    && BlankBetween(value, keyEnd + 2, colon) && value[colon] == ':'
    && BlankBetween(value, colon + 1, s) && EscapedQuoteAt(value, s)
  }

  ghost predicate SecretKeyAt(value: string, sensitive: string -> bool, i: nat, s: nat) {
    exists keyEnd: nat, colon: nat :: SecretAfter(value, sensitive, i, keyEnd, colon, s)
  }

  ghost predicate NoSecretAt(value: string, sensitive: string -> bool, i: nat) {
    forall s: nat :: !SecretKeyAt(value, sensitive, i, s)
  }

  /** Nothing that opens in this stretch opens a secret. */
  ghost predicate NoSecretIn(value: string, sensitive: string -> bool, from: nat, to: nat) {
    forall i | from <= i < to :: Opens(value, from, i) ==> NoSecretAt(value, sensitive, i)
  }

  /** An escaped quote ends at `e`, with nothing but blanks before a delimiter or the end. */
  predicate ValueEnds(value: string, e: nat) {
    2 <= e <= |value| && EscapedQuoteAt(value, e - 2) && exists j | e <= j <= |value| :: DelimiterAfter(value, e, j)
  }

  predicate DelimiterAfter(value: string, e: nat, j: nat) {
    BlankBetween(value, e, j) && (j == |value| || value[j] in {',', '}', ']'})
  }

  datatype Range = Range(start: nat, end: nat)

  /** What was redacted is the value of the first secret after `from`, up to the first end
      of that value, or to the end of the text if it has none. */
  ghost predicate IsFirstSecret(value: string, sensitive: string -> bool, from: nat, r: Range) {
    && r.start + 2 <= r.end <= |value|
    && (exists i | from <= i < r.start :: OpensSecret(value, sensitive, from, i, r.start))
    && ((r.start + 4 <= r.end && ValueEnds(value, r.end)) || r.end == |value|)
    && forall e | r.start + 4 <= e < r.end :: !ValueEnds(value, e)
  }

  ghost predicate OpensSecret(value: string, sensitive: string -> bool, from: nat, i: nat, s: nat) {
    Opens(value, from, i) && SecretKeyAt(value, sensitive, i, s) && NoSecretIn(value, sensitive, from, i)
  }

  function EndOf(ranges: seq<Range>): nat {
    if |ranges| == 0 then 0 else ranges[|ranges| - 1].end
  }

  /** Secrets one after the other, each the first after the one before. */
  ghost predicate Secrets(value: string, sensitive: string -> bool, ranges: seq<Range>) {
    forall n: nat | n < |ranges| :: IsNext(value, sensitive, ranges, n)
  }

  ghost predicate IsNext(value: string, sensitive: string -> bool, ranges: seq<Range>, n: nat)
    requires n < |ranges|
  {
    IsFirstSecret(value, sensitive, if n == 0 then 0 else ranges[n - 1].end, ranges[n])
  }

  /** The text up to the last secret, with a mark in place of each. */
  ghost function Masked(value: string, ranges: seq<Range>): string
    decreases |ranges|
  {
    if |ranges| == 0 then ""
    else
      var before, r := ranges[..|ranges| - 1], ranges[|ranges| - 1];
      Masked(value, before) + (if EndOf(before) <= r.start <= |value| then value[EndOf(before)..r.start] else "") + MARK
  }

  method SkipBlanks(value: string, i: nat) returns (j: nat)
    requires i <= |value|
    ensures BlankBetween(value, i, j) && (j == |value| || !IsBlank(value[j]))
  {
    j := i;
    while j < |value| && IsBlank(value[j])
      invariant BlankBetween(value, i, j)
    {
      j := j + 1;
    }
  }

  method KeyEnd(value: string, start: nat) returns (end: nat)
    requires start <= |value|
    ensures start <= end <= |value| && forall k | start <= k < end :: IsKeyChar(value[k])
    ensures end == |value| || !IsKeyChar(value[end])
  {
    end := start;
    while end < |value| && IsKeyChar(value[end])
      invariant start <= end <= |value| && forall k | start <= k < end :: IsKeyChar(value[k])
    {
      end := end + 1;
    }
  }

  /** The first end of a value after its opening quote. */
  method FindValueEnd(value: string, start: nat) returns (end: Option<nat>)
    requires start <= |value|
    ensures end.Some? ==> start + 2 <= end.value && ValueEnds(value, end.value)
    ensures forall e | start + 2 <= e <= |value| && (end.Some? ==> e < end.value) :: !ValueEnds(value, e)
  {
    var index := start;
    while index + 1 < |value|
      invariant start <= index <= |value|
      invariant forall e | start + 2 <= e < index + 2 && e <= |value| :: !ValueEnds(value, e)
      decreases |value| - index
    {
      if !EscapedQuoteAt(value, index) {
        index := index + 1;
        continue;
      }
      var after := SkipBlanks(value, index + 2);
      if after == |value| || value[after] in {',', '}', ']'} {
        assert DelimiterAfter(value, index + 2, after);
        return Some(index + 2);
      }
      NoEndHere(value, index, after);
      index := after;
    }
    end := None;
  }

  lemma NoEndHere(value: string, index: nat, after: nat)
    requires EscapedQuoteAt(value, index) && BlankBetween(value, index + 2, after)
    requires after < |value| && !IsBlank(value[after]) && value[after] !in {',', '}', ']'}
    ensures forall e | index + 2 <= e < after + 2 && e <= |value| :: !ValueEnds(value, e)
  {
    NoDelimiterHere(value, index + 2, after);
    assert forall i | index < i < after :: !EscapedQuoteAt(value, i);
  }

  lemma NoDelimiterHere(value: string, e: nat, after: nat)
    requires BlankBetween(value, e, after) && after < |value| && !IsBlank(value[after]) && value[after] !in {',', '}', ']'}
    ensures forall j: nat | e <= j <= |value| :: !DelimiterAfter(value, e, j)
  {
  }

  /** Where the secret after a key begins, if one does, and where to look on: past the key,
      and with no opening quote skipped. */
  method FindSecret(value: string, sensitive: string -> bool, at: nat) returns (start: Option<nat>, next: nat)
    requires EscapedQuoteAt(value, at)
    ensures at < next
    ensures start.Some? ==> next == start.value && at < start.value && start.value + 2 <= |value| && SecretKeyAt(value, sensitive, at, start.value)
    ensures start.None? ==> NoSecretAt(value, sensitive, at)
    ensures forall c: nat | KeyBetween(value, at, c) :: c < next
    ensures forall i | at < i < next && EscapedQuoteAt(value, i) :: KeyBetween(value, at, i)
  {
    var keyStart := at + 2;
    var keyEnd := KeyEnd(value, keyStart);
    KeyEndsOnce(value, at, keyEnd);
    if keyEnd == keyStart || !EscapedQuoteAt(value, keyEnd) {
      return None, keyEnd + 1;
    }
    next := keyEnd + 2;
    if !sensitive(value[keyStart..keyEnd]) {
      return None, next;
    }
    var colon := SkipBlanks(value, next);
    next := colon;
    if colon >= |value| || value[colon] != ':' {
      return None, next;
    }
    next := SkipBlanks(value, colon + 1);
    ColonOnce(value, sensitive, at, keyEnd, colon, next);
    if !EscapedQuoteAt(value, next) {
      return None, next;
    }
    assert SecretAfter(value, sensitive, at, keyEnd, colon, next);
    start := Some(next);
  }

  /** A key ends where its characters do. */
  lemma KeyEndsOnce(value: string, at: nat, keyEnd: nat)
    requires EscapedQuoteAt(value, at) && at + 2 <= keyEnd <= |value|
    requires forall k | at + 2 <= k < keyEnd :: IsKeyChar(value[k])
    requires keyEnd == |value| || !IsKeyChar(value[keyEnd])
    ensures forall c: nat | KeyBetween(value, at, c) :: c == keyEnd
  {
    forall c: nat | KeyBetween(value, at, c)
      ensures c == keyEnd
    {
      assert !IsKeyChar(value[c]);
    }
  }

  /** Nor does a secret have another colon or another value. */
  lemma ColonOnce(value: string, sensitive: string -> bool, at: nat, keyEnd: nat, colon: nat, next: nat)
    requires forall c: nat | KeyBetween(value, at, c) :: c == keyEnd
    requires keyEnd + 2 <= colon < next <= |value| && BlankBetween(value, keyEnd + 2, colon) && value[colon] == ':'
    requires BlankBetween(value, colon + 1, next) && (next == |value| || !IsBlank(value[next]))
    ensures forall s: nat | SecretKeyAt(value, sensitive, at, s) :: s == next
  {
    forall s: nat, k: nat, c: nat | SecretAfter(value, sensitive, at, k, c, s)
      ensures s == next
    {
      assert k == keyEnd;
      assert c == colon;
    }
  }

  /** Puts a mark in place of every secret that opens as the text is read, and leaves
      everything else as it is. */
  method RedactEscapedJsonSecrets(value: string, sensitive: string -> bool)
    returns (text: string, redacted: bool)
    ensures exists ranges: seq<Range> :: Redaction(value, sensitive, ranges, text, redacted)
  {
    var output, copyFrom: nat, index: nat := "", 0, 0;
    ghost var ranges: seq<Range> := [];
    redacted := false;
    while index + 1 < |value|
      invariant Scanned(value, sensitive, ranges, copyFrom, output, redacted)
      invariant copyFrom <= index && Read(value, sensitive, copyFrom, index)
      decreases |value| - index
    {
      if !EscapedQuoteAt(value, index) {
        index := index + 1;
        continue;
      }
      var start, next := ReadQuote(value, sensitive, copyFrom, index);
      if start.None? {
        index := next;
        continue;
      }
      var end := EndOfSecret(value, sensitive, copyFrom, index, start.value);
      OneMoreSecret(value, sensitive, ranges, Range(start.value, end), output, redacted);
      output := output + value[copyFrom..start.value] + MARK;
      redacted := true;
      ranges := ranges + [Range(start.value, end)];
      copyFrom, index := end, end;
    }
    text := if redacted then output + value[copyFrom..] else value;
    assert Redaction(value, sensitive, ranges, text, redacted);
  }

  /** All the secrets there are, each with a mark in its place. */
  ghost predicate Redaction(value: string, sensitive: string -> bool, ranges: seq<Range>, text: string, redacted: bool) {
    && Secrets(value, sensitive, ranges) && (redacted <==> |ranges| > 0)
    && EndOf(ranges) <= |value| && NoSecretIn(value, sensitive, EndOf(ranges), |value|)
    && text == Masked(value, ranges) + value[EndOf(ranges)..]
  }

  /** What follows a key, and so a secret, is found in one way only. */
  lemma OneSecretAfter(value: string, sensitive: string -> bool, i: nat, s: nat, t: nat)
    requires SecretKeyAt(value, sensitive, i, s) && SecretKeyAt(value, sensitive, i, t)
    ensures s == t
  {
    var k: nat, c: nat :| SecretAfter(value, sensitive, i, k, c, s);
    assert !IsKeyChar(value[k]) && !IsBlank(value[c]) && !IsBlank(value[s]);
    KeyEndsOnce(value, i, k);
    ColonOnce(value, sensitive, i, k, c, s);
  }

  lemma OneFirstSecret(value: string, sensitive: string -> bool, from: nat, q: Range, r: Range)
    requires IsFirstSecret(value, sensitive, from, q) && IsFirstSecret(value, sensitive, from, r)
    ensures q == r
  {
    var i :| from <= i < q.start && OpensSecret(value, sensitive, from, i, q.start);
    var j :| from <= j < r.start && OpensSecret(value, sensitive, from, j, r.start);
    assert i == j;
    OneSecretAfter(value, sensitive, i, q.start, r.start);
  }

  /** Of two lists of secrets, each the first after the one before, one begins the other. */
  lemma {:induction false} SecretsAgree(value: string, sensitive: string -> bool, a: seq<Range>, b: seq<Range>, n: nat)
    requires Secrets(value, sensitive, a) && Secrets(value, sensitive, b) && n < |a| && n < |b|
    ensures a[n] == b[n]
  {
    if n > 0 {
      SecretsAgree(value, sensitive, a, b, n - 1);
    }
    assert IsNext(value, sensitive, a, n) && IsNext(value, sensitive, b, n);
    OneFirstSecret(value, sensitive, if n == 0 then 0 else a[n - 1].end, a[n], b[n]);
  }

  /** A text has one redaction: no secret is missed, and nothing else is masked. */
  lemma RedactionIsUnique(value: string, sensitive: string -> bool,
                          a: seq<Range>, text: string, redacted: bool, b: seq<Range>, other: string, again: bool)
    requires Redaction(value, sensitive, a, text, redacted) && Redaction(value, sensitive, b, other, again)
    ensures a == b && text == other && redacted == again
  {
    if |a| <= |b| {
      NoFurtherSecret(value, sensitive, a, b);
    } else {
      NoFurtherSecret(value, sensitive, b, a);
    }
  }

  lemma NoFurtherSecret(value: string, sensitive: string -> bool, a: seq<Range>, b: seq<Range>)
    requires Secrets(value, sensitive, a) && Secrets(value, sensitive, b) && |a| <= |b|
    requires NoSecretIn(value, sensitive, EndOf(a), |value|)
    ensures a == b
  {
    forall n | 0 <= n < |a|
      ensures a[n] == b[n]
    {
      SecretsAgree(value, sensitive, a, b, n);
    }
    if |a| < |b| {
      assert IsNext(value, sensitive, b, |a|);
      SecretAhead(value, sensitive, EndOf(a), b[|a|]);
    }
  }

  lemma SecretAhead(value: string, sensitive: string -> bool, from: nat, r: Range)
    requires IsFirstSecret(value, sensitive, from, r)
    ensures !NoSecretIn(value, sensitive, from, |value|)
  {
    var i :| from <= i < r.start && OpensSecret(value, sensitive, from, i, r.start);
  }

  /** One quote: the secret that it opens, or where to read on. */
  method ReadQuote(value: string, sensitive: string -> bool, ghost from: nat, at: nat) returns (start: Option<nat>, next: nat)
    requires from <= at && Read(value, sensitive, from, at) && EscapedQuoteAt(value, at)
    ensures at < next && (start.None? ==> Read(value, sensitive, from, next))
    ensures start.Some? ==>
      && at < start.value && start.value + 2 <= |value|
      && Opens(value, from, at) && SecretKeyAt(value, sensitive, at, start.value) && NoSecretIn(value, sensitive, from, at)
  {
    start, next := FindSecret(value, sensitive, at);
    OpenHere(value, sensitive, from, at);
    if start.None? {
      ReadOn(value, sensitive, from, at, next);
    }
  }

  ghost predicate Scanned(value: string, sensitive: string -> bool, ranges: seq<Range>, copyFrom: nat, output: string, redacted: bool) {
    && copyFrom == EndOf(ranges) <= |value| && Secrets(value, sensitive, ranges)
    && output == Masked(value, ranges) && (redacted <==> |ranges| > 0)
  }

  method EndOfSecret(value: string, sensitive: string -> bool, ghost from: nat, ghost at: nat, start: nat) returns (end: nat)
    requires from <= at < start && start + 2 <= |value|
    requires Opens(value, from, at) && SecretKeyAt(value, sensitive, at, start) && NoSecretIn(value, sensitive, from, at)
    ensures IsFirstSecret(value, sensitive, from, Range(start, end))
  {
    var found := FindValueEnd(value, start + 2);
    end := if found.Some? then found.value else |value|;
    assert OpensSecret(value, sensitive, from, at, start);
  }

  lemma OneMoreSecret(value: string, sensitive: string -> bool, ranges: seq<Range>, r: Range, output: string, redacted: bool)
    requires Scanned(value, sensitive, ranges, EndOf(ranges), output, redacted)
    requires IsFirstSecret(value, sensitive, EndOf(ranges), r)
    ensures Scanned(value, sensitive, ranges + [r], r.end, output + value[EndOf(ranges)..r.start] + MARK, true)
    ensures Read(value, sensitive, r.end, r.end)
  {
    assert (ranges + [r])[..|ranges|] == ranges;
    forall n: nat | n < |ranges + [r]|
      ensures IsNext(value, sensitive, ranges + [r], n)
    {
      assert n < |ranges| ==> IsNext(value, sensitive, ranges, n);
    }
  }

  /** Everything before `index` has been read: no secret opened there, and no key is open. */
  ghost predicate Read(value: string, sensitive: string -> bool, from: nat, index: nat) {
    && NoSecretIn(value, sensitive, from, index)
    && forall j: nat, c: nat | from <= j < index && KeyBetween(value, j, c) && Opens(value, from, j) :: c < index
  }

  lemma OpenHere(value: string, sensitive: string -> bool, from: nat, at: nat)
    requires from <= at && Read(value, sensitive, from, at) && EscapedQuoteAt(value, at)
    ensures Opens(value, from, at)
  {
  }

  lemma ReadOn(value: string, sensitive: string -> bool, from: nat, at: nat, next: nat)
    requires Read(value, sensitive, from, at) && Opens(value, from, at) && NoSecretAt(value, sensitive, at) && at < next
    requires forall c: nat | KeyBetween(value, at, c) :: c < next
    requires forall i | at < i < next && EscapedQuoteAt(value, i) :: KeyBetween(value, at, i)
    ensures Read(value, sensitive, from, next)
  {
    forall i | at < i < next
      ensures !Opens(value, from, i)
    {
      if EscapedQuoteAt(value, i) {
        assert KeyBetween(value, at, i);
      }
    }
  }
}
