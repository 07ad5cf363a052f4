/** Newline-only JSONL framing: LF ends a record, one CR before it is dropped. */
module JsonlSplitter {
  import opened Text

  function StripTrailingCarriageReturn(record: string): string {
    if |record| > 0 && record[|record| - 1] == '\r' then record[..|record| - 1] else record
  }

  function Stripped(lines: seq<string>): (records: seq<string>)
    ensures |records| == |lines|
    ensures forall i | 0 <= i < |lines| :: records[i] == StripTrailingCarriageReturn(lines[i])
    decreases |lines|
  {
    if |lines| == 0 then [] else Stripped(lines[..|lines| - 1]) + [StripTrailingCarriageReturn(lines[|lines| - 1])]
  }

  /** The records of a whole text: one a line, the last only if it is not empty. */
  function Records(text: string): seq<string> {
    var lines := RawLines(text);
    var n := |lines| - 1;
    Stripped(lines[..n]) + if lines[n] == "" then [] else [StripTrailingCarriageReturn(lines[n])]
  }

  function Complete(text: string): seq<string> {
    var lines := RawLines(text);
    Stripped(lines[..|lines| - 1])
  }

  function Unfinished(text: string): string {
    var lines := RawLines(text);
    lines[|lines| - 1]
  }

  function Concat(chunks: seq<string>): string
    decreases |chunks|
  {
    if |chunks| == 0 then "" else Concat(chunks[..|chunks| - 1]) + chunks[|chunks| - 1]
  }

  function Headed(c: char, lines: seq<string>): seq<string>
    requires |lines| >= 1
  {
    [[c] + lines[0]] + lines[1..]
  }

  lemma HeadedAppend(c: char, lines: seq<string>, more: seq<string>)
    requires |lines| > 1 && |more| >= 1
    ensures Headed(c, lines[..|lines| - 1] + more) == Headed(c, lines)[..|lines| - 1] + more
  {
    var l := lines[..|lines| - 1] + more;
    assert l[0] == lines[0] && l[1..] == lines[1..|lines| - 1] + more;
    assert Headed(c, lines)[..|lines| - 1] == [[c] + lines[0]] + lines[1..|lines| - 1];
  }

  /** A text of one line goes on in that line. */
  lemma OneLineAppend(a: string, b: string)
    requires |a| > 0 && a[0] != '\n' && |RawLines(a[1..])| == 1
    ensures RawLines(a + b) == RawLines(a)[..|RawLines(a)| - 1] + RawLines(Unfinished(a) + b)
  {
    RawLinesIsTheSplit(a[1..]);
    assert RawLines(a[1..]) == [a[1..]];
    assert RawLines(a) == [[a[0]] + a[1..]] && [a[0]] + a[1..] == a;
    assert [] + RawLines(a + b) == RawLines(a + b);
  }

  /** More text only changes the unfinished line. */
  lemma {:induction false} RawLinesAppend(a: string, b: string)
    ensures var la, lb := RawLines(a), RawLines(Unfinished(a) + b);
      RawLines(a + b) == la[..|la| - 1] + lb
    decreases |a|
  {
    if |a| == 0 {
      assert a + b == b;
    } else {
      RawLinesAppend(a[1..], b);
      var la, rest := RawLines(a), RawLines(a[1..]);
      assert (a + b)[1..] == a[1..] + b;
      var lb := RawLines(Unfinished(a[1..]) + b);
      var all := RawLines(a[1..] + b);
      assert RawLines(a + b) == if a[0] == '\n' then [""] + all else Headed(a[0], all);
      if a[0] == '\n' {
        assert la == [""] + rest && Unfinished(a) == Unfinished(a[1..]);
        assert la[..|la| - 1] == [""] + rest[..|rest| - 1];
      } else if |rest| > 1 {
        assert la == Headed(a[0], rest) && Unfinished(a) == Unfinished(a[1..]);
        HeadedAppend(a[0], rest, lb);
      } else {
        OneLineAppend(a, b);
      }
    }
  }

  lemma {:induction false} StrippedConcat(a: seq<string>, b: seq<string>)
    ensures Stripped(a + b) == Stripped(a) + Stripped(b)
  {
  }

  lemma CompleteAppend(a: string, b: string)
    ensures Complete(a + b) == Complete(a) + Complete(Unfinished(a) + b)
    ensures Unfinished(a + b) == Unfinished(Unfinished(a) + b)
  {
    RawLinesAppend(a, b);
    var la, lb := RawLines(a), RawLines(Unfinished(a) + b);
    var l := RawLines(a + b);
    assert l[..|l| - 1] == la[..|la| - 1] + lb[..|lb| - 1];
    StrippedConcat(la[..|la| - 1], lb[..|lb| - 1]);
  }

  function IndexOfNewline(s: string): (i: int)
    ensures -1 <= i < |s|
    ensures i == -1 ==> LineFree(s)
    ensures i >= 0 ==> s[i] == '\n' && LineFree(s[..i])
  {
    if |s| == 0 then -1
    else if s[0] == '\n' then 0
    else
      var i := IndexOfNewline(s[1..]);
      assert i >= 0 ==> s[..i + 1][1..] == s[1..][..i];
      if i == -1 then -1 else i + 1
  }

  class NewlineOnlyJsonlSplitter {
    var buffer: string

    /** Everything pushed so far, and every record taken so far. */
    ghost var text: string
    ghost var taken: seq<string>

    constructor ()
      ensures Valid() && text == "" && taken == []
    {
      buffer, text, taken := "", "", [];
    }

    ghost predicate Valid()
      reads this
    {
      taken == Complete(text) && buffer == Unfinished(text)
    }

    /** Takes the records that the chunk completes. */
    method Push(chunk: string) returns (records: seq<string>)
      requires Valid()
      modifies this
      ensures Valid() && text == old(text) + chunk && taken == old(taken) + records
    {
      CompleteAppend(text, chunk);
      buffer := buffer + chunk;
      records := TakeCompleteRecords();
      text := text + chunk;
      taken := taken + records;
    }

    method TakeCompleteRecords() returns (records: seq<string>)
      modifies this`buffer
      ensures records == Complete(old(buffer)) && buffer == Unfinished(old(buffer))
    {
      records := [];
      var index := IndexOfNewline(buffer);
      while index != -1
        invariant index == IndexOfNewline(buffer)
        invariant Split(old(buffer), records, buffer)
        decreases |buffer|
      {
        TakeOne(old(buffer), records, buffer, index);
        records := records + [StripTrailingCarriageReturn(buffer[..index])];
        buffer := buffer[index + 1..];
        index := IndexOfNewline(buffer);
      }
      NoMore(buffer);
    }

    /** What is left is the last record, unless nothing is left. */
    method End() returns (records: seq<string>)
      requires Valid()
      modifies this
      ensures buffer == "" && taken == old(taken) + records && taken == Records(old(text))
    {
      records := if |buffer| == 0 then [] else [StripTrailingCarriageReturn(buffer)];
      buffer := "";
      taken := taken + records;
    }

    predicate HasPendingRecord()
      reads this
    {
      |buffer| > 0
    }
  }

  /** Some records have been taken off a text, and the rest is still to do. */
  ghost predicate Split(text: string, records: seq<string>, rest: string) {
    Complete(text) == records + Complete(rest) && Unfinished(text) == Unfinished(rest)
  }

  lemma FirstRecord(s: string, i: nat)
    requires i < |s| && s[i] == '\n' && LineFree(s[..i])
    ensures Split(s, [StripTrailingCarriageReturn(s[..i])], s[i + 1..])
  {
    assert s == s[..i] + "\n" + s[i + 1..];
    RawLinesCut(s[..i], s[i + 1..]);
    var rest := RawLines(s[i + 1..]);
    var lines := RawLines(s);
    assert lines == [s[..i]] + rest;
    assert lines[..|lines| - 1] == [s[..i]] + rest[..|rest| - 1];
    StrippedConcat([s[..i]], rest[..|rest| - 1]);
    assert Stripped([s[..i]]) == [StripTrailingCarriageReturn(s[..i])];
  }

  lemma TakeOne(text: string, records: seq<string>, s: string, i: nat)
    requires Split(text, records, s) && i < |s| && s[i] == '\n' && LineFree(s[..i])
    ensures Split(text, records + [StripTrailingCarriageReturn(s[..i])], s[i + 1..])
  {
    FirstRecord(s, i);
  }

  lemma NoMore(s: string)
    requires LineFree(s)
    ensures Complete(s) == [] && Unfinished(s) == s
  {
    RawLinesWhole(s);
  }

  /** However a text is cut into chunks, its records are the same. */
  method SplitChunks(chunks: seq<string>) returns (records: seq<string>)
    ensures records == Records(Concat(chunks))
  {
    var splitter := new NewlineOnlyJsonlSplitter();
    records := [];
    for i := 0 to |chunks|
      invariant splitter.Valid() && splitter.text == Concat(chunks[..i]) && splitter.taken == records
    {
      assert chunks[..i + 1][..i] == chunks[..i];
      var more := splitter.Push(chunks[i]);
      records := records + more;
    }
    assert chunks[..|chunks|] == chunks;
    var last := splitter.End();
    records := records + last;
  }
}
