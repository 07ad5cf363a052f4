/** How several messages become one prompt. */
module CollectPrompt {
  import opened Text

  const COLLECT_HEADER := "[Queued messages while agent was busy]"

  /** Debounced messages, a blank line between them. */
  function CombineTexts(texts: seq<string>): string
    requires |texts| >= 1
  {
    if |texts| == 1 then texts[0] else texts[0] + "\n\n" + CombineTexts(texts[1..])
  }

  /** The lines of a collect prompt for the texts before n. */
  function CollectLines(texts: seq<string>, n: nat): (lines: seq<string>)
    requires n <= |texts|
    ensures |lines| == 1 + 3 * n
  {
    if n == 0 then [COLLECT_HEADER]
    else CollectLines(texts, n - 1) + ["---", "Queued #" + Decimal(n), texts[n - 1]]
  }

  /** One message stands for itself; several are numbered under a header. */
  function BuildCollectPrompt(texts: seq<string>): string
    requires |texts| >= 1
  {
    if |texts| == 1 then texts[0] else JoinLines(CollectLines(texts, |texts|))
  }

  method CollectPromptOf(texts: seq<string>) returns (prompt: string)
    requires |texts| >= 1
    ensures prompt == BuildCollectPrompt(texts)
  {
    if |texts| == 1 {
      return texts[0];
    }
    var lines := [COLLECT_HEADER];
    for i := 0 to |texts|
      invariant lines == CollectLines(texts, i)
    {
      lines := lines + ["---"];
      lines := lines + ["Queued #" + Decimal(i + 1)];
      lines := lines + [texts[i]];
    }
    prompt := JoinLines(lines);
  }

  lemma {:induction false} CollectLineAt(texts: seq<string>, n: nat, i: nat)
    requires i < n <= |texts|
    ensures CollectLines(texts, n)[3 + 3 * i] == texts[i]
  {
    if i < n - 1 {
      CollectLineAt(texts, n - 1, i);
    }
  }

  lemma {:induction false} CollectLinesAreLineFree(texts: seq<string>, n: nat)
    requires n <= |texts| && AllLineFree(texts)
    ensures AllLineFree(CollectLines(texts, n))
  {
    if n > 0 {
      CollectLinesAreLineFree(texts, n - 1);
      assert LineFree("Queued #" + Decimal(n)) by {
        assert forall c | c in Decimal(n) :: IsDigit(c);
      }
    }
  }

  /** The messages can be read back from a collect prompt when each is one line:
      message i is line 3 + 3i. */
  lemma CollectPromptKeepsMessages(texts: seq<string>, i: nat)
    requires i < |texts| && |texts| >= 2 && AllLineFree(texts)
    ensures var lines := RawLines(BuildCollectPrompt(texts));
      |lines| == 1 + 3 * |texts| && lines[3 + 3 * i] == texts[i]
  {
    CollectLinesAreLineFree(texts, |texts|);
    RawLinesUnique(CollectLines(texts, |texts|));
    CollectLineAt(texts, |texts|, i);
  }
}
