/** One field of a cron schedule: what it means, and its expansion to a sorted list. */
module CronFields {
  import opened Common
  import opened Text

  /** Every start-th to end-th value, step by step. */
  datatype Part = Part(start: nat, end: nat, step: nat)

  datatype Expansion = Values(values: seq<int>) | Invalid

  // Text

  /** JavaScript's split at one character; there is always at least one piece. */
  function Split(s: string, c: char): (pieces: seq<string>)
    ensures |pieces| >= 1
  {
    if |s| == 0 then [""]
    else
      var rest := Split(s[1..], c);
      if s[0] == c then [""] + rest else [[s[0]] + rest[0]] + rest[1..]
  }

  function Join(pieces: seq<string>, c: char): string
    requires |pieces| >= 1
  {
    if |pieces| == 1 then pieces[0] else pieces[0] + [c] + Join(pieces[1..], c)
  }

  /** Splitting loses nothing, and no piece has the separator in it. */
  lemma {:induction false} SplitJoins(s: string, c: char)
    ensures Join(Split(s, c), c) == s
    ensures forall i | 0 <= i < |Split(s, c)| :: c !in Split(s, c)[i]
  {
    if |s| > 0 {
      SplitJoins(s[1..], c);
      var rest, pieces := Split(s[1..], c), Split(s, c);
      if s[0] == c {
        assert pieces[1..] == rest;
        assert s == "" + [c] + s[1..];
      } else {
        assert pieces[1..] == rest[1..];
        assert s == [s[0]] + s[1..];
        if |rest| > 1 {
          assert [s[0]] + (rest[0] + [c] + Join(rest[1..], c)) == ([s[0]] + rest[0]) + [c] + Join(rest[1..], c);
        }
      }
    }
  }

  function ParseInteger(raw: string): Option<nat> {
    if AllDigits(raw) && NumberOf(raw) <= MAX_SAFE_INTEGER then Some(NumberOf(raw)) else None
  }

  function InRange(value: Option<nat>, min: nat, max: nat): Option<nat> {
    if value.Some? && min <= value.value <= max then value else None
  }

  function ParseRange(range: string, min: nat, max: nat): Option<(nat, nat)> {
    if range == "*" then Some((min, max))
    else
      var ends := Split(range, '-');
      if |ends| > 2 then None
      else
        var start := InRange(ParseInteger(ends[0]), min, max);
        var end := InRange(ParseInteger(ends[|ends| - 1]), min, max);
        if start.Some? && end.Some? && start.value <= end.value then Some((start.value, end.value)) else None
  }

  function ParsePart(text: string, min: nat, max: nat): (part: Option<Part>)
    ensures part.Some? && min <= max ==> min <= part.value.start <= part.value.end <= max && part.value.step > 0
  {
    var pieces := Split(text, '/');
    if text == "" || |pieces| > 2 then None
    else
      var step := if |pieces| == 2 then ParseInteger(pieces[1]) else Some(1);
      var range := ParseRange(pieces[0], min, max);
      if step.None? || step.value == 0 || range.None? then None
      else Some(Part(range.value.0, range.value.1, step.value))
  }

  /** All parts of a list, if they are all valid. */
  function ParseParts(texts: seq<string>, min: nat, max: nat): (parts: Option<seq<Part>>)
    ensures parts.Some? ==> |parts.value| == |texts|
    decreases |texts|
  {
    if |texts| == 0 then Some([])
    else
      var before := ParseParts(texts[..|texts| - 1], min, max);
      var last := ParsePart(texts[|texts| - 1], min, max);
      if before.Some? && last.Some? then Some(before.value + [last.value]) else None
  }

  function ParseField(field: string, min: nat, max: nat): Option<seq<Part>> {
    ParseParts(Split(field, ','), min, max)
  }

  // Meaning

  /** Sunday may be written 7. */
  function Reading(max: nat, value: nat): nat {
    if max == 7 && value == 7 then 0 else value
  }

  function StepAt(p: Part, k: nat): nat {
    p.start + k * p.step
  }

  predicate FiresAt(p: Part, max: nat, k: nat, v: int) {
    StepAt(p, k) <= p.end && Reading(max, StepAt(p, k)) == v
  }

  ghost predicate PartMeans(p: Part, max: nat, v: int) {
    exists k: nat :: FiresAt(p, max, k, v)
  }

  ghost predicate PartsMean(parts: seq<Part>, max: nat, v: int) {
    exists i | 0 <= i < |parts| :: PartMeans(parts[i], max, v)
  }

  /** The values at which a field fires; a star fires at every one. */
  ghost predicate FieldMeans(field: string, min: nat, max: nat, v: int) {
    field == "*" || (ParseField(field, min, max).Some? && PartsMean(ParseField(field, min, max).value, max, v))
  }

  predicate FieldValid(field: string, min: nat, max: nat) {
    field == "*" || ParseField(field, min, max).Some?
  }

  // Expansion

  predicate Ascending(s: seq<int>) {
    forall i, j | 0 <= i < j < |s| :: s[i] < s[j]
  }

  /** The elements of a set, smallest first. */
  method Sorted(values: set<nat>) returns (s: seq<int>)
    ensures Ascending(s) && |s| == |values| && forall v :: v in s <==> v in values
  {
    var rest := values;
    s := [];
    while rest != {}
      invariant Ascending(s) && rest <= values && |s| + |rest| == |values|
      invariant forall v :: v in s <==> v in values - rest
      invariant forall i, v | 0 <= i < |s| && v in rest :: s[i] < v
      decreases |rest|
    {
      var least := Least(rest);
      s := s + [least];
      rest := rest - {least};
    }
  }

  method Least(values: set<nat>) returns (least: nat)
    requires values != {}
    ensures least in values && forall v :: v in values ==> least <= v
  {
    least :| least in values;
    var rest := values - {least};
    while rest != {}
      invariant rest <= values && least in values
      invariant forall v :: v in values && v !in rest ==> least <= v
      decreases |rest|
    {
      var v :| v in rest;
      if v < least {
        least := v;
      }
      rest := rest - {v};
    }
  }

  lemma {:induction false} StepsGrow(p: Part, j: nat, k: nat)
    requires p.step > 0 && j < k
    ensures StepAt(p, j) < StepAt(p, k)
  {
    assert k * p.step == j * p.step + (k - j) * p.step;
    Positive(k - j, p.step);
  }

  lemma Positive(a: nat, b: nat)
    requires a > 0 && b > 0
    ensures a * b > 0
  {
  }

  /** Adds a part's values, step by step. */
  method AddPart(p: Part, max: nat, values: set<nat>) returns (more: set<nat>)
    requires p.step > 0
    ensures forall v :: v in more <==> v in values || PartMeans(p, max, v)
  {
    more := values;
    var value := p.start;
    ghost var k := 0;
    while value <= p.end
      invariant value == StepAt(p, k)
      invariant forall v :: v in more <==> v in values || FiresBefore(p, max, k, v)
      decreases p.end + p.step - value
    {
      FiresOnce(p, max, k);
      more := more + {Reading(max, value)};
      value := value + p.step;
      k := k + 1;
    }
    NothingAfter(p, max, k);
  }

  ghost predicate FiresBefore(p: Part, max: nat, k: nat, v: int) {
    exists j: nat :: j < k && FiresAt(p, max, j, v)
  }

  lemma FiresOnce(p: Part, max: nat, k: nat)
    requires StepAt(p, k) <= p.end
    ensures StepAt(p, k + 1) == StepAt(p, k) + p.step
    ensures forall v :: FiresBefore(p, max, k + 1, v) <==> FiresBefore(p, max, k, v) || v == Reading(max, StepAt(p, k))
  {
    assert (k + 1) * p.step == k * p.step + p.step;
    forall v
      ensures FiresBefore(p, max, k + 1, v) <==> FiresBefore(p, max, k, v) || v == Reading(max, StepAt(p, k))
    {
      if v == Reading(max, StepAt(p, k)) {
        assert FiresAt(p, max, k, v);
      }
    }
  }

  lemma NothingAfter(p: Part, max: nat, k: nat)
    requires p.step > 0 && StepAt(p, k) > p.end
    ensures forall v :: FiresBefore(p, max, k, v) <==> PartMeans(p, max, v)
  {
    forall v, j: nat | FiresAt(p, max, j, v)
      ensures j < k
    {
      if j > k {
        StepsGrow(p, k, j);
      }
    }
  }

  /** A star stands for itself; anything else for its values in ascending order. */
  method ExpandCronField(field: string, min: nat, max: nat) returns (r: Expansion)
    requires min <= max
    ensures r.Values? <==> FieldValid(field, min, max)
    ensures r.Values? && field == "*" ==> r.values == [-1]
    ensures r.Values? && field != "*" ==> Ascending(r.values) && forall v :: v in r.values <==> FieldMeans(field, min, max, v)
  {
    if field == "*" {
      return Values([-1]);
    }
    var texts := Split(field, ',');
    var values: set<nat> := {};
    for i := 0 to |texts|
      invariant ParseParts(texts[..i], min, max).Some?
      invariant forall v :: v in values <==> PartsMean(ParseParts(texts[..i], min, max).value, max, v)
    {
      assert texts[..i + 1][..i] == texts[..i];
      var part := ParsePart(texts[i], min, max);
      if part.None? {
        Spoilt(texts, i + 1, min, max);
        return Invalid;
      }
      PartsMeanMore(ParseParts(texts[..i], min, max).value, part.value, max);
      values := AddPart(part.value, max, values);
    }
    assert texts[..|texts|] == texts;
    var sorted := Sorted(values);
    r := Values(sorted);
  }

  lemma PartsMeanMore(parts: seq<Part>, p: Part, max: nat)
    ensures forall v :: PartsMean(parts + [p], max, v) <==> PartsMean(parts, max, v) || PartMeans(p, max, v)
  {
    forall v
      ensures PartsMean(parts + [p], max, v) <==> PartsMean(parts, max, v) || PartMeans(p, max, v)
    {
      var more := parts + [p];
      if PartsMean(parts, max, v) {
        var i :| 0 <= i < |parts| && PartMeans(parts[i], max, v);
        assert PartMeans(more[i], max, v);
      }
      if PartMeans(p, max, v) {
        assert PartMeans(more[|parts|], max, v);
      }
    }
  }

  /** One invalid part spoils the list. */
  lemma {:induction false} Spoilt(texts: seq<string>, n: nat, min: nat, max: nat)
    requires n <= |texts| && ParseParts(texts[..n], min, max).None?
    ensures ParseParts(texts, min, max).None?
    decreases |texts|
  {
    if n == |texts| {
      assert texts[..n] == texts;
    } else {
      var before := texts[..|texts| - 1];
      assert before[..n] == texts[..n];
      Spoilt(before, n, min, max);
    }
  }
}
