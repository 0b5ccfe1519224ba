/**
 * The scoring client of internal/scorer/scorer.go after the HTTP call:
 * hand-written substring search, extraction of the JSON object from a reply
 * that may be wrapped in a Markdown code fence, and the local derivation of
 * resonance and total from the sub-scores.
 */
module Scorer {
  import opened Wrappers
  import opened Models

  /** The plain Markdown fence and the fence opener tagged as JSON. */
  const Fence: string := "```"
  const JsonTag: string := "```json"

  // ---------------------------------------------------------------------
  // Substring search
  // ---------------------------------------------------------------------

  /** `s[i:i+len(sub)] == sub`, with the slice in range. */
  predicate OccursAt(s: string, sub: string, i: int)
  {
    0 <= i && i + |sub| <= |s| && s[i..i + |sub|] == sub
  }

  ghost predicate NoOccurrence(s: string, sub: string)
  {
    forall i :: !OccursAt(s, sub, i)
  }

  /** `i` is the smallest position where `sub` occurs in `s`. */
  ghost predicate FirstOccurrence(s: string, sub: string, i: int)
  {
    OccursAt(s, sub, i) && forall j :: 0 <= j < i ==> !OccursAt(s, sub, j)
  }

  /** `i` is the largest position where `sub` occurs in `s`. */
  ghost predicate LastOccurrence(s: string, sub: string, i: int)
  {
    OccursAt(s, sub, i) && forall j :: i < j ==> !OccursAt(s, sub, j)
  }

  /** The forward scan of indexOf, from position `i` on. */
  function IndexFrom(s: string, sub: string, i: nat): (r: int)
    ensures r != -1 ==> i <= r && OccursAt(s, sub, r) && forall j :: i <= j < r ==> !OccursAt(s, sub, j)
    ensures r == -1 ==> forall j :: i <= j ==> !OccursAt(s, sub, j)
    decreases |s| + 1 - i
  {
    if i + |sub| > |s| then -1
    else if s[i..i + |sub|] == sub then i
    else IndexFrom(s, sub, i + 1)
  }

  /** What indexOf returns: the first occurrence of `sub` in `s`, or -1 when there is none. */
  function FirstIndex(s: string, sub: string): (r: int)
    ensures r == -1 <==> NoOccurrence(s, sub)
    ensures r != -1 ==> FirstOccurrence(s, sub, r)
    ensures r == -1 || 0 <= r <= |s| - |sub|
  {
    IndexFrom(s, sub, 0)
  }

  /** The backward scan of lastIndexOf, from position `i` down to 0. */
  function LastIndexFrom(s: string, sub: string, i: int): (r: int)
    requires i <= |s| - |sub|
    ensures r != -1 ==> r <= i && OccursAt(s, sub, r) && forall j :: r < j <= i ==> !OccursAt(s, sub, j)
    ensures r == -1 ==> forall j :: j <= i ==> !OccursAt(s, sub, j)
    decreases i + 1
  {
    if i < 0 then -1
    else if s[i..i + |sub|] == sub then i
    else LastIndexFrom(s, sub, i - 1)
  }

  /** What lastIndexOf returns: the last occurrence of `sub` in `s`, or -1 when there is none. */
  function LastIndex(s: string, sub: string): (r: int)
    ensures r == -1 <==> NoOccurrence(s, sub)
    ensures r != -1 ==> LastOccurrence(s, sub, r)
    ensures r == -1 || 0 <= r <= |s| - |sub|
  {
    LastIndexFrom(s, sub, |s| - |sub|)
  }

  /** indexOf: a counter loop from 0 up to len(s)-len(sub). */
  method IndexOf(s: string, sub: string) returns (idx: int)
    ensures idx == FirstIndex(s, sub)
  {
    var i := 0;
    while i <= |s| - |sub|
      invariant 0 <= i
      invariant IndexFrom(s, sub, i) == FirstIndex(s, sub)
      decreases |s| - |sub| + 1 - i
    {
      if s[i..i + |sub|] == sub {
        return i;
      }
      i := i + 1;
    }
    return -1;
  }

  /** lastIndexOf: a counter loop from len(s)-len(sub) down to 0. */
  method LastIndexOf(s: string, sub: string) returns (idx: int)
    ensures idx == LastIndex(s, sub)
  {
    var i := |s| - |sub|;
    while i >= 0
      invariant i <= |s| - |sub|
      invariant LastIndexFrom(s, sub, i) == LastIndex(s, sub)
      decreases i + 1
    {
      if s[i..i + |sub|] == sub {
        return i;
      }
      i := i - 1;
    }
    return -1;
  }

  // ---------------------------------------------------------------------
  // Extraction of the JSON object
  // ---------------------------------------------------------------------

  /** The only characters extractJSON trims: newline and space (not '\r', not '\t'). */
  predicate IsEdge(c: char)
  {
    c == '\n' || c == ' '
  }

  /** The first trimming loop: drop leading newlines and spaces. */
  function TrimLeft(s: string): (r: string)
    ensures |r| <= |s| && r == s[|s| - |r|..]
    ensures forall i :: 0 <= i < |s| - |r| ==> IsEdge(s[i])
    ensures |r| > 0 ==> !IsEdge(r[0])
  {
    if |s| > 0 && IsEdge(s[0]) then TrimLeft(s[1..]) else s
  }

  /** The second trimming loop: drop trailing newlines and spaces. */
  function TrimRight(s: string): (r: string)
    ensures |r| <= |s| && r == s[..|r|]
    ensures forall i :: |r| <= i < |s| ==> IsEdge(s[i])
    ensures |r| > 0 ==> !IsEdge(r[|r| - 1])
  {
    if |s| > 0 && IsEdge(s[|s| - 1]) then TrimRight(s[..|s| - 1]) else s
  }

  /**
   * Where extraction starts: just past the first "```json" if there is one,
   * otherwise just past the first "```" if there is one, otherwise 0.
   * A "```json" tag wins even when a plain fence occurs before it.
   */
  function FenceStart(text: string): (start: nat)
    ensures start <= |text|
    ensures forall j :: FirstOccurrence(text, JsonTag, j) ==> start == j + |JsonTag|
    ensures NoOccurrence(text, JsonTag) ==>
              forall j :: FirstOccurrence(text, Fence, j) ==> start == j + |Fence|
    ensures NoOccurrence(text, JsonTag) && NoOccurrence(text, Fence) ==> start == 0
  {
    var idx := FirstIndex(text, JsonTag);
    if idx != -1 then idx + |JsonTag|
    else
      var idx2 := FirstIndex(text, Fence);
      if idx2 != -1 then idx2 + |Fence| else 0
  }

  /**
   * Where extraction ends: at the last "```" when that lies strictly after
   * `start`, otherwise at the end of the text.
   */
  function FenceEnd(text: string, start: nat): (end: nat)
    requires start <= |text|
    ensures start <= end <= |text|
    ensures forall j :: LastOccurrence(text, Fence, j) ==> end == if j > start then j else |text|
    ensures NoOccurrence(text, Fence) ==> end == |text|
  {
    var idx := LastIndex(text, Fence);
    if idx > start then idx else |text|
  }

  /** Both trimming loops: the slice without leading and trailing newlines and spaces. */
  function Trimmed(s: string): (r: string)
    ensures |r| <= |s|
    ensures |r| > 0 ==> !IsEdge(r[0]) && !IsEdge(r[|r| - 1])
  {
    TrimRight(TrimLeft(s))
  }

  /** The string extractJSON returns. */
  function Extracted(text: string): (r: string)
    ensures |r| <= |text|
    ensures |r| > 0 ==> !IsEdge(r[0]) && !IsEdge(r[|r| - 1])
  {
    var start := FenceStart(text);
    var end := FenceEnd(text, start);
    Trimmed(text[start..end])
  }

  /** extractJSON: locate the fenced block, slice it, then shrink the slice from both ends. */
  method ExtractJSON(text: string) returns (result: string)
    ensures result == Extracted(text)
  {
    var start, end := LocateBlock(text);
    result := TrimEdges(text[start..end]);
  }

  /** Lines 172-182 of extractJSON: the bounds of the block. */
  method LocateBlock(text: string) returns (start: nat, end: nat)
    ensures start == FenceStart(text)
    ensures end == FenceEnd(text, start)
  {
    start := 0;
    var idx := IndexOf(text, JsonTag);
    if idx != -1 {
      start := idx + |JsonTag|;
    } else {
      idx := IndexOf(text, Fence);
      if idx != -1 {
        start := idx + |Fence|;
      }
    }
    end := |text|;
    idx := LastIndexOf(text, Fence);
    if idx > start {
      end := idx;
    }
  }

  /** Lines 184-193 of extractJSON: the two trimming loops. */
  method TrimEdges(s: string) returns (result: string)
    ensures result == Trimmed(s)
  {
    result := s;
    while |result| > 0 && IsEdge(result[0])
      invariant TrimLeft(result) == TrimLeft(s)
    {
      result := result[1..];
    }
    ghost var left := result;
    while |result| > 0 && IsEdge(result[|result| - 1])
      invariant TrimRight(result) == TrimRight(left)
    {
      result := result[..|result| - 1];
    }
  }

  /**
   * The extracted text is one contiguous piece of `text[start:end]`: what was
   * cut off on either side is newlines and spaces only, and (by the contract
   * of Extracted) the piece itself neither starts nor ends with one.
   */
  lemma ExtractedSpan(text: string) returns (a: nat, b: nat)
    ensures FenceStart(text) <= a <= b <= FenceEnd(text, FenceStart(text))
    ensures Extracted(text) == text[a..b]
    ensures forall i :: FenceStart(text) <= i < a ==> IsEdge(text[i])
    ensures forall i :: b <= i < FenceEnd(text, FenceStart(text)) ==> IsEdge(text[i])
  {
    a, b := TrimmedSliceSpan(text, FenceStart(text), FenceEnd(text, FenceStart(text)));
  }

  /** TrimmedSpan of a slice, in the coordinates of the whole text. */
  lemma TrimmedSliceSpan(text: string, start: nat, end: nat) returns (a: nat, b: nat)
    requires start <= end <= |text|
    ensures start <= a <= b <= end
    ensures Trimmed(text[start..end]) == text[a..b]
    ensures forall i :: start <= i < a ==> IsEdge(text[i])
    ensures forall i :: b <= i < end ==> IsEdge(text[i])
  {
    var x, y := TrimmedSpan(text[start..end]);
    SliceSpan(text, start, end, x, y);
    a, b := start + x, start + y;
  }

  /** A span of `text[start..end]`, read in the coordinates of the whole text. */
  lemma SliceSpan(text: string, start: nat, end: nat, x: nat, y: nat)
    requires start <= end <= |text| && x <= y <= end - start
    requires forall i :: 0 <= i < x ==> IsEdge(text[start..end][i])
    requires forall i :: y <= i < end - start ==> IsEdge(text[start..end][i])
    ensures text[start..end][x..y] == text[start + x..start + y]
    ensures forall i :: start <= i < start + x ==> IsEdge(text[i])
    ensures forall i :: start + y <= i < end ==> IsEdge(text[i])
  {
    forall k | 0 <= k < y - x ensures text[start..end][x..y][k] == text[start + x..start + y][k] {
      assert text[start..end][x..y][k] == text[start..end][x + k];
    }
    forall i | start <= i < start + x ensures IsEdge(text[i]) {
      assert text[i] == text[start..end][i - start];
    }
    forall i | start + y <= i < end ensures IsEdge(text[i]) {
      assert text[i] == text[start..end][i - start];
    }
  }

  /** The two trimming loops keep `s[a..b]` and drop only edge characters around it. */
  lemma TrimmedSpan(s: string) returns (a: nat, b: nat)
    ensures a <= b <= |s|
    ensures Trimmed(s) == s[a..b]
    ensures forall i :: 0 <= i < a ==> IsEdge(s[i])
    ensures forall i :: b <= i < |s| ==> IsEdge(s[i])
  {
    var left := TrimLeft(s);
    var right := TrimRight(left);
    a := |s| - |left|;
    b := a + |right|;
    assert left == s[a..];
    assert right == left[..|right|];
    PrefixOfSuffix(s, a, |right|);
    forall i | b <= i < |s| ensures IsEdge(s[i]) {
      assert s[i] == left[i - a];
    }
  }

  /** Taking `k` characters of `s[a..]` is taking `s[a..a + k]`. */
  lemma PrefixOfSuffix(s: string, a: nat, k: nat)
    requires a + k <= |s|
    ensures s[a..][..k] == s[a..a + k]
  {
  }

  // ---------------------------------------------------------------------
  // The three reply shapes the prompt can come back in
  // ---------------------------------------------------------------------

  /** A body that neither starts nor ends with a newline or a space. */
  predicate NoEdgeEnds(b: string)
  {
    |b| > 0 ==> !IsEdge(b[0]) && !IsEdge(b[|b| - 1])
  }

  /** "```json\n" + body + "\n```" */
  function JsonFenced(body: string): string
  {
    JsonTag + "\n" + body + "\n" + Fence
  }

  /** "```\n" + body + "\n```" */
  function PlainFenced(body: string): string
  {
    Fence + "\n" + body + "\n" + Fence
  }

  /** Trimming the body framed by the two newlines a fence leaves gives the body back. */
  lemma TrimFramed(body: string)
    requires NoEdgeEnds(body)
    ensures Trimmed("\n" + body + "\n") == body
  {
    var framed := "\n" + body + "\n";
    assert framed[1..] == body + "\n";
    if |body| == 0 {
      assert TrimLeft(body + "\n") == TrimLeft([]);
    } else {
      assert (body + "\n")[0] == body[0];
      assert TrimLeft(body + "\n") == body + "\n";
      assert (body + "\n")[..|body|] == body;
      assert TrimRight(body + "\n") == TrimRight(body);
    }
  }

  /** Every occurrence of a "```json" tag starts with a plain fence. */
  lemma JsonTagIsFenced(s: string, i: int)
    requires OccursAt(s, JsonTag, i)
    ensures OccursAt(s, Fence, i)
  {
    assert s[i..i + 3] == s[i..i + 7][..3];
  }

  /** A text without a plain fence holds no "```json" tag either. */
  lemma NoFenceNoTag(s: string)
    requires NoOccurrence(s, Fence)
    ensures NoOccurrence(s, JsonTag)
  {
    forall i ensures !OccursAt(s, JsonTag, i) {
      if OccursAt(s, JsonTag, i) {
        JsonTagIsFenced(s, i);
      }
    }
  }

  /** A reply without fences is taken whole, then trimmed. */
  lemma ExtractRaw(body: string)
    requires NoOccurrence(body, Fence)
    requires NoEdgeEnds(body)
    ensures Extracted(body) == body
  {
    NoFenceNoTag(body);
    assert FenceStart(body) == 0;
    assert body[0..|body|] == body;
  }

  /** A reply fenced with a "```json" tag yields its body, whatever the body holds. */
  lemma ExtractJsonFenced(body: string)
    requires NoEdgeEnds(body)
    ensures Extracted(JsonFenced(body)) == body
  {
    var t := JsonFenced(body);
    assert OccursAt(t, JsonTag, 0) by { assert t[0..7] == JsonTag; }
    assert FirstOccurrence(t, JsonTag, 0);
    assert FenceStart(t) == 7;
    var last := |t| - 3;
    assert OccursAt(t, Fence, last) by { assert t[last..last + 3] == Fence; }
    assert LastOccurrence(t, Fence, last);
    assert FenceEnd(t, 7) == last;
    assert t[7..last] == "\n" + body + "\n";
    TrimFramed(body);
  }

  /**
   * A plain fence followed by a newline cannot start a "```json" tag, and
   * neither can a tag straddle the closing newline: a tag in a plainly
   * fenced reply would have to lie inside the body.
   */
  lemma PlainFencedHasNoTag(body: string, i: int)
    requires NoOccurrence(body, JsonTag)
    ensures !OccursAt(PlainFenced(body), JsonTag, i)
  {
    var t := PlainFenced(body);
    if 0 <= i && i + |JsonTag| <= |t| {
      if i <= 3 {
        assert t[i..i + 7][3 - i] == t[3] == '\n';
      } else if 4 + |body| < i + 7 {
        assert t[i..i + 7][4 + |body| - i] == t[4 + |body|] == '\n';
      } else {
        assert t[i..i + 7] == body[i - 4..i + 3];
        assert !OccursAt(body, JsonTag, i - 4);
      }
    }
  }

  /**
   * A reply fenced without a tag yields its body, provided the body holds no
   * "```json" tag; plain fences inside the body are harmless, since the
   * block runs from the first fence to the last.
   */
  lemma ExtractPlainFenced(body: string)
    requires NoOccurrence(body, JsonTag)
    requires NoEdgeEnds(body)
    ensures Extracted(PlainFenced(body)) == body
  {
    var t := PlainFenced(body);
    forall i ensures !OccursAt(t, JsonTag, i) {
      PlainFencedHasNoTag(body, i);
    }
    assert OccursAt(t, Fence, 0) by { assert t[0..3] == Fence; }
    assert FirstOccurrence(t, Fence, 0);
    assert FenceStart(t) == 3;
    var last := |t| - 3;
    assert OccursAt(t, Fence, last) by { assert t[last..last + 3] == Fence; }
    assert LastOccurrence(t, Fence, last);
    assert FenceEnd(t, 3) == last;
    assert t[3..last] == "\n" + body + "\n";
    TrimFramed(body);
  }

  // ---------------------------------------------------------------------
  // Derived scores
  // ---------------------------------------------------------------------

  /** The additive invariant of the score record, in Go's 64-bit `int` arithmetic. */
  predicate Consistent(r: ScoreResult)
  {
    && r.resonance == Wrap64(r.importance + r.benefit + r.noble)
    && r.total == Wrap64(r.scarcity + r.actionable + r.leverage + r.resonance)
  }

  /** The six scores the service is asked for and the reason are equal. */
  predicate SameAssessment(a: ScoreResult, b: ScoreResult)
  {
    && a.scarcity == b.scarcity && a.actionable == b.actionable && a.leverage == b.leverage
    && a.importance == b.importance && a.benefit == b.benefit && a.noble == b.noble
    && a.reason == b.reason
  }

  /** Lines 163-164 of scorer.go: resonance, then total, recomputed over the parsed record. */
  function WithDerivedTotals(r: ScoreResult): (d: ScoreResult)
    ensures Consistent(d)
    ensures SameAssessment(d, r)
  {
    var resonance := Wrap64(r.importance + r.benefit + r.noble);
    r.(resonance := resonance, total := Wrap64(r.scarcity + r.actionable + r.leverage + resonance))
  }

  /** Whatever resonance and total the service sent are overwritten. */
  lemma DerivationIgnoresParsedTotals(r: ScoreResult, resonance: int, total: int)
    ensures WithDerivedTotals(r.(resonance := resonance, total := total)) == WithDerivedTotals(r)
  {
  }

  /** Recomputing a consistent record changes nothing; in particular the derivation is idempotent. */
  lemma DerivationFixesConsistent(r: ScoreResult)
    ensures Consistent(r) <==> WithDerivedTotals(r) == r
    ensures WithDerivedTotals(WithDerivedTotals(r)) == WithDerivedTotals(r)
  {
  }

  /**
   * Sub-scores in their documented ranges never wrap: resonance and total
   * are the plain sums, in 0-25 and 0-100.
   */
  lemma DerivedTotalsInRange(r: ScoreResult)
    requires SubScoresInRange(r)
    ensures WithDerivedTotals(r).resonance == r.importance + r.benefit + r.noble
    ensures WithDerivedTotals(r).total == r.scarcity + r.actionable + r.leverage + WithDerivedTotals(r).resonance
    ensures 0 <= WithDerivedTotals(r).resonance <= 25
    ensures 0 <= WithDerivedTotals(r).total <= 100
  {
  }

  // ---------------------------------------------------------------------
  // Score, after the HTTP exchange
  // ---------------------------------------------------------------------

  datatype ScoreError =
    | CallFailed(message: string)   // transport, status, error payload or empty candidate list
    | BadScoreJson(content: string) // the extracted text did not parse as a score record

  /**
   * The outcome of Score given the text of the first candidate part (or the
   * failure of the call) and the JSON decoder as a partial function.
   */
  function ScoreOutcome(reply: Result<string, string>, parse: string -> Option<ScoreResult>)
    : (r: Result<ScoreResult, ScoreError>)
    ensures reply.Failure? ==> r == Failure(CallFailed(reply.error))
    ensures reply.Success? && parse(Extracted(reply.value)).None? ==>
              r == Failure(BadScoreJson(Extracted(reply.value)))
    ensures r.Success? <==> reply.Success? && parse(Extracted(reply.value)).Some?
    ensures r.Success? ==> Consistent(r.value) && SameAssessment(r.value, parse(Extracted(reply.value)).value)
  {
    match reply
    case Failure(msg) => Failure(CallFailed(msg))
    case Success(text) =>
      var content := Extracted(text);
      match parse(content)
      case None => Failure(BadScoreJson(content))
      case Some(parsed) => Success(WithDerivedTotals(parsed))
  }

  /** Score from line 152 on: extract, decode, derive. */
  method Score(reply: Result<string, string>, parse: string -> Option<ScoreResult>)
    returns (r: Result<ScoreResult, ScoreError>)
    ensures r == ScoreOutcome(reply, parse)
  {
    if reply.Failure? {
      return Failure(CallFailed(reply.error));
    }
    var content := ExtractJSON(reply.value);
    var parsed := parse(content);
    if parsed.None? {
      return Failure(BadScoreJson(content));
    }
    var result := parsed.value;
    result := result.(resonance := Wrap64(result.importance + result.benefit + result.noble));
    result := result.(total := Wrap64(result.scarcity + result.actionable + result.leverage + result.resonance));
    return Success(result);
  }

  /** Raw, "```json"-fenced and plainly fenced replies carrying the same object score the same. */
  lemma ScoreIgnoresFenceStyle(body: string, parse: string -> Option<ScoreResult>)
    requires NoOccurrence(body, Fence)
    requires NoEdgeEnds(body)
    ensures ScoreOutcome(Success(JsonFenced(body)), parse) == ScoreOutcome(Success(body), parse)
    ensures ScoreOutcome(Success(PlainFenced(body)), parse) == ScoreOutcome(Success(body), parse)
  {
    ExtractRaw(body);
    ExtractJsonFenced(body);
    NoFenceNoTag(body);
    ExtractPlainFenced(body);
  }
}
