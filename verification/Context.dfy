/** The context manager: which prefix of a conversation to summarise, and how summaries reach the model. */
module Contexts {
  import opened Options
  import opened Transcripts

  const U32: nat := 0x1_0000_0000

  // ---------------------------------------------------------------------------
  // Boundary selection
  // ---------------------------------------------------------------------------

  predicate CallsTools(m: Message)
  {
    m.Assistant? && exists i :: 0 <= i < |m.content| && m.content[i].ToolUse?
  }

  /** The end of the run of tool results that starts at `b`. */
  function GroupEnd(h: seq<Message>, b: nat): (e: nat)
    requires b <= |h|
    ensures b <= e <= |h|
    ensures forall i :: b <= i < e ==> h[i].ToolResult?
    ensures e < |h| ==> !h[e].ToolResult?
    decreases |h| - b
  {
    if b < |h| && h[b].ToolResult? then GroupEnd(h, b + 1) else b
  }

  /** The last assistant message before `b`, or 0. */
  function LastAssistant(h: seq<Message>, b: nat): (a: nat)
    requires b <= |h|
    ensures a <= b && (a > 0 ==> a < b && h[a].Assistant?)
    ensures forall i :: a < i < b ==> !h[i].Assistant?
  {
    if b == 0 then 0 else if h[b - 1].Assistant? then b - 1 else LastAssistant(h, b - 1)
  }

  function Adjusted(h: seq<Message>, b: nat): (r: nat)
  {
    if b == 0 || b > |h| then b
    else
      var e := if CallsTools(h[b - 1]) then GroupEnd(h, b) else b;
      if e < |h| && h[e].ToolResult? then LastAssistant(h, e) else e
  }

  method AdjustBoundaryForToolPairs(h: seq<Message>, b: nat) returns (boundary: nat)
    ensures boundary == Adjusted(h, b)
  {
    boundary := b;
    if b == 0 || b > |h| {
      return;
    }
    if h[b - 1].Assistant? {
      var content, hasToolUse := h[b - 1].content, false;
      for i := 0 to |content|
        invariant hasToolUse <==> exists k :: 0 <= k < i && content[k].ToolUse?
      {
        if content[i].ToolUse? {
          hasToolUse := true;
        }
      }
      if hasToolUse {
        while boundary < |h| && h[boundary].ToolResult?
          invariant b <= boundary <= |h|
          invariant GroupEnd(h, boundary) == GroupEnd(h, b)
        {
          boundary := boundary + 1;
        }
      }
    }
    if boundary < |h| && h[boundary].ToolResult? {
      ghost var target := LastAssistant(h, boundary);
      while boundary > 0
        invariant boundary <= |h|
        invariant LastAssistant(h, boundary) == target
      {
        boundary := boundary - 1;
        if h[boundary].Assistant? {
          break;
        }
      }
    }
  }

  /** A boundary moves exactly when it stands in front of a tool result: forward, over tool results only, if the
      message before it calls tools; otherwise backward, to the nearest assistant message or to the start. */
  lemma {:induction false} AdjustedStaysInGroup(h: seq<Message>, b: nat)
    requires b <= |h|
    ensures Adjusted(h, b) == b <==> b == 0 || b == |h| || !h[b].ToolResult?
    ensures Adjusted(h, b) > b <==> 0 < b < |h| && h[b].ToolResult? && CallsTools(h[b - 1])
    ensures Adjusted(h, b) <= |h|
    ensures Adjusted(h, b) > b ==> forall i :: b <= i < Adjusted(h, b) ==> h[i].ToolResult?
    ensures 0 < Adjusted(h, b) < b ==> h[Adjusted(h, b)].Assistant?
    ensures Adjusted(h, b) < b ==> forall i :: Adjusted(h, b) < i < b ==> !h[i].Assistant?
    ensures 0 < Adjusted(h, b) < |h| ==> !h[Adjusted(h, b)].ToolResult?
  {
  }

  /** The estimated size of the first `n` messages. */
  function Estimate(h: seq<Message>, chars: Message -> nat, n: nat): (e: nat)
    requires n <= |h|
  {
    if n == 0 then 0 else Estimate(h, chars, n - 1) + chars(h[n - 1]) / 4
  }

  /** The first index at which the running estimate, kept in 32 bits, reaches the target. */
  function FirstReaching(h: seq<Message>, chars: Message -> nat, target: nat, i: nat, sum: nat): (r: nat)
    requires i <= |h|
    ensures i <= r <= |h|
    decreases |h| - i
  {
    if i == |h| then i
    else
      var next := (sum + chars(h[i]) / 4 % U32) % U32;
      if next >= target then i else FirstReaching(h, chars, target, i + 1, next)
  }

  lemma {:induction false} SumOfParts(a: nat, b: nat)
    ensures (a % U32 + b % U32) % U32 == (a + b) % U32
  {
  }

  predicate Reaches(h: seq<Message>, chars: Message -> nat, target: nat, n: nat)
    requires n <= |h|
  {
    Estimate(h, chars, n) % U32 >= target
  }

  lemma {:induction false} ReachesFrom(h: seq<Message>, chars: Message -> nat, target: nat, i: nat)
    requires i <= |h|
    ensures var r := FirstReaching(h, chars, target, i, Estimate(h, chars, i) % U32);
            && (forall n :: i < n <= r ==> !Reaches(h, chars, target, n))
            && (r < |h| ==> Reaches(h, chars, target, r + 1))
    decreases |h| - i
  {
    if i < |h| {
      SumOfParts(Estimate(h, chars, i), chars(h[i]) / 4);
      ReachesFrom(h, chars, target, i + 1);
    }
  }

  /** The estimate stays below the target before the chosen message and reaches it there. */
  lemma {:induction false} FirstReachingIsFirst(h: seq<Message>, chars: Message -> nat, target: nat)
    ensures var r := FirstReaching(h, chars, target, 0, 0);
            && (forall n :: 0 < n <= r ==> !Reaches(h, chars, target, n))
            && (r < |h| ==> Reaches(h, chars, target, r + 1))
  {
    ReachesFrom(h, chars, target, 0);
  }

  function Selected(h: seq<Message>, chars: Message -> nat, target: nat): (b: nat)
  {
    var i := FirstReaching(h, chars, target, 0, 0);
    var b := if i < |h| then Adjusted(h, i + 1) else 0;
    if b == 0 && h != [] then Adjusted(h, |h| / 2) else b
  }

  method SelectSummarizationBoundary(h: seq<Message>, chars: Message -> nat, target: nat) returns (boundary: nat)
    ensures boundary == Selected(h, chars, target)
  {
    var sum: nat := 0;
    boundary := 0;
    var i := 0;
    while i < |h|
      invariant 0 <= i <= |h|
      invariant FirstReaching(h, chars, target, 0, 0) == FirstReaching(h, chars, target, i, sum)
      invariant boundary == 0
    {
      sum := (sum + chars(h[i]) / 4 % U32) % U32;
      if sum >= target {
        boundary := AdjustBoundaryForToolPairs(h, i + 1);
        break;
      }
      i := i + 1;
    }
    if boundary == 0 && h != [] {
      boundary := AdjustBoundaryForToolPairs(h, |h| / 2);
    }
  }

  /** For every history, size estimate and target: the boundary is in range, and never in front of a
      tool result when something is left on both sides. */
  lemma {:induction false} BoundaryNeverCutsAGroup(h: seq<Message>, chars: Message -> nat, target: nat)
    ensures Selected(h, chars, target) <= |h|
    ensures 0 < Selected(h, chars, target) < |h| ==> !h[Selected(h, chars, target)].ToolResult?
    ensures Grouped(h) && Selected(h, chars, target) > 0 ==> Grouped(h[Selected(h, chars, target)..])
  {
    var i := FirstReaching(h, chars, target, 0, 0);
    if i < |h| {
      AdjustedStaysInGroup(h, i + 1);
    }
    AdjustedStaysInGroup(h, |h| / 2);
    if Grouped(h) {
      GroupedCut(h, Selected(h, chars, target));
    }
  }

  lemma {:induction false} NotBefore(h: seq<Message>, chars: Message -> nat, target: nat, a: nat, b: nat)
    requires a < |h| && b <= |h| && Reaches(h, chars, target, a + 1)
    requires forall n :: 0 < n <= b ==> !Reaches(h, chars, target, n)
    ensures a >= b
  {
  }

  /** The boundary follows the message that brings the estimate to the target, moved off tool results; if there is
      no such message, or nothing is left in front, it stands in the middle instead, moved likewise. */
  lemma {:induction false} BoundaryReachesTarget(h: seq<Message>, chars: Message -> nat, target: nat, r: nat)
    requires r < |h| && Reaches(h, chars, target, r + 1)
    requires forall n :: 0 < n <= r ==> !Reaches(h, chars, target, n)
    ensures Adjusted(h, r + 1) > 0 ==> Selected(h, chars, target) == Adjusted(h, r + 1)
    ensures Adjusted(h, r + 1) == 0 ==> Selected(h, chars, target) == Adjusted(h, |h| / 2)
  {
    var first := FirstReaching(h, chars, target, 0, 0);
    FirstReachingIsFirst(h, chars, target);
    NotBefore(h, chars, target, r, first);
    NotBefore(h, chars, target, first, r);
  }

  lemma {:induction false} BoundaryFallsBack(h: seq<Message>, chars: Message -> nat, target: nat)
    requires forall n :: 0 < n <= |h| ==> !Reaches(h, chars, target, n)
    ensures Selected(h, chars, target) == if h == [] then 0 else Adjusted(h, |h| / 2)
  {
    FirstReachingIsFirst(h, chars, target);
  }

  /** Without tool results in it, every history of two messages or more has something to summarise. */
  lemma {:induction false} BoundaryExists(h: seq<Message>, chars: Message -> nat, target: nat)
    requires |h| >= 2 && forall i :: 0 <= i < |h| ==> !h[i].ToolResult?
    ensures Selected(h, chars, target) > 0
  {
    var i := FirstReaching(h, chars, target, 0, 0);
    if i < |h| {
      AdjustedStaysInGroup(h, i + 1);
    }
    AdjustedStaysInGroup(h, |h| / 2);
  }

  // ---------------------------------------------------------------------------
  // Folding summaries into the prompt
  // ---------------------------------------------------------------------------

  function LeadingSummaries(h: seq<Message>): (n: nat)
    ensures n <= |h|
    ensures forall i :: 0 <= i < n ==> h[i].Summary?
    ensures n < |h| ==> !h[n].Summary?
  {
    if h == [] || !h[0].Summary? then 0 else 1 + LeadingSummaries(h[1..])
  }

  function Visible(h: seq<Message>): (r: seq<Message>)
  {
    h[LeadingSummaries(h)..]
  }

  function JoinTexts(texts: seq<string>): (r: string)
  {
    if texts == [] then "" else if |texts| == 1 then texts[0] else texts[0] + "\n\n" + JoinTexts(texts[1..])
  }

  function SummaryTexts(h: seq<Message>, n: nat): (r: seq<string>)
    requires n <= |h| && forall i :: 0 <= i < n ==> h[i].Summary?
  {
    seq(n, i requires 0 <= i < n => h[i].text)
  }

  const SUMMARY_HEADER := "[Previous conversation summary]\n"

  function FoldedPrompt(h: seq<Message>, prompt: string): (r: string)
  {
    var n := LeadingSummaries(h);
    if n == 0 then prompt
    else SUMMARY_HEADER + JoinTexts(SummaryTexts(h, n)) + "\n\n" + prompt
  }

  method FoldSummariesIntoPrompt(h: seq<Message>, prompt: string) returns (messages: seq<Message>, system: string)
    ensures messages == Visible(h)
    ensures system == FoldedPrompt(h, prompt)
  {
    var texts: seq<string> := [];
    var first := 0;
    while first < |h| && h[first].Summary?
      invariant 0 <= first <= |h|
      invariant forall i :: 0 <= i < first ==> h[i].Summary?
      invariant texts == SummaryTexts(h, first)
    {
      texts := texts + [h[first].text];
      first := first + 1;
    }
    assert first == LeadingSummaries(h);
    if texts == [] {
      system := prompt;
    } else {
      system := SUMMARY_HEADER + JoinTexts(texts) + "\n\n" + prompt;
    }
    messages := h[first..];
  }

  /** `text` stands in `s` at `at`. */
  predicate StandsAt(s: string, text: string, at: nat)
  {
    at + |text| <= |s| && s[at..at + |text|] == text
  }

  /** The texts stand in `s` at the given places, none overlapping the next, the last one ending by `end`. */
  predicate InOrder(s: string, texts: seq<string>, at: seq<nat>, end: nat)
  {
    && |at| == |texts|
    && (forall i :: 0 <= i < |texts| ==> StandsAt(s, texts[i], at[i]) && at[i] + |texts[i]| <= end)
    && (forall i, j :: 0 <= i < j < |texts| ==> at[i] + |texts[i]| <= at[j])
  }

  function Shifted(at: seq<nat>, n: nat): (r: seq<nat>)
    ensures |r| == |at| && forall i :: 0 <= i < |at| ==> r[i] == n + at[i]
  {
    seq(|at|, i requires 0 <= i < |at| => n + at[i])
  }

  lemma {:induction false} StandsWithin(s: string, text: string, at: nat, before: string, after: string)
    requires StandsAt(s, text, at)
    ensures StandsAt(before + s + after, text, |before| + at)
  {
    var whole := before + s + after;
    assert whole[|before| + at..|before| + at + |text|] == s[at..at + |text|];
  }

  lemma {:induction false} OrderWithin(s: string, texts: seq<string>, at: seq<nat>, before: string, after: string)
    requires InOrder(s, texts, at, |s|)
    ensures InOrder(before + s + after, texts, Shifted(at, |before|), |before| + |s|)
  {
    forall i | 0 <= i < |texts|
      ensures StandsAt(before + s + after, texts[i], Shifted(at, |before|)[i])
    {
      StandsWithin(s, texts[i], at[i], before, after);
    }
  }

  /** A text in front of others that stand behind it. */
  lemma {:induction false} OrderFrom(s: string, text: string, texts: seq<string>, at: seq<nat>, end: nat)
    requires InOrder(s, texts, at, end) && StandsAt(s, text, 0) && |text| <= end
    requires forall i :: 0 <= i < |at| ==> |text| <= at[i]
    ensures InOrder(s, [text] + texts, [0] + at, end)
  {
  }

  lemma {:induction false} TextsInJoin(texts: seq<string>) returns (at: seq<nat>)
    ensures InOrder(JoinTexts(texts), texts, at, |JoinTexts(texts)|)
  {
    if texts == [] {
      at := [];
    } else if |texts| == 1 {
      at := [0];
    } else {
      var front, tail := texts[0] + "\n\n", JoinTexts(texts[1..]);
      var rest := TextsInJoin(texts[1..]);
      OrderWithin(tail, texts[1..], rest, front, "");
      assert front + tail + "" == JoinTexts(texts);
      assert StandsAt(JoinTexts(texts), texts[0], 0);
      OrderFrom(JoinTexts(texts), texts[0], texts[1..], Shifted(rest, |front|), |JoinTexts(texts)|);
      assert [texts[0]] + texts[1..] == texts;
      at := [0] + Shifted(rest, |front|);
    }
  }

  /** The prompt the model gets ends with the configured one; in front of it stands the text of every leading summary,
      in order, and nothing is added when there is none. */
  lemma {:induction false} PromptHoldsSummaries(h: seq<Message>, prompt: string) returns (at: seq<nat>)
    ensures LeadingSummaries(h) == 0 ==> FoldedPrompt(h, prompt) == prompt
    ensures var r := FoldedPrompt(h, prompt);
            && |prompt| <= |r| && r[|r| - |prompt|..] == prompt
            && InOrder(r, SummaryTexts(h, LeadingSummaries(h)), at, |r| - |prompt|)
  {
    var n := LeadingSummaries(h);
    if n == 0 {
      at := [];
    } else {
      var texts := SummaryTexts(h, n);
      var inner := TextsInJoin(texts);
      OrderWithin(JoinTexts(texts), texts, inner, SUMMARY_HEADER, "\n\n" + prompt);
      Associate(SUMMARY_HEADER + JoinTexts(texts), "\n\n", prompt);
      at := Shifted(inner, |SUMMARY_HEADER|);
    }
  }

  lemma {:induction false} SummariesBeyond(h: seq<Message>, n: nat)
    requires n <= |h| && (n < |h| ==> !h[n].Summary?)
    requires forall i :: 0 <= i < n ==> h[i].Summary?
    ensures SummaryFree(h[n..]) <==> forall i, j :: 0 <= i < j < |h| && h[j].Summary? ==> h[i].Summary?
    ensures SummaryOnlyFirst(h) ==> SummaryFree(h[n..])
  {
    var tail := h[n..];
    assert forall j :: n <= j < |h| ==> h[j] == tail[j - n];
    if !SummaryFree(tail) {
      var k :| 0 <= k < |tail| && tail[k].Summary?;
      assert h[n + k].Summary? && !h[n].Summary?;
    }
  }

  /** Folding keeps summaries from the model exactly when they all stand at the front. */
  lemma {:induction false} FoldRemovesLeadingOnly(h: seq<Message>)
    ensures SummaryFree(Visible(h)) <==> forall i, j :: 0 <= i < j < |h| && h[j].Summary? ==> h[i].Summary?
    ensures SummaryOnlyFirst(h) ==> SummaryFree(Visible(h))
  {
    SummariesBeyond(h, LeadingSummaries(h));
  }

  lemma {:induction false} FoldKeepsConversation(h: seq<Message>)
    ensures NonSummary(Visible(h)) == NonSummary(h)
  {
    var n := LeadingSummaries(h);
    NonSummaryOfCut(h, n);
    NonSummaryOfSummaries(h[..n]);
  }

  lemma {:induction false} NonSummaryOfSummaries(ms: seq<Message>)
    requires forall i :: 0 <= i < |ms| ==> ms[i].Summary?
    ensures NonSummary(ms) == []
  {
    if ms != [] {
      NonSummaryOfSummaries(ms[1..]);
    }
  }

  // ---------------------------------------------------------------------------
  // Preparing a request
  // ---------------------------------------------------------------------------

  function TotalChars(ms: seq<Message>, chars: Message -> nat): (n: nat)
  {
    if ms == [] then 0 else TotalChars(ms[..|ms| - 1], chars) + chars(ms[|ms| - 1])
  }

  /** Characters add up over messages. */
  lemma {:induction false} TotalCharsAddUp(a: seq<Message>, m: Message, b: seq<Message>, chars: Message -> nat)
    ensures TotalChars(a + [m] + b, chars) == TotalChars(a, chars) + chars(m) + TotalChars(b, chars)
    decreases |b|
  {
    if b == [] {
      assert a + [m] + b == a + [m];
      assert (a + [m])[..|a|] == a;
    } else {
      var n, all := |b| - 1, a + [m] + b;
      TotalCharsAddUp(a, m, b[..n], chars);
      assert all[..|all| - 1] == a + [m] + b[..n] && all[|all| - 1] == b[n];
    }
  }

  /** `last` is the inclusive end of the archived range. */
  datatype Summarization = Summarization(archived: seq<Message>, summary: Message, last: nat)

  datatype Prepared = Prepared(
    messages: seq<Message>,
    systemPrompt: string,
    summarization: Option<Summarization>,
    failed: bool)

  /** What the context manager does not control: the threshold verdict, the token target, the size
      estimate, the summarising model's window, and that model's answer (none when the call fails). */
  datatype Circumstances = Circumstances(
    over: bool,
    target: nat,
    chars: Message -> nat,
    modelMax: nat,
    summaryText: Option<string>)

  /** A cut the manager may make in `h`. */
  predicate SafeCut(h: seq<Message>, end: nat)
  {
    0 < end <= |h| && (end < |h| ==> !h[end].ToolResult?)
  }

  predicate SummarizedAt(h: seq<Message>, s: Summarization, end: nat)
  {
    && SafeCut(h, end)
    && s.archived == h[..end] && s.last == end - 1
    && s.summary.Summary? && s.summary.messagesSummarized == end % U32 && s.summary.sourceRange == (0, end - 1)
  }

  /** The history as the model is to see it: summarised if it was, with leading summaries in the prompt. */
  function Effective(h: seq<Message>, s: Option<Summarization>): (r: seq<Message>)
    requires s.Some? ==> s.value.last < |h|
  {
    match s
    case None => h
    case Some(v) => [v.summary] + h[v.last + 1..]
  }

  /** How much to summarise: nothing, or up to a safe cut that the summarising model can read. */
  function CutPoint(h: seq<Message>, env: Circumstances): (end: nat)
    ensures end == 0 || SafeCut(h, end)
  {
    BoundaryNeverCutsAGroup(h, env.chars, env.target);
    BoundaryNeverCutsAGroup(h, env.chars, env.modelMax * 7 % U32 / 10);
    var first := Selected(h, env.chars, env.target);
    if first > 0 && TotalChars(h[..first], env.chars) / 4 % U32 > env.modelMax * 9 % U32 / 10
    then Selected(h, env.chars, env.modelMax * 7 % U32 / 10)
    else first
  }

  /** The summary made of a history, if one is due and the summarising model delivers. */
  function SummaryOf(h: seq<Message>, env: Circumstances): (s: Option<Summarization>)
    ensures s.Some? ==> SummarizedAt(h, s.value, s.value.last + 1)
  {
    var end := if env.over then CutPoint(h, env) else 0;
    if end > 0 && env.summaryText.Some? && env.summaryText.value != ""
    then Some(Summarization(h[..end], Summary(env.summaryText.value, end % U32, (0, end - 1)), end - 1))
    else None
  }

  /** The boundary for the target is used, unless the text in front of it is estimated above nine tenths of what the
      summarising model can read; then the boundary for seven tenths of that. */
  lemma {:induction false} CutFitsModel(h: seq<Message>, env: Circumstances)
    ensures var first := Selected(h, env.chars, env.target);
            && first <= |h|
            && (TotalChars(h[..first], env.chars) / 4 % U32 <= env.modelMax * 9 % U32 / 10 ==>
                  CutPoint(h, env) == first)
            && (first > 0 && TotalChars(h[..first], env.chars) / 4 % U32 > env.modelMax * 9 % U32 / 10 ==>
                  CutPoint(h, env) == Selected(h, env.chars, env.modelMax * 7 % U32 / 10))
  {
    BoundaryNeverCutsAGroup(h, env.chars, env.target);
  }

  /** A history without tool results that is over the threshold always has a cut. */
  lemma {:induction false} CutExists(h: seq<Message>, env: Circumstances)
    requires |h| >= 2 && forall i :: 0 <= i < |h| ==> !h[i].ToolResult?
    ensures CutPoint(h, env) > 0
  {
    BoundaryExists(h, env.chars, env.target);
    BoundaryExists(h, env.chars, env.modelMax * 7 % U32 / 10);
  }

  /** A summary is due: the history is over the threshold, there is a cut, and the model wrote a text. */
  predicate SummaryDue(h: seq<Message>, env: Circumstances)
  {
    env.over && CutPoint(h, env) > 0 && env.summaryText.Some? && env.summaryText.value != ""
  }

  /** The summary with that text of everything in front of the cut. */
  predicate IsSummaryUpTo(h: seq<Message>, s: Summarization, end: nat, text: string)
  {
    SummarizedAt(h, s, end) && s.summary.text == text
  }

  /** A summary is made exactly when it is due, of exactly the messages in front of the cut. */
  lemma {:induction false} SummaryExactlyWhenDue(h: seq<Message>, env: Circumstances)
    ensures SummaryOf(h, env).Some? <==> SummaryDue(h, env)
    ensures SummaryDue(h, env) ==>
              IsSummaryUpTo(h, SummaryOf(h, env).value, CutPoint(h, env), env.summaryText.value)
  {
  }

  method ChooseCut(h: seq<Message>, env: Circumstances) returns (end: nat)
    ensures end == CutPoint(h, env)
  {
    end := SelectSummarizationBoundary(h, env.chars, env.target);
    if end == 0 {
      return;
    }
    BoundaryNeverCutsAGroup(h, env.chars, env.target);
    if TotalChars(h[..end], env.chars) / 4 % U32 > env.modelMax * 9 % U32 / 10 {
      end := SelectSummarizationBoundary(h, env.chars, env.modelMax * 7 % U32 / 10);
    }
  }

  method PrepareContext(h: seq<Message>, prompt: string, env: Circumstances) returns (p: Prepared)
    ensures p.summarization == SummaryOf(h, env)
    ensures p.summarization.Some? <==> SummaryDue(h, env)
    ensures p.summarization.Some? ==>
              IsSummaryUpTo(h, p.summarization.value, CutPoint(h, env), env.summaryText.value)
    ensures p.summarization.None? ==> p.messages == Visible(h)
    ensures p.failed <==> env.over && CutPoint(h, env) > 0 && p.summarization.None?
    ensures p.messages == Visible(Effective(h, p.summarization))
    ensures p.systemPrompt == FoldedPrompt(Effective(h, p.summarization), prompt)
  {
    var end := 0;
    if env.over {
      end := ChooseCut(h, env);
    }
    var succeeded := end > 0 && env.summaryText.Some? && env.summaryText.value != "";
    var summarization := None;
    if succeeded {
      var summary := Summary(env.summaryText.value, end % U32, (0, end - 1));
      summarization := Some(Summarization(h[..end], summary, end - 1));
    }
    var messages, system := FoldSummariesIntoPrompt(Effective(h, summarization), prompt);
    p := Prepared(messages, system, summarization, end > 0 && !succeeded);
  }
}
