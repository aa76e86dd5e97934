/** Conversation messages, and the two structural facts the runtime relies on: where summaries sit and
    which tool results belong to which assistant message. */
module Transcripts {

  datatype Block =
    | Text(text: string)
    | ToolUse(id: string, name: string, input: string)

  datatype Message =
    | User(text: string)
    | Assistant(content: seq<Block>)
    | ToolResult(toolUseId: string, value: string, isError: bool)
    | Summary(text: string, messagesSummarized: nat, sourceRange: (nat, nat))

  // ---------------------------------------------------------------------------
  // Summaries
  // ---------------------------------------------------------------------------

  /** The conversation itself, without the summaries that stand in for parts of it. */
  function NonSummary(ms: seq<Message>): (r: seq<Message>)
  {
    if ms == [] then [] else Unsummarized(ms[0]) + NonSummary(ms[1..])
  }

  function Unsummarized(m: Message): (r: seq<Message>)
  {
    if m.Summary? then [] else [m]
  }

  lemma {:induction false} Associate<T>(a: seq<T>, b: seq<T>, c: seq<T>)
    ensures (a + b) + c == a + (b + c)
  {
  }

  predicate SummaryFree(ms: seq<Message>)
  {
    forall i :: 0 <= i < |ms| ==> !ms[i].Summary?
  }

  predicate SummaryOnlyFirst(ms: seq<Message>)
  {
    forall i :: 0 < i < |ms| ==> !ms[i].Summary?
  }

  lemma {:induction false} NonSummaryOfAppend(a: seq<Message>, b: seq<Message>)
    ensures NonSummary(a + b) == NonSummary(a) + NonSummary(b)
  {
    if a == [] {
      assert a + b == b;
    } else {
      NonSummaryOfAppend(a[1..], b);
      assert (a + b)[1..] == a[1..] + b;
      Associate(Unsummarized(a[0]), NonSummary(a[1..]), NonSummary(b));
    }
  }

  lemma {:induction false} NonSummaryOfFree(ms: seq<Message>)
    requires SummaryFree(ms)
    ensures NonSummary(ms) == ms
  {
    if ms != [] {
      NonSummaryOfFree(ms[1..]);
      assert ms == [ms[0]] + ms[1..];
    }
  }

  lemma {:induction false} NonSummaryOfCut(ms: seq<Message>, k: nat)
    requires k <= |ms|
    ensures NonSummary(ms) == NonSummary(ms[..k]) + NonSummary(ms[k..])
  {
    var a, b := ms[..k], ms[k..];
    NonSummaryOfAppend(a, b);
    assert ms == a + b;
  }

  predicate IsSuffix(a: seq<Message>, b: seq<Message>)
  {
    |a| <= |b| && b[|b| - |a|..] == a
  }

  lemma {:induction false} SuffixOfAppend(a: seq<Message>, b: seq<Message>, more: seq<Message>)
    requires IsSuffix(a, b)
    ensures IsSuffix(a + more, b + more)
  {
    var cut := |b| - |a|;
    assert (b + more)[cut..] == b[cut..] + more;
  }

  lemma {:induction false} SuffixIsTransitive(a: seq<Message>, b: seq<Message>, c: seq<Message>)
    requires IsSuffix(a, b) && IsSuffix(b, c)
    ensures IsSuffix(a, c)
  {
    assert c[|c| - |a|..] == c[|c| - |b|..][|b| - |a|..];
  }

  // ---------------------------------------------------------------------------
  // Tool groups
  // ---------------------------------------------------------------------------

  function ToolUses(content: seq<Block>): (r: seq<Block>)
    ensures forall i :: 0 <= i < |r| ==> r[i].ToolUse?
  {
    if content == [] then []
    else
      var init := ToolUses(content[..|content| - 1]);
      if content[|content| - 1].ToolUse? then init + [content[|content| - 1]] else init
  }

  /** The calls of some content are its call blocks, all of them and in order. */
  lemma {:induction false} ToolUsesAreTheCalls(before: seq<Block>, b: Block, after: seq<Block>)
    ensures ToolUses(before + [b] + after) == ToolUses(before) + (if b.ToolUse? then [b] else []) + ToolUses(after)
    decreases |after|
  {
    if after == [] {
      assert before + [b] + after == before + [b];
      assert (before + [b])[..|before|] == before;
    } else {
      var n, all := |after| - 1, before + [b] + after;
      ToolUsesAreTheCalls(before, b, after[..n]);
      assert all[..|all| - 1] == before + [b] + after[..n] && all[|all| - 1] == after[n];
    }
  }

  /** The nearest message before `i` that is not a tool result, or -1. */
  function Owner(ms: seq<Message>, i: nat): (j: int)
    requires i <= |ms|
    ensures -1 <= j < i && (j >= 0 ==> !ms[j].ToolResult?)
    ensures forall k :: j < k < i ==> ms[k].ToolResult?
  {
    if i == 0 then -1 else if !ms[i - 1].ToolResult? then i - 1 else Owner(ms, i - 1)
  }

  lemma {:induction false} OwnerIs(ms: seq<Message>, i: nat, j: int)
    requires i <= |ms| && -1 <= j < i && (j >= 0 ==> !ms[j].ToolResult?)
    requires forall k :: j < k < i ==> ms[k].ToolResult?
    ensures Owner(ms, i) == j
  {
  }

  /** A tool result answers, in order, one of the calls of the assistant message that opens its group. */
  predicate Answers(ms: seq<Message>, i: nat)
    requires i < |ms|
  {
    ms[i].ToolResult? ==>
      var j := Owner(ms, i);
      && j >= 0 && ms[j].Assistant?
      && i - j - 1 < |ToolUses(ms[j].content)|
      && ToolUses(ms[j].content)[i - j - 1].id == ms[i].toolUseId
  }

  /** Every tool result follows its assistant message, nothing but results in between. */
  predicate Grouped(ms: seq<Message>)
  {
    forall i :: 0 <= i < |ms| ==> Answers(ms, i)
  }

  lemma {:induction false} AnswersInSuffix(ms: seq<Message>, k: nat, i: nat)
    requires k <= i < |ms| && !ms[k].ToolResult?
    ensures Answers(ms, i) <==> Answers(ms[k..], i - k)
  {
    var tail := ms[k..];
    assert tail[i - k] == ms[i];
    if i > k {
      var j := Owner(ms, i);
      assert j >= k;
      assert tail[j - k] == ms[j];
      OwnerIs(tail, i - k, j - k);
    }
  }

  /** Where a grouped conversation may be cut: exactly not in front of a tool result. */
  lemma {:induction false} GroupedCut(ms: seq<Message>, k: nat)
    requires Grouped(ms) && k <= |ms|
    ensures Grouped(ms[k..]) <==> k == |ms| || !ms[k].ToolResult?
  {
    var tail := ms[k..];
    if k < |ms| {
      if ms[k].ToolResult? {
        assert tail[0].ToolResult? && !Answers(tail, 0);
      } else {
        forall i | 0 <= i < |tail|
          ensures Answers(tail, i)
        {
          AnswersInSuffix(ms, k, i + k);
        }
      }
    }
  }

  lemma {:induction false} GroupedAppend(a: seq<Message>, b: seq<Message>)
    requires Grouped(a) && Grouped(b)
    ensures Grouped(a + b)
  {
    var ms := a + b;
    forall i | 0 <= i < |ms|
      ensures Answers(ms, i)
    {
      if i < |a| {
        assert Answers(a, i);
        OwnerIs(ms, i, Owner(a, i));
      } else {
        var k := i - |a|;
        assert Answers(b, k);
        if b[k].ToolResult? {
          var j := Owner(b, k);
          assert ms[j + |a|] == b[j];
          OwnerIs(ms, i, j + |a|);
        }
      }
    }
  }

  lemma {:induction false} GroupedPrefix(ms: seq<Message>, k: nat)
    requires Grouped(ms) && k <= |ms|
    ensures Grouped(ms[..k])
  {
    forall i | 0 <= i < k
      ensures Answers(ms[..k], i)
    {
      assert Answers(ms, i);
      OwnerIs(ms[..k], i, Owner(ms, i));
    }
  }

  // ---------------------------------------------------------------------------
  // The converse: calls with their results
  // ---------------------------------------------------------------------------

  predicate ResultsOf(uses: seq<Block>, results: seq<Message>)
    requires forall i :: 0 <= i < |uses| ==> uses[i].ToolUse?
  {
    |results| == |uses| && forall j :: 0 <= j < |uses| ==> results[j].ToolResult? && results[j].toolUseId == uses[j].id
  }

  /** The calls of an assistant message are answered right behind it, one result each, in order. */
  predicate CallsAnswered(ms: seq<Message>, i: nat)
    requires i < |ms|
  {
    ms[i].Assistant? ==>
      var uses := ToolUses(ms[i].content);
      i + |uses| < |ms| && ResultsOf(uses, ms[i + 1..i + 1 + |uses|])
  }

  predicate Answered(ms: seq<Message>)
  {
    forall i :: 0 <= i < |ms| ==> CallsAnswered(ms, i)
  }

  /** Only what follows a message matters to it, so no cut from the front leaves a call without its results. */
  lemma {:induction false} CallsAnsweredInSuffix(ms: seq<Message>, k: nat, i: nat)
    requires k <= i < |ms|
    ensures CallsAnswered(ms[k..], i - k) <==> CallsAnswered(ms, i)
  {
    var tail := ms[k..];
    if ms[i].Assistant? {
      var n := |ToolUses(ms[i].content)|;
      if i + n < |ms| {
        assert tail[i - k + 1..i - k + 1 + n] == ms[i + 1..i + 1 + n];
      }
    }
  }

  lemma {:induction false} AnsweredSuffix(ms: seq<Message>, k: nat)
    requires k <= |ms|
    ensures Answered(ms[k..]) <==> forall i :: k <= i < |ms| ==> CallsAnswered(ms, i)
    ensures Answered(ms) ==> Answered(ms[k..])
  {
    var tail := ms[k..];
    if Answered(tail) {
      forall i | k <= i < |ms|
        ensures CallsAnswered(ms, i)
      {
        assert CallsAnswered(tail, i - k);
        CallsAnsweredInSuffix(ms, k, i);
      }
    }
    if forall i :: k <= i < |ms| ==> CallsAnswered(ms, i) {
      forall i | 0 <= i < |tail|
        ensures CallsAnswered(tail, i)
      {
        CallsAnsweredInSuffix(ms, k, k + i);
      }
    }
  }

  /** What follows never takes a message's results away, and supplies none unless it begins with one. */
  lemma {:induction false} CallsAnsweredInPrefix(a: seq<Message>, b: seq<Message>, i: nat)
    requires i < |a|
    ensures CallsAnswered(a, i) ==> CallsAnswered(a + b, i)
    ensures (b == [] || !b[0].ToolResult?) && CallsAnswered(a + b, i) ==> CallsAnswered(a, i)
  {
    var ms := a + b;
    if a[i].Assistant? {
      var n := |ToolUses(a[i].content)|;
      if i + n < |a| {
        assert ms[i + 1..i + 1 + n] == a[i + 1..i + 1 + n];
      } else if i + n < |ms| {
        var results := ms[i + 1..i + 1 + n];
        assert results[|a| - i - 1] == b[0];
      }
    }
  }

  /** Calls are answered in a concatenation exactly when they are in both parts, provided that the second part does
      not begin with a result. */
  lemma {:induction false} AnsweredAppend(a: seq<Message>, b: seq<Message>)
    ensures Answered(a) && Answered(b) ==> Answered(a + b)
    ensures (b == [] || !b[0].ToolResult?) && Answered(a + b) ==> Answered(a) && Answered(b)
  {
    var ms := a + b;
    assert ms[|a|..] == b;
    AnsweredSuffix(ms, |a|);
    forall i | 0 <= i < |a|
      ensures CallsAnswered(a, i) ==> CallsAnswered(ms, i)
      ensures (b == [] || !b[0].ToolResult?) && CallsAnswered(ms, i) ==> CallsAnswered(a, i)
    {
      CallsAnsweredInPrefix(a, b, i);
    }
  }

  lemma {:induction false} AnsweredOne(m: Message)
    ensures Answered([m]) <==> m.Assistant? ==> ToolUses(m.content) == []
  {
    assert Answered([m]) <==> CallsAnswered([m], 0);
  }

  // ---------------------------------------------------------------------------
  // Rounds: an assistant message followed by one result per call
  // ---------------------------------------------------------------------------

  predicate IsRound(ms: seq<Message>)
  {
    && ms != [] && ms[0].Assistant?
    && |ms| == 1 + |ToolUses(ms[0].content)|
    && forall i :: 0 < i < |ms| ==> ms[i].ToolResult? && ms[i].toolUseId == ToolUses(ms[0].content)[i - 1].id
  }

  predicate Rounds(ms: seq<Message>)
  {
    if ms == [] then true
    else if !ms[0].Assistant? then false
    else
      var n := 1 + |ToolUses(ms[0].content)|;
      n <= |ms| && IsRound(ms[..n]) && Rounds(ms[n..])
  }

  lemma {:induction false} RoundsAppend(a: seq<Message>, b: seq<Message>)
    requires Rounds(a) && IsRound(b)
    ensures Rounds(a + b)
  {
    if a == [] {
      assert a + b == b;
      var n := |b|;
      assert b[..n] == b && b[n..] == [];
    } else {
      var n := 1 + |ToolUses(a[0].content)|;
      RoundsAppend(a[n..], b);
      assert (a + b)[..n] == a[..n];
      assert (a + b)[n..] == a[n..] + b;
    }
  }

  lemma {:induction false} RoundIsGrouped(ms: seq<Message>)
    requires IsRound(ms)
    ensures Grouped(ms) && SummaryFree(ms) && Answered(ms)
  {
    forall i | 0 <= i < |ms|
      ensures Answers(ms, i)
    {
      if i > 0 {
        OwnerIs(ms, i, 0);
      }
    }
  }

  lemma {:induction false} RoundsAreGrouped(ms: seq<Message>)
    requires Rounds(ms)
    ensures Grouped(ms) && SummaryFree(ms) && Answered(ms)
  {
    if ms != [] {
      var n := 1 + |ToolUses(ms[0].content)|;
      RoundIsGrouped(ms[..n]);
      RoundsAreGrouped(ms[n..]);
      GroupedAppend(ms[..n], ms[n..]);
      AnsweredAppend(ms[..n], ms[n..]);
      assert ms == ms[..n] + ms[n..];
    }
  }
}
