/** What trimming, and an answer that left calls open, do to the requests of the turn that follows. */
module NextTurns {
  import opened Options
  import opened Transcripts
  import opened Contexts
  import opened Executors
  import opened PersistentLoops

  /** Memory before it is trimmed, after a turn that succeeded. */
  function Untrimmed(h: seq<Message>, setup: Setup, turn: Turn): (all: seq<Message>)
  {
    Effective(h, Compaction(h, setup, turn)) + TurnOf(h, setup, turn).delta
  }

  /** Where it is trimmed. */
  function Cut(h: seq<Message>, setup: Setup, turn: Turn): (k: nat)
    ensures k <= |Untrimmed(h, setup, turn)|
  {
    TrimPoint(Untrimmed(h, setup, turn), setup.maxHistory)
  }

  lemma {:induction false} MemoryAfter(h: seq<Message>, setup: Setup, turn: Turn)
    requires TurnOf(h, setup, turn).delta != []
    ensures TurnOf(h, setup, turn).history == Untrimmed(h, setup, turn)[Cut(h, setup, turn)..]
    ensures TurnOf(h, setup, turn).delta == Spoken(Shown(h, setup, turn), setup, turn).delta
  {
  }

  lemma {:induction false} TurnRequestsReflect(h: seq<Message>, setup: Setup, turn: Turn)
    requires turn.toolsListed
    ensures AllGrouped(TurnOf(h, setup, turn).requests) <==> Grouped(Shown(h, setup, turn))
    ensures AllAnswered(TurnOf(h, setup, turn).requests) <==> Answered(Shown(h, setup, turn))
  {
    RequestsReflectShown(Shown(h, setup, turn), setup, turn);
  }

  // ---------------------------------------------------------------------------
  // Results without their calls
  // ---------------------------------------------------------------------------

  /** A cut in front of a result orphans it, unless the model is shown a new summary in place of what it is cut
      from: the boundary of a summary never parts a result from its call, so the orphan is summarised away. */
  lemma {:induction false} ShownIsGroupedExactly(all: seq<Message>, k: nat, managed: bool, s: Option<Summarization>)
    requires Grouped(all) && k <= |all| && (s.Some? ==> SummarizedAt(all[k..], s.value, s.value.last + 1))
    ensures Grouped(ShownWith(all[k..], managed, s)) <==> k == |all| || !all[k].ToolResult? || (managed && s.Some?)
  {
    var h := all[k..];
    GroupedCut(all, k);
    if managed && s.Some? {
      SummaryHeals(all, k, s.value);
    } else if managed && Grouped(h) {
      VisibleLaws(h);
    } else if managed {
      assert LeadingSummaries(h) == 0 && h[0..] == h;
    }
  }

  lemma {:induction false} SummaryHeals(all: seq<Message>, k: nat, s: Summarization)
    requires Grouped(all) && k <= |all| && SummarizedAt(all[k..], s, s.last + 1)
    ensures Grouped(Visible(Effective(all[k..], Some(s))))
  {
    var end := s.last + 1;
    assert all[k..][end..] == all[k + end..];
    GroupedCut(all, k + end);
    GroupedAppend([s.summary], all[k + end..]);
    VisibleLaws([s.summary] + all[k + end..]);
  }

  lemma {:induction false} UntrimmedIsGrouped(h: seq<Message>, setup: Setup, turn: Turn)
    requires Grouped(h) && TurnOf(h, setup, turn).delta != []
    ensures Grouped(Untrimmed(h, setup, turn))
  {
    MemoryAfter(h, setup, turn);
    CompactKeepsLaws(h, [], setup, turn);
    SpokenLaws(Shown(h, setup, turn), setup, turn);
    GroupedAppend(Effective(h, Compaction(h, setup, turn)), TurnOf(h, setup, turn).delta);
  }

  /** For every turn that succeeds from a grouped memory, and every turn after it: all its requests keep results
      behind their calls if and only if trimming did not cut in front of a result, or the next turn summarises. */
  lemma {:induction false} NextRequestsAreGroupedExactly(h: seq<Message>, setup: Setup, turn: Turn, next: Turn)
    requires Grouped(h) && TurnOf(h, setup, turn).delta != [] && next.toolsListed
    ensures var all, k := Untrimmed(h, setup, turn), Cut(h, setup, turn);
            AllGrouped(TurnOf(all[k..], setup, next).requests) <==>
            k == |all| || !all[k].ToolResult? || (setup.managed && SummaryOf(all[k..], next.circumstances).Some?)
  {
    var all, k := Untrimmed(h, setup, turn), Cut(h, setup, turn);
    UntrimmedIsGrouped(h, setup, turn);
    TurnRequestsReflect(all[k..], setup, next);
    ShownIsGroupedExactly(all, k, setup.managed, SummaryOf(all[k..], next.circumstances));
  }

  /** The model calls this tool, sees its result and then ends its turn. */
  predicate CallsOnceThenEnds(turn: Turn, use: Block)
    requires use.ToolUse?
  {
    var asked, round := [User(turn.user)], [Assistant([use])] + Results(turn.tools, 1, [use]);
    && turn.model(0, asked) == Response([use], ToolUseStop, 0, 0)
    && turn.model(1, asked + round) == Response([], EndTurn, 0, 0)
  }

  /** The failing family: from an empty memory that keeps two messages, any model that calls a tool, sees its result
      and then ends its turn. The result is the first thing the next turn sends. */
  lemma {:induction false} TrimmingOrphansAResult(setup: Setup, turn: Turn, next: Turn, use: Block)
    requires !setup.managed && setup.maxHistory == 2 && setup.limits.maxIterations >= 2
    requires turn.toolsListed && next.toolsListed && use.ToolUse?
    requires CallsOnceThenEnds(turn, use)
    ensures var r := TurnOf([], setup, turn);
            r.history != [] && r.history[0].ToolResult? && !AllGrouped(TurnOf(r.history, setup, next).requests)
  {
    var asked, round := [User(turn.user)], [Assistant([use])] + Results(turn.tools, 1, [use]);
    var delta := asked + round + [Assistant([])];
    TwoRounds(setup, turn, use);
    OneResult(turn.tools, use);
    TwoAreKept(setup, turn, delta);
    NextRequestsAreGroupedExactly([], setup, turn, next);
  }

  lemma {:induction false} OneResult(tools: Tools, use: Block)
    requires use.ToolUse?
    ensures |Results(tools, 1, [use])| == 1 && Results(tools, 1, [use])[0].ToolResult?
  {
    assert [use][..0] == [] && ToolUses([use]) == [use];
  }

  lemma {:induction false} TwoAreKept(setup: Setup, turn: Turn, delta: seq<Message>)
    requires !setup.managed && setup.maxHistory == 2 && delta == TurnOf([], setup, turn).delta && |delta| == 4
    ensures Untrimmed([], setup, turn) == delta && Cut([], setup, turn) == 2
    ensures TurnOf([], setup, turn).history == delta[2..]
  {
    var none: seq<Message> := [];
    assert none + delta == delta;
    MemoryAfter([], setup, turn);
  }

  lemma {:induction false} TwoRounds(setup: Setup, turn: Turn, use: Block)
    requires !setup.managed && setup.limits.maxIterations >= 2 && turn.toolsListed && use.ToolUse?
    requires CallsOnceThenEnds(turn, use)
    ensures TurnOf([], setup, turn).delta
         == [User(turn.user)] + ([Assistant([use])] + Results(turn.tools, 1, [use])) + [Assistant([])]
  {
    var asked, round := [User(turn.user)], [Assistant([use])] + Results(turn.tools, 1, [use]);
    var none: seq<Message> := [];
    var log: seq<seq<Message>> := [];
    assert none + asked == asked && none + (asked + round) == asked + round;
    FinishAfterTools(turn.model, turn.tools, setup.limits, none, log, asked, Usage(0, 0), turn.model(0, asked));
    FinishWithLastWord(turn.model, turn.tools, setup.limits, none, log + [asked], asked + round, Usage(0, 0),
                       turn.model(1, asked + round));
    assert Shown([], setup, turn) == none;
  }

  // ---------------------------------------------------------------------------
  // Calls without their results
  // ---------------------------------------------------------------------------

  /** All calls have their results, except those of the last message. */
  predicate OpenAtMostLast(all: seq<Message>)
  {
    forall i :: 0 <= i < |all| - 1 ==> CallsAnswered(all, i)
  }

  lemma {:induction false} TailIsAnsweredExactly(all: seq<Message>, k: nat)
    requires OpenAtMostLast(all) && k <= |all|
    ensures Answered(all[k..]) <==> k == |all| || CallsAnswered(all, |all| - 1)
  {
    AnsweredSuffix(all, k);
  }

  /** The open calls are shown unless nothing is left in memory, or a summary covers all of it. */
  lemma {:induction false} ShownIsAnsweredExactly(all: seq<Message>, k: nat, managed: bool, s: Option<Summarization>)
    requires OpenAtMostLast(all) && k < |all| && (s.Some? ==> SummarizedAt(all[k..], s.value, s.value.last + 1))
    ensures Answered(ShownWith(all[k..], managed, s)) <==>
            CallsAnswered(all, |all| - 1) || (managed && s.Some? && k + s.value.last + 1 == |all|)
  {
    var h := all[k..];
    TailIsAnsweredExactly(all, k);
    if managed {
      VisibleIsAnswered(Effective(h, s));
      if s.Some? {
        var end := s.value.last + 1;
        CompactedIsAnswered(h, s.value.summary, end);
        assert h[end..] == all[k + end..];
        TailIsAnsweredExactly(all, k + end);
      }
    }
  }

  lemma {:induction false} LastMayBeOpen(front: seq<Message>, last: Message, all: seq<Message>)
    requires Answered(front) && all == front + [last]
    ensures OpenAtMostLast(all)
    ensures CallsAnswered(all, |all| - 1) <==> (last.Assistant? ==> ToolUses(last.content) == [])
  {
    forall i | 0 <= i < |all| - 1
      ensures CallsAnswered(all, i)
    {
      assert CallsAnswered(front, i);
      CallsAnsweredInPrefix(front, [last], i);
    }
  }

  /** After a turn, calls without results can only be in the last message of memory. */
  lemma {:induction false} OpenCallsAreLastInMemory(h: seq<Message>, user: string, delta: seq<Message>)
    requires Answered(h) && DeltaShape(user, delta) && delta != []
    ensures OpenAtMostLast(h + delta)
    ensures CallsAnswered(h + delta, |h + delta| - 1) <==> !EndsOpen(delta)
  {
    OpenCallsAreLast(user, delta);
    if EndsOpen(delta) {
      var init, last := delta[..|delta| - 1], delta[|delta| - 1];
      AnsweredAppend(h, init);
      assert h + delta == (h + init) + [last];
      LastMayBeOpen(h + init, last, h + delta);
    } else {
      AnsweredAppend(h, delta);
      assert CallsAnswered(h + delta, |h + delta| - 1);
    }
  }

  lemma {:induction false} DeltaFromMessage(h: seq<Message>, setup: Setup, turn: Turn)
    requires TurnOf(h, setup, turn).delta != []
    ensures DeltaShape(turn.user, TurnOf(h, setup, turn).delta)
  {
    MemoryAfter(h, setup, turn);
    SpokenLaws(Shown(h, setup, turn), setup, turn);
  }

  lemma {:induction false} UntrimmedIsOpenAtMostLast(h: seq<Message>, setup: Setup, turn: Turn,
                                                     all: seq<Message>, delta: seq<Message>)
    requires Answered(h) && delta == TurnOf(h, setup, turn).delta && delta != [] && all == Untrimmed(h, setup, turn)
    ensures all != [] && OpenAtMostLast(all) && (CallsAnswered(all, |all| - 1) <==> !EndsOpen(delta))
  {
    EffectiveIsAnswered(h, Compaction(h, setup, turn));
    DeltaFromMessage(h, setup, turn);
    OpenCallsAreLastIn(Effective(h, Compaction(h, setup, turn)), turn.user, delta, all);
  }

  lemma {:induction false} OpenCallsAreLastIn(kept: seq<Message>, user: string, delta: seq<Message>, all: seq<Message>)
    requires Answered(kept) && DeltaShape(user, delta) && delta != [] && all == kept + delta
    ensures OpenAtMostLast(all) && (CallsAnswered(all, |all| - 1) <==> !EndsOpen(delta))
  {
    OpenCallsAreLastInMemory(kept, user, delta);
  }

  /** Whether the calls of the next turn's requests are all answered, from what memory holds. */
  lemma {:induction false} RequestsFromTail(all: seq<Message>, k: nat, setup: Setup, next: Turn)
    requires OpenAtMostLast(all) && k < |all| && next.toolsListed
    ensures var s := SummaryOf(all[k..], next.circumstances);
            AllAnswered(TurnOf(all[k..], setup, next).requests) <==>
            CallsAnswered(all, |all| - 1) || (setup.managed && s.Some? && k + s.value.last + 1 == |all|)
  {
    TurnRequestsReflect(all[k..], setup, next);
    ShownIsAnsweredExactly(all, k, setup.managed, SummaryOf(all[k..], next.circumstances));
  }

  /** For every turn that succeeds from a memory in which all calls have their results, and every turn after it: all
      its requests answer every call if and only if the final answer left none open, or nothing was kept, or the next
      turn summarises all of memory. */
  lemma {:induction false} NextRequestsAreAnsweredExactly(h: seq<Message>, setup: Setup, turn: Turn, next: Turn)
    requires Answered(h) && TurnOf(h, setup, turn).delta != [] && next.toolsListed
    ensures var all, k := Untrimmed(h, setup, turn), Cut(h, setup, turn);
            var s := SummaryOf(all[k..], next.circumstances);
            AllAnswered(TurnOf(all[k..], setup, next).requests) <==>
            || !EndsOpen(TurnOf(h, setup, turn).delta) || k == |all|
            || (setup.managed && s.Some? && k + s.value.last + 1 == |all|)
  {
    var all, k := Untrimmed(h, setup, turn), Cut(h, setup, turn);
    UntrimmedIsOpenAtMostLast(h, setup, turn, all, TurnOf(h, setup, turn).delta);
    if k < |all| {
      RequestsFromTail(all, k, setup, next);
    } else {
      assert all[k..] == [];
      ShownLaws([], setup, next);
      TurnRequestsReflect([], setup, next);
    }
  }
}
