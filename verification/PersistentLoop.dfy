/** The persistent agent loop: summarise, archive, drain, replace, converse, trim, append. */
module PersistentLoops {
  import opened Options
  import opened Transcripts
  import opened Contexts
  import opened Executors
  import opened SessionStores

  datatype Setup = Setup(prompt: string, maxHistory: nat, managed: bool, limits: Limits)

  /** One incoming message and everything the environment decides while it is handled. */
  datatype Turn = Turn(
    user: string,
    circumstances: Circumstances,
    archiveWritable: bool,
    archiveLeavesPart: bool,
    replaceFault: Option<nat>,
    appendFault: Option<nat>,
    toolsListed: bool,
    model: Model,
    tools: Tools)

  // ---------------------------------------------------------------------------
  // Laws of the single steps
  // ---------------------------------------------------------------------------

  /** Putting a summary in place of a prefix keeps the rest, keeps groups whole, and keeps summaries
      at the front. */
  lemma {:induction false} CompactionLaws(h: seq<Message>, summary: Message, end: nat)
    requires SafeCut(h, end) && summary.Summary?
    ensures NonSummary(h) == NonSummary(h[..end]) + NonSummary([summary] + h[end..])
    ensures SummaryOnlyFirst(h) ==> SummaryOnlyFirst([summary] + h[end..])
    ensures Grouped(h) ==> Grouped([summary] + h[end..])
  {
    NonSummaryOfCut(h, end);
    SummaryAddsNothing(summary, h[end..]);
    if Grouped(h) {
      GroupedCut(h, end);
      GroupedAppend([summary], h[end..]);
    }
  }

  lemma {:induction false} SummaryAddsNothing(summary: Message, rest: seq<Message>)
    requires summary.Summary?
    ensures NonSummary([summary] + rest) == NonSummary(rest)
  {
    var ms := [summary] + rest;
    assert ms[1..] == rest && Unsummarized(ms[0]) == [];
    assert [] + NonSummary(rest) == NonSummary(rest);
  }

  lemma {:induction false} VisibleLaws(h: seq<Message>)
    ensures SummaryOnlyFirst(h) ==> SummaryFree(Visible(h))
    ensures Grouped(h) ==> Grouped(Visible(h))
  {
    FoldRemovesLeadingOnly(h);
    var n := LeadingSummaries(h);
    if Grouped(h) && n < |h| {
      assert Answers(h, n);
      OwnerIs(h, n, n - 1);
      GroupedCut(h, n);
    } else if Grouped(h) {
      GroupedCut(h, n);
    }
  }

  /** Hiding the leading summaries answers no call and leaves none without its results. */
  lemma {:induction false} VisibleIsAnswered(h: seq<Message>)
    ensures Answered(Visible(h)) <==> Answered(h)
  {
    AnsweredSuffix(h, LeadingSummaries(h));
  }

  /** After a summary took the place of a prefix, the calls with results are those of the rest. */
  lemma {:induction false} CompactedIsAnswered(h: seq<Message>, summary: Message, end: nat)
    requires summary.Summary? && end <= |h|
    ensures Answered([summary] + h[end..]) <==> Answered(h[end..])
    ensures Answered(h) ==> Answered([summary] + h[end..])
  {
    var next := [summary] + h[end..];
    assert next[1..] == h[end..];
    AnsweredSuffix(next, 1);
    AnsweredSuffix(h, end);
  }

  lemma {:induction false} EffectiveIsAnswered(h: seq<Message>, s: Option<Summarization>)
    requires s.Some? ==> SummarizedAt(h, s.value, s.value.last + 1)
    ensures Answered(h) ==> Answered(Effective(h, s)) && Answered(Visible(Effective(h, s)))
  {
    if s.Some? {
      CompactedIsAnswered(h, s.value.summary, s.value.last + 1);
    }
    VisibleIsAnswered(Effective(h, s));
  }

  lemma {:induction false} VisibleOfEffective(h: seq<Message>, s: Option<Summarization>)
    requires s.Some? ==> SummarizedAt(h, s.value, s.value.last + 1)
    ensures SummaryOnlyFirst(h) ==> SummaryFree(Visible(Effective(h, s)))
    ensures Grouped(h) ==> Grouped(Visible(Effective(h, s)))
  {
    VisibleLaws(Effective(h, s));
    if s.Some? {
      CompactionLaws(h, s.value.summary, s.value.last + 1);
    }
  }

  /** What is left of a history trimmed to `max` messages. */
  function TrimPoint(h: seq<Message>, max: nat): (k: nat)
    ensures k <= |h| && |h| - k <= max
    ensures k > 0 ==> |h| - k == max
  {
    if |h| > max then |h| - max else 0
  }

  lemma {:induction false} SummaryFirstOfAppend(h: seq<Message>, delta: seq<Message>)
    requires SummaryOnlyFirst(h) && SummaryFree(delta)
    ensures SummaryOnlyFirst(h + delta)
  {
  }

  /** Trimming drops a prefix, so it never moves a summary away from the front, and it keeps tool
      groups whole exactly when it does not cut in front of a tool result. */
  lemma {:induction false} TrimLaws(h: seq<Message>, k: nat)
    requires k <= |h|
    ensures SummaryOnlyFirst(h) ==> SummaryOnlyFirst(h[k..])
    ensures NonSummary(h) == NonSummary(h[..k]) + NonSummary(h[k..])
    ensures Grouped(h) ==> (Grouped(h[k..]) <==> k == |h| || !h[k].ToolResult?)
  {
    NonSummaryOfCut(h, k);
    if Grouped(h) {
      GroupedCut(h, k);
    }
  }

  // ---------------------------------------------------------------------------
  // Before the model is called
  // ---------------------------------------------------------------------------

  /** Does an operation of `n` steps finish, when a fault may stop it before one of them? */
  predicate Completes(fault: Option<nat>, n: nat)
  {
    fault.None? || fault.value >= n
  }

  /** The summary that replaces a prefix of memory this turn: it must be due, made, and its prefix archived. */
  function Compaction(h: seq<Message>, setup: Setup, turn: Turn): (s: Option<Summarization>)
    ensures s.Some? ==> SummarizedAt(h, s.value, s.value.last + 1)
  {
    if setup.managed && turn.archiveWritable then SummaryOf(h, turn.circumstances) else None
  }

  /** What the model is shown. A summary that could not be archived is shown all the same. */
  function Shown(h: seq<Message>, setup: Setup, turn: Turn): (r: seq<Message>)
  {
    ShownWith(h, setup.managed, SummaryOf(h, turn.circumstances))
  }

  function ShownWith(h: seq<Message>, managed: bool, s: Option<Summarization>): (r: seq<Message>)
    requires s.Some? ==> s.value.last < |h|
  {
    if managed then Visible(Effective(h, s)) else h
  }

  /** The prompt that goes with it. */
  function PromptShown(h: seq<Message>, setup: Setup, turn: Turn): (r: string)
  {
    if setup.managed then FoldedPrompt(Effective(h, SummaryOf(h, turn.circumstances)), setup.prompt) else setup.prompt
  }

  function ArchivedBy(s: Option<Summarization>): (r: seq<Message>)
  {
    if s.Some? then s.value.archived else []
  }

  function ArchivesAfter(archives: seq<seq<Message>>, h: seq<Message>, setup: Setup, turn: Turn): (r: seq<seq<Message>>)
  {
    var compaction := Compaction(h, setup, turn);
    if compaction.Some? then archives + [compaction.value.archived] else archives
  }

  /** The disk after compaction: rewritten only if the replacement went through. */
  function StoredCompact(stored: seq<Message>, h: seq<Message>, setup: Setup, turn: Turn): (r: seq<Message>)
  {
    var compaction := Compaction(h, setup, turn);
    var kept := Effective(h, compaction);
    if compaction.Some? && Completes(turn.replaceFault, |Program(kept)|) then kept else stored
  }

  /** What a process that is started again finds: the stored lines and the archived segments. */
  datatype Snapshot = Snapshot(stored: seq<Message>, archives: seq<seq<Message>>)

  function Snapshots(points: seq<seq<Message>>, archives: seq<seq<Message>>): (r: seq<Snapshot>)
    ensures |r| == |points|
  {
    seq(|points|, i requires 0 <= i < |points| => Snapshot(points[i], archives))
  }

  /** The stored lines before each call of a replacement, and after the last one performed. */
  function ReplacePoints(stored: seq<Message>, ms: seq<Message>, fault: Option<nat>): (r: seq<seq<Message>>)
  {
    seq(1 + if Completes(fault, |Program(ms)|) then |Program(ms)| else fault.value,
        i => if i < |Program(ms)| then stored else ms)
  }

  /** What is on disk at each point of a turn's compaction. */
  function CompactPoints(stored: seq<Message>, archives: seq<seq<Message>>, h: seq<Message>, setup: Setup, turn: Turn)
    : (r: seq<Snapshot>)
  {
    PointsWith(stored, archives, h, Compaction(h, setup, turn), turn.replaceFault)
  }

  function PointsWith(stored: seq<Message>, archives: seq<seq<Message>>, h: seq<Message>, c: Option<Summarization>,
                      fault: Option<nat>): (r: seq<Snapshot>)
    requires c.Some? ==> c.value.last < |h|
  {
    [Snapshot(stored, archives)] +
    if c.None? then [] else Snapshots(ReplacePoints(stored, Effective(h, c), fault), archives + [c.value.archived])
  }

  lemma {:induction false} TraceShowsPoints(d: Disk, ms: seq<Message>, trace: seq<Disk>, fault: Option<nat>)
    requires TraceOf(d, ms, trace)
    requires |trace| == 1 + if Completes(fault, |Program(ms)|) then |Program(ms)| else fault.value
    ensures seq(|trace|, i requires 0 <= i < |trace| => Lines(trace[i].main)) == ReplacePoints(Lines(d.main), ms, fault)
  {
    forall i | 0 <= i < |trace|
      ensures Lines(trace[i].main) == if i < |Program(ms)| then Lines(d.main) else ms
    {
      ProcessStopDuringReplace(d, ms, i);
    }
  }

  /** Archives first; only then drains the prefix, inserts the summary and rewrites the store. If the
      archive cannot be written nothing changes at all. */
  method ArchiveDrainReplace(store: JsonlSessionStore, h: seq<Message>, s: Summarization, turn: Turn)
    returns (history: seq<Message>, points: seq<Snapshot>)
    requires store.Valid() && s.last < |h|
    modifies store
    ensures store.Valid()
    ensures !turn.archiveWritable ==>
              && history == h && points == []
              && store.archives == old(store.archives) && store.Stored() == old(store.Stored())
    ensures turn.archiveWritable ==>
              && history == [s.summary] + h[s.last + 1..]
              && store.archives == old(store.archives) + [s.archived]
              && (Completes(turn.replaceFault, |Program(history)|) ==> store.Stored() == history)
              && (!Completes(turn.replaceFault, |Program(history)|) ==> store.Stored() == old(store.Stored()))
              && points == Snapshots(ReplacePoints(old(store.Stored()), history, turn.replaceFault), store.archives)
  {
    history, points := h, [];
    var archived := store.ArchiveSegment(s.archived, turn.archiveWritable, turn.archiveLeavesPart);
    if archived {
      history := history[s.last + 1..];
      history := [s.summary] + history;
      ghost var before := store.disk;
      var _, trace := store.Replace(history, turn.replaceFault);
      TraceShowsPoints(before, history, trace, turn.replaceFault);
      points := Snapshots(seq(|trace|, i requires 0 <= i < |trace| => Lines(trace[i].main)), store.archives);
    }
  }

  method Compact(store: JsonlSessionStore, h: seq<Message>, setup: Setup, turn: Turn)
    returns (history: seq<Message>, visible: seq<Message>, gone: seq<Message>, points: seq<Snapshot>, prompt: string)
    requires store.Valid()
    modifies store
    ensures store.Valid()
    ensures history == Effective(h, Compaction(h, setup, turn)) && gone == ArchivedBy(Compaction(h, setup, turn))
    ensures visible == Shown(h, setup, turn) && prompt == PromptShown(h, setup, turn)
    ensures store.archives == ArchivesAfter(old(store.archives), h, setup, turn)
    ensures store.Stored() == StoredCompact(old(store.Stored()), h, setup, turn)
    ensures points == CompactPoints(old(store.Stored()), old(store.archives), h, setup, turn)
  {
    history, visible, gone, prompt := h, h, [], setup.prompt;
    points := [Snapshot(store.Stored(), store.archives)];
    if setup.managed {
      var prepared := PrepareContext(h, setup.prompt, turn.circumstances);
      visible, prompt := prepared.messages, prepared.systemPrompt;
      if prepared.summarization.Some? {
        var more;
        history, more := ArchiveDrainReplace(store, h, prepared.summarization.value, turn);
        points := points + more;
        if turn.archiveWritable {
          gone := prepared.summarization.value.archived;
        }
      }
    }
  }

  /** The disk holds at least the conversation that memory holds. */
  predicate Covered(h: seq<Message>, stored: seq<Message>)
  {
    IsSuffix(NonSummary(h), NonSummary(stored))
  }

  /** A step of memory and disk that moves no summary off the front and separates no result on disk from its call. */
  predicate KeepsOrder(h: seq<Message>, stored: seq<Message>, next: seq<Message>, stored': seq<Message>)
  {
    && (SummaryOnlyFirst(h) ==> SummaryOnlyFirst(next))
    && (SummaryOnlyFirst(h) && SummaryOnlyFirst(stored) ==> SummaryOnlyFirst(stored'))
    && (Grouped(h) && Grouped(stored) ==> Grouped(stored'))
  }

  lemma {:induction false} ShrinkKeepsCover(h: seq<Message>, next: seq<Message>, gone: seq<Message>,
                                            stored: seq<Message>)
    requires NonSummary(h) == NonSummary(gone) + NonSummary(next)
    ensures Covered(h, stored) ==> Covered(next, stored)
    ensures Covered(next, next)
  {
    if Covered(h, stored) {
      assert IsSuffix(NonSummary(next), NonSummary(h));
      SuffixIsTransitive(NonSummary(next), NonSummary(h), NonSummary(stored));
    }
  }

  lemma {:induction false} CompactKeepsLaws(h: seq<Message>, stored: seq<Message>, setup: Setup, turn: Turn)
    ensures var c := Compaction(h, setup, turn);
            var kept, stored' := Effective(h, c), StoredCompact(stored, h, setup, turn);
            && NonSummary(h) == NonSummary(ArchivedBy(c)) + NonSummary(kept)
            && KeepsOrder(h, stored, kept, stored') && (Grouped(h) ==> Grouped(kept))
            && (Covered(h, stored) ==> Covered(kept, stored'))
  {
    var c := Compaction(h, setup, turn);
    if c.Some? {
      CompactionLaws(h, c.value.summary, c.value.last + 1);
    } else {
      assert [] + NonSummary(h) == NonSummary(h);
    }
    ShrinkKeepsCover(h, Effective(h, c), ArchivedBy(c), stored);
  }

  lemma {:induction false} ShownLaws(h: seq<Message>, setup: Setup, turn: Turn)
    ensures setup.managed && SummaryOnlyFirst(h) ==> SummaryFree(Shown(h, setup, turn))
    ensures Grouped(h) ==> Grouped(Shown(h, setup, turn))
    ensures Answered(h) ==> Answered(Shown(h, setup, turn))
  {
    var s := SummaryOf(h, turn.circumstances);
    VisibleOfEffective(h, s);
    EffectiveIsAnswered(h, s);
  }

  // ---------------------------------------------------------------------------
  // Calling the model
  // ---------------------------------------------------------------------------

  predicate AllGrouped(requests: seq<seq<Message>>)
  {
    forall i :: 0 <= i < |requests| ==> Grouped(requests[i])
  }

  predicate AllSummaryFree(requests: seq<seq<Message>>)
  {
    forall i :: 0 <= i < |requests| ==> SummaryFree(requests[i])
  }

  predicate AllAnswered(requests: seq<seq<Message>>)
  {
    forall i :: 0 <= i < |requests| ==> Answered(requests[i])
  }

  /** A turn adds nothing, or the user's message and the rounds that followed it. */
  predicate FromMessage(delta: seq<Message>, user: string)
  {
    delta == [] || DeltaShape(user, delta)
  }

  /** What a run on the shown messages says: whether it failed, what it adds, what it asked. A failed run
      contributes nothing to the history. */
  datatype Speech = Speech(failed: bool, delta: seq<Message>, requests: seq<seq<Message>>)

  function Spoken(shown: seq<Message>, setup: Setup, turn: Turn): (r: Speech)
  {
    if !turn.toolsListed then Speech(true, [], [])
    else
      var (e, log) := Finish(turn.model, turn.tools, setup.limits, shown, [], [User(turn.user)], Usage(0, 0));
      Speech(e.stop.Error?, if e.stop.Error? then [] else e.delta, log)
  }

  method Converse(visible: seq<Message>, setup: Setup, turn: Turn) returns (r: Speech)
    ensures r == Spoken(visible, setup, turn)
  {
    var execution, log := RunWithHistory(setup.limits, visible, turn.user, turn.toolsListed, turn.model, turn.tools);
    r := Speech(execution.stop.Error?, if execution.stop.Error? then [] else execution.delta, log);
  }

  lemma {:induction false} RequestsReflect(prior: seq<Message>, user: string, log: seq<seq<Message>>,
                                           later: seq<Message>)
    requires RequestsWithin(prior, user, log, later) && log != []
    ensures AllGrouped(log) <==> Grouped(prior)
    ensures AllSummaryFree(log) <==> SummaryFree(prior)
    ensures AllAnswered(log) <==> Answered(prior)
  {
    forall i | 0 <= i < |log|
      ensures Grouped(log[i]) <==> Grouped(prior)
      ensures SummaryFree(log[i]) <==> SummaryFree(prior)
      ensures Answered(log[i]) <==> Answered(prior)
    {
      RequestsAreGrouped(prior, user, log[i]);
    }
    assert Grouped(log[0]) <==> Grouped(prior);
    assert SummaryFree(log[0]) <==> SummaryFree(prior);
    assert Answered(log[0]) <==> Answered(prior);
  }

  /** What the model is sent reflects what it is shown: a summary, a result without its call, or a call without its
      results is in some request of the run exactly when it is among the shown messages. */
  lemma {:induction false} RequestsReflectShown(shown: seq<Message>, setup: Setup, turn: Turn)
    requires turn.toolsListed
    ensures var requests := Spoken(shown, setup, turn).requests;
            && requests != []
            && (AllSummaryFree(requests) <==> SummaryFree(shown))
            && (AllGrouped(requests) <==> Grouped(shown))
            && (AllAnswered(requests) <==> Answered(shown))
  {
    var (e, log) := Finish(turn.model, turn.tools, setup.limits, shown, [], [User(turn.user)], Usage(0, 0));
    EveryRunIsDone(turn.model, turn.tools, setup.limits, shown, turn.user);
    RequestsReflect(shown, turn.user, log, shown + e.delta);
  }

  lemma {:induction false} SpokenLaws(shown: seq<Message>, setup: Setup, turn: Turn)
    ensures var r := Spoken(shown, setup, turn);
            && SummaryFree(r.delta) && Grouped(r.delta) && FromMessage(r.delta, turn.user)
            && (r.delta == [] <==> r.failed)
            && (Grouped(shown) ==> AllGrouped(r.requests))
            && (SummaryFree(shown) ==> AllSummaryFree(r.requests))
            && (Answered(shown) ==> AllAnswered(r.requests))
  {
    if turn.toolsListed {
      RequestsReflectShown(shown, setup, turn);
      EveryRunIsDone(turn.model, turn.tools, setup.limits, shown, turn.user);
      var (e, log) := Finish(turn.model, turn.tools, setup.limits, shown, [], [User(turn.user)], Usage(0, 0));
      DeltaIsGrouped(turn.user, e.delta);
    }
  }

  /** What a turn says is a run of the executor on the shown messages. It fails exactly when the tools cannot be listed
      or the model's last answer is a failure; else the turn adds what the run added. */
  lemma {:induction false} SpeechIsARun(shown: seq<Message>, setup: Setup, turn: Turn) returns (e: Execution)
    ensures var r := Spoken(shown, setup, turn);
            && (!turn.toolsListed ==> r.failed && r.requests == [])
            && (turn.toolsListed ==>
                  && Done(turn.model, turn.tools, setup.limits, shown, turn.user, r.requests, e)
                  && (r.failed <==> turn.model(|r.requests| - 1, r.requests[|r.requests| - 1]).Failure?))
            && r.delta == if r.failed then [] else e.delta
  {
    e := Finish(turn.model, turn.tools, setup.limits, shown, [], [User(turn.user)], Usage(0, 0)).0;
    EveryRunIsDone(turn.model, turn.tools, setup.limits, shown, turn.user);
  }

  // ---------------------------------------------------------------------------
  // After the model was called
  // ---------------------------------------------------------------------------

  function Written(delta: seq<Message>, fault: Option<nat>): (r: seq<Message>)
    ensures r <= delta
  {
    if Completes(fault, |delta|) then delta else delta[..fault.value]
  }

  function StoredAppended(stored: seq<Message>, delta: seq<Message>, fault: Option<nat>): (r: seq<Message>)
  {
    stored + Written(delta, fault)
  }

  method Record(store: JsonlSessionStore, h: seq<Message>, delta: seq<Message>, maxHistory: nat, fault: Option<nat>)
    returns (history: seq<Message>, gone: seq<Message>, appended: bool, points: seq<seq<Message>>)
    requires store.Valid()
    modifies store
    ensures store.Valid() && store.archives == old(store.archives)
    ensures var all := h + delta;
            history == all[TrimPoint(all, maxHistory)..] && gone == all[..TrimPoint(all, maxHistory)]
    ensures appended == Completes(fault, |delta|)
    ensures store.Stored() == StoredAppended(old(store.Stored()), delta, fault)
    ensures points == Growth(old(store.Stored()), Written(delta, fault))
  {
    history, gone := h + delta, [];
    var excess := 0;
    if |history| > maxHistory {
      excess := |history| - maxHistory;
      gone := history[..excess];
      history := history[excess..];
    }
    assert excess == TrimPoint(h + delta, maxHistory);
    appended, points := store.Append(delta, fault);
    assert Written(delta, fault) == if appended then delta else delta[..fault.value];
  }

  lemma {:induction false} RecordLaws(h: seq<Message>, delta: seq<Message>, k: nat)
    requires SummaryFree(delta) && Grouped(delta) && k <= |h + delta|
    ensures NonSummary(h) + delta == NonSummary((h + delta)[..k]) + NonSummary((h + delta)[k..])
    ensures SummaryOnlyFirst(h) ==> SummaryOnlyFirst((h + delta)[k..])
    ensures Grouped(h) ==> Grouped(h + delta)
  {
    TrimLaws(h + delta, k);
    NonSummaryOfAppend(h, delta);
    NonSummaryOfFree(delta);
    if SummaryOnlyFirst(h) {
      SummaryFirstOfAppend(h, delta);
    }
    if Grouped(h) {
      GroupedAppend(h, delta);
    }
  }

  lemma {:induction false} StoreLaws(stored: seq<Message>, delta: seq<Message>, n: nat)
    requires SummaryFree(delta) && Grouped(delta) && n <= |delta|
    ensures SummaryOnlyFirst(stored) ==> SummaryOnlyFirst(stored + delta[..n])
    ensures Grouped(stored) ==> Grouped(stored + delta[..n])
  {
    GroupedPrefix(delta, n);
    if Grouped(stored) {
      GroupedAppend(stored, delta[..n]);
    }
  }

  lemma {:induction false} AppendKeepsCover(h: seq<Message>, stored: seq<Message>, delta: seq<Message>, k: nat)
    requires Covered(h, stored) && k <= |h + delta|
    ensures Covered((h + delta)[k..], stored + delta)
  {
    NonSummaryOfAppend(h, delta);
    NonSummaryOfAppend(stored, delta);
    SuffixOfAppend(NonSummary(h), NonSummary(stored), NonSummary(delta));
    NonSummaryOfCut(h + delta, k);
    assert IsSuffix(NonSummary((h + delta)[k..]), NonSummary(h + delta));
    SuffixIsTransitive(NonSummary((h + delta)[k..]), NonSummary(h + delta), NonSummary(stored + delta));
  }

  /** What extending and trimming do to memory. */
  lemma {:induction false} MemoryLaws(h: seq<Message>, delta: seq<Message>, k: nat)
    requires SummaryFree(delta) && Grouped(delta) && k <= |h + delta|
    ensures var all := h + delta;
            && (Grouped(h) && k == 0 ==> Grouped(all[k..]))
            && (Grouped(h) ==> (Grouped(all[k..]) <==> k == |all| || !all[k].ToolResult?))
            && (Answered(h) && Answered(delta) ==> Answered(all[k..]))
  {
    var all := h + delta;
    if Grouped(h) {
      GroupedAppend(h, delta);
      GroupedCut(all, k);
    }
    assert all[0..] == all;
    AnsweredAppend(h, delta);
    AnsweredSuffix(all, k);
  }

  /** What the append, whole or cut short, does to the disk. */
  lemma {:induction false} DiskLaws(h: seq<Message>, stored: seq<Message>, delta: seq<Message>, k: nat,
                                    fault: Option<nat>)
    requires SummaryFree(delta) && Grouped(delta) && k <= |h + delta|
    ensures var stored' := StoredAppended(stored, delta, fault);
            && (SummaryOnlyFirst(stored) ==> SummaryOnlyFirst(stored'))
            && (Grouped(stored) ==> Grouped(stored'))
            && (Completes(fault, |delta|) && Covered(h, stored) ==> Covered((h + delta)[k..], stored'))
  {
    StoreLaws(stored, delta, |Written(delta, fault)|);
    assert delta[..|Written(delta, fault)|] == Written(delta, fault);
    if Completes(fault, |delta|) && Covered(h, stored) {
      AppendKeepsCover(h, stored, delta, k);
    }
  }

  // ---------------------------------------------------------------------------
  // One message
  // ---------------------------------------------------------------------------

  /** `gone` is what left memory this turn, oldest first; `appended` is false when a write fell short. */
  datatype Handled = Handled(
    history: seq<Message>,
    delta: seq<Message>,
    gone: seq<Message>,
    trimmed: bool,
    appended: bool,
    requests: seq<seq<Message>>)

  /** Compact, converse, and on success extend, trim and append. */
  function TurnOf(h: seq<Message>, setup: Setup, turn: Turn): (r: Handled)
  {
    var compaction := Compaction(h, setup, turn);
    var kept, archived := Effective(h, compaction), ArchivedBy(compaction);
    var speech := Spoken(Shown(h, setup, turn), setup, turn);
    if speech.failed then Handled(kept, [], archived, false, true, speech.requests)
    else
      var all := kept + speech.delta;
      var k := TrimPoint(all, setup.maxHistory);
      Handled(all[k..], speech.delta, archived + all[..k], k > 0, Completes(turn.appendFault, |speech.delta|),
              speech.requests)
  }

  function StoredAfter(stored: seq<Message>, h: seq<Message>, setup: Setup, turn: Turn): (r: seq<Message>)
  {
    var compact := StoredCompact(stored, h, setup, turn);
    var speech := Spoken(Shown(h, setup, turn), setup, turn);
    if speech.failed then compact else StoredAppended(compact, speech.delta, turn.appendFault)
  }

  /** What is on disk at each point of a turn, from its start to its end. */
  function TurnPoints(stored: seq<Message>, archives: seq<seq<Message>>, h: seq<Message>, setup: Setup, turn: Turn)
    : (r: seq<Snapshot>)
    ensures r != []
  {
    var speech := Spoken(Shown(h, setup, turn), setup, turn);
    var compact := StoredCompact(stored, h, setup, turn);
    CompactPoints(stored, archives, h, setup, turn) +
    if speech.failed then []
    else Snapshots(Growth(compact, Written(speech.delta, turn.appendFault)), ArchivesAfter(archives, h, setup, turn))
  }

  method HandleMessage(store: JsonlSessionStore, h: seq<Message>, setup: Setup, turn: Turn)
    returns (r: Handled, points: seq<Snapshot>)
    requires store.Valid()
    modifies store
    ensures store.Valid()
    ensures r == TurnOf(h, setup, turn)
    ensures store.Stored() == StoredAfter(old(store.Stored()), h, setup, turn)
    ensures store.archives == ArchivesAfter(old(store.archives), h, setup, turn)
    ensures points == TurnPoints(old(store.Stored()), old(store.archives), h, setup, turn)
  {
    var history, visible, archived, before, _ := Compact(store, h, setup, turn);
    var speech := Converse(visible, setup, turn);
    if speech.failed {
      return Handled(history, [], archived, false, true, speech.requests), before;
    }
    var kept, dropped, appended, after := Record(store, history, speech.delta, setup.maxHistory, turn.appendFault);
    points := before + Snapshots(after, store.archives);
    r := Handled(kept, speech.delta, archived + dropped, dropped != [], appended, speech.requests);
  }

  /** The conversation of a list of archived segments. */
  function Archived(segments: seq<seq<Message>>): (r: seq<Message>)
  {
    if segments == [] then []
    else Archived(segments[..|segments| - 1]) + NonSummary(segments[|segments| - 1])
  }

  lemma {:induction false} ArchivedOfAppend(segments: seq<seq<Message>>, segment: seq<Message>)
    ensures Archived(segments + [segment]) == Archived(segments) + NonSummary(segment)
  {
    assert (segments + [segment])[..|segments|] == segments;
  }

  lemma {:induction false} Regroup<T>(a: seq<T>, m: seq<T>, all: seq<T>, d: seq<T>, b: seq<T>, c: seq<T>)
    requires a + m == all && m + d == b + c
    ensures (a + b) + c == all + d
  {
    assert (a + b) + c == a + (b + c);
    assert a + (m + d) == (a + m) + d;
  }

  /** Trimming cut in front of a tool result, so that memory now begins with it. */
  predicate Orphans(r: Handled)
  {
    r.trimmed && r.history != [] && r.history[0].ToolResult?
  }

  /** Conversations are compared without summaries; `archived` is the text of all archives. */
  predicate Conserves(h: seq<Message>, archived: seq<Message>, r: Handled, archived': seq<Message>)
  {
    && NonSummary(h) + r.delta == NonSummary(r.gone) + NonSummary(r.history)
    && (!r.trimmed ==> archived' == archived + NonSummary(r.gone))
  }

  /** What the model is sent, and what stays in memory for it, when memory was in order. */
  predicate SendsInOrder(managed: bool, h: seq<Message>, r: Handled)
  {
    && (managed && SummaryOnlyFirst(h) ==> AllSummaryFree(r.requests))
    && (Grouped(h) ==> AllGrouped(r.requests) && (Grouped(r.history) <==> !Orphans(r)))
    && (Answered(h) ==> AllAnswered(r.requests) && (!EndsOpen(r.delta) ==> Answered(r.history)))
  }

  /** What one message does to memory and to disk. */
  predicate TurnLaws(managed: bool, h: seq<Message>, stored: seq<Message>, archived: seq<Message>,
                     r: Handled, stored': seq<Message>, archived': seq<Message>)
  {
    && Conserves(h, archived, r, archived')
    && KeepsOrder(h, stored, r.history, stored')
    && SendsInOrder(managed, h, r)
    && (r.appended && Covered(h, stored) ==> Covered(r.history, stored'))
  }

  lemma {:induction false} ConservationOfTurn(h: seq<Message>, archived: seq<Message>, compacted: seq<Message>,
                           delta: seq<Message>, dropped: seq<Message>, kept: seq<Message>)
    requires NonSummary(h) == NonSummary(archived) + NonSummary(compacted)
    requires NonSummary(compacted) + delta == NonSummary(dropped) + NonSummary(kept)
    ensures NonSummary(h) + delta == NonSummary(archived + dropped) + NonSummary(kept)
  {
    NonSummaryOfAppend(archived, dropped);
    Regroup(NonSummary(archived), NonSummary(compacted), NonSummary(h), delta, NonSummary(dropped), NonSummary(kept));
  }

  lemma {:induction false} ArchivesOfTurn(archives: seq<seq<Message>>, h: seq<Message>, setup: Setup, turn: Turn)
    ensures Archived(ArchivesAfter(archives, h, setup, turn))
         == Archived(archives) + NonSummary(ArchivedBy(Compaction(h, setup, turn)))
  {
    ArchivedOfAppend(archives, ArchivedBy(Compaction(h, setup, turn)));
    assert Archived(archives) + [] == Archived(archives);
  }

  lemma {:induction false} AppendNothing<T>(a: seq<T>)
    ensures a + [] == a
  {
  }

  lemma {:induction false} TurnKeepsText(h: seq<Message>, setup: Setup, turn: Turn)
    ensures var r := TurnOf(h, setup, turn);
            NonSummary(h) + r.delta == NonSummary(r.gone) + NonSummary(r.history)
  {
    var c := Compaction(h, setup, turn);
    var kept := Effective(h, c);
    var speech := Spoken(Shown(h, setup, turn), setup, turn);
    CompactKeepsLaws(h, [], setup, turn);
    SpokenLaws(Shown(h, setup, turn), setup, turn);
    if speech.failed {
      AppendNothing(NonSummary(h));
    } else {
      var all := kept + speech.delta;
      var k := TrimPoint(all, setup.maxHistory);
      RecordLaws(kept, speech.delta, k);
      ConservationOfTurn(h, ArchivedBy(c), kept, speech.delta, all[..k], all[k..]);
    }
  }

  lemma {:induction false} TurnConserves(h: seq<Message>, archives: seq<seq<Message>>, setup: Setup, turn: Turn)
    ensures Conserves(h, Archived(archives), TurnOf(h, setup, turn), Archived(ArchivesAfter(archives, h, setup, turn)))
  {
    TurnKeepsText(h, setup, turn);
    ArchivesOfTurn(archives, h, setup, turn);
    var c, r := Compaction(h, setup, turn), TurnOf(h, setup, turn);
    if !r.trimmed {
      AppendNothing(ArchivedBy(c));
      assert r.gone == ArchivedBy(c);
    }
  }

  lemma {:induction false} RequestsAreSentGrouped(h: seq<Message>, setup: Setup, turn: Turn)
    requires Grouped(h)
    ensures AllGrouped(Spoken(Shown(h, setup, turn), setup, turn).requests)
  {
    ShownLaws(h, setup, turn);
    SpokenLaws(Shown(h, setup, turn), setup, turn);
  }

  lemma {:induction false} MemoryGroups(kept: seq<Message>, delta: seq<Message>, k: nat, r: Handled)
    requires Grouped(kept) && SummaryFree(delta) && Grouped(delta) && k <= |kept + delta|
    requires r.history == (kept + delta)[k..] && r.trimmed == (k > 0)
    ensures Grouped(r.history) <==> !Orphans(r)
  {
    MemoryLaws(kept, delta, k);
  }

  lemma {:induction false} TurnGroups(h: seq<Message>, setup: Setup, turn: Turn)
    requires Grouped(h)
    ensures var r := TurnOf(h, setup, turn);
            AllGrouped(r.requests) && (Grouped(r.history) <==> !Orphans(r))
  {
    var kept := Effective(h, Compaction(h, setup, turn));
    var speech := Spoken(Shown(h, setup, turn), setup, turn);
    RequestsAreSentGrouped(h, setup, turn);
    assert Grouped(kept) by {
      CompactKeepsLaws(h, [], setup, turn);
    }
    if !speech.failed {
      SpokenLaws(Shown(h, setup, turn), setup, turn);
      MemoryGroups(kept, speech.delta, TrimPoint(kept + speech.delta, setup.maxHistory), TurnOf(h, setup, turn));
    }
  }

  lemma {:induction false} TurnAnswers(h: seq<Message>, setup: Setup, turn: Turn)
    requires Answered(h)
    ensures var r := TurnOf(h, setup, turn);
            AllAnswered(r.requests) && (!EndsOpen(r.delta) ==> Answered(r.history))
  {
    var kept := Effective(h, Compaction(h, setup, turn));
    var speech := Spoken(Shown(h, setup, turn), setup, turn);
    EffectiveIsAnswered(h, Compaction(h, setup, turn));
    ShownLaws(h, setup, turn);
    SpokenLaws(Shown(h, setup, turn), setup, turn);
    if !speech.failed {
      OpenCallsAreLast(turn.user, speech.delta);
      MemoryLaws(kept, speech.delta, TrimPoint(kept + speech.delta, setup.maxHistory));
    }
  }

  lemma {:induction false} TurnSendsInOrder(h: seq<Message>, setup: Setup, turn: Turn)
    ensures SendsInOrder(setup.managed, h, TurnOf(h, setup, turn))
  {
    var r := TurnOf(h, setup, turn);
    if setup.managed && SummaryOnlyFirst(h) {
      ShownLaws(h, setup, turn);
      SpokenLaws(Shown(h, setup, turn), setup, turn);
    }
    if Grouped(h) {
      TurnGroups(h, setup, turn);
    }
    if Answered(h) {
      TurnAnswers(h, setup, turn);
    }
  }

  /** Every turn keeps the laws, whatever it meets. */
  lemma {:induction false} TurnKeepsLaws(h: seq<Message>, stored: seq<Message>, archives: seq<seq<Message>>,
                                         setup: Setup, turn: Turn)
    ensures TurnLaws(setup.managed, h, stored, Archived(archives), TurnOf(h, setup, turn),
                     StoredAfter(stored, h, setup, turn), Archived(ArchivesAfter(archives, h, setup, turn)))
  {
    var kept, compact := Effective(h, Compaction(h, setup, turn)), StoredCompact(stored, h, setup, turn);
    var speech := Spoken(Shown(h, setup, turn), setup, turn);
    TurnConserves(h, archives, setup, turn);
    TurnSendsInOrder(h, setup, turn);
    CompactKeepsLaws(h, stored, setup, turn);
    SpokenLaws(Shown(h, setup, turn), setup, turn);
    if !speech.failed {
      RecordLaws(kept, speech.delta, TrimPoint(kept + speech.delta, setup.maxHistory));
      DiskLaws(kept, compact, speech.delta, TrimPoint(kept + speech.delta, setup.maxHistory), turn.appendFault);
    }
  }

  /** Memory, the archives and what left memory, for a turn in which `before` is memory before the answer. */
  predicate Proceeds(before: seq<Message>, archived: seq<Message>, maxHistory: nat, r: Handled)
  {
    var all := before + r.delta;
    && |r.history| == (if r.delta != [] && |all| > maxHistory then maxHistory else |all|)
    && IsSuffix(r.history, all) && r.gone == archived + all[..|all| - |r.history|]
  }

  lemma {:induction false} AnswerProceeds(before: seq<Message>, archived: seq<Message>, maxHistory: nat, r: Handled)
    requires r.delta != []
    requires var all, k := before + r.delta, TrimPoint(before + r.delta, maxHistory);
             r.history == all[k..] && r.gone == archived + all[..k]
    ensures Proceeds(before, archived, maxHistory, r)
  {
  }

  lemma {:induction false} TurnProceeds(h: seq<Message>, setup: Setup, turn: Turn)
    ensures var c := Compaction(h, setup, turn);
            Proceeds(Effective(h, c), ArchivedBy(c), setup.maxHistory, TurnOf(h, setup, turn))
  {
    var c := Compaction(h, setup, turn);
    var kept, shown := Effective(h, c), Shown(h, setup, turn);
    SpokenLaws(shown, setup, turn);
    if Spoken(shown, setup, turn).failed {
      AppendNothing(kept);
      AppendNothing(ArchivedBy(c));
    } else {
      AnswerProceeds(kept, ArchivedBy(c), setup.maxHistory, TurnOf(h, setup, turn));
    }
  }

  /** Memory is summarised this turn. */
  predicate Summarises(h: seq<Message>, setup: Setup, turn: Turn)
  {
    setup.managed && SummaryDue(h, turn.circumstances) && turn.archiveWritable
  }

  /** The lines of a turn's answer that reach the disk. */
  lemma {:induction false} StoredByTurn(stored: seq<Message>, h: seq<Message>, setup: Setup, turn: Turn)
    ensures StoredAfter(stored, h, setup, turn)
         == StoredCompact(stored, h, setup, turn) + Written(TurnOf(h, setup, turn).delta, turn.appendFault)
  {
    var compact := StoredCompact(stored, h, setup, turn);
    SpokenLaws(Shown(h, setup, turn), setup, turn);
    if Spoken(Shown(h, setup, turn), setup, turn).failed {
      AppendNothing(compact);
    }
  }

  /** A turn that is not due to summarise, or cannot archive, leaves the archives alone, memory ends as memory and the
      answer, trimmed, and the disk as it was with the answer behind it, as far as that was written. */
  lemma {:induction false} QuietTurn(h: seq<Message>, stored: seq<Message>, archives: seq<seq<Message>>, setup: Setup,
                                     turn: Turn)
    requires !Summarises(h, setup, turn)
    ensures StoredAfter(stored, h, setup, turn) == stored + Written(TurnOf(h, setup, turn).delta, turn.appendFault)
    ensures ArchivesAfter(archives, h, setup, turn) == archives
    ensures Proceeds(h, [], setup.maxHistory, TurnOf(h, setup, turn))
  {
    SummaryExactlyWhenDue(h, turn.circumstances);
    TurnProceeds(h, setup, turn);
    StoredByTurn(stored, h, setup, turn);
  }

  /** A turn that is due to summarise and can archive puts exactly the messages in front of the cut into the archives,
      memory ends as the summary, the rest and the answer, trimmed, and so does the disk, untrimmed, if the replacement
      went through. */
  lemma {:induction false} SummarisingTurn(h: seq<Message>, stored: seq<Message>, archives: seq<seq<Message>>,
                                           setup: Setup, turn: Turn)
    returns (summary: Message)
    requires Summarises(h, setup, turn)
    ensures var end := CutPoint(h, turn.circumstances);
            && summary == Summary(turn.circumstances.summaryText.value, end % U32, (0, end - 1))
            && 0 < end <= |h| && ArchivesAfter(archives, h, setup, turn) == archives + [h[..end]]
            && Proceeds([summary] + h[end..], h[..end], setup.maxHistory, TurnOf(h, setup, turn))
            && StoredAfter(stored, h, setup, turn)
               == (if Completes(turn.replaceFault, |Program([summary] + h[end..])|)
                   then [summary] + h[end..] else stored)
                  + Written(TurnOf(h, setup, turn).delta, turn.appendFault)
  {
    SummaryExactlyWhenDue(h, turn.circumstances);
    TurnProceeds(h, setup, turn);
    StoredByTurn(stored, h, setup, turn);
    summary := Compaction(h, setup, turn).value.summary;
  }

  /** The first request of a turn: what is in front of the cut is left out as soon as a summary is due, archived or
      not; leading summaries are in the prompt; without a context manager all of memory is sent. */
  lemma {:induction false} TurnAsksFirst(h: seq<Message>, setup: Setup, turn: Turn)
    requires turn.toolsListed
    ensures var requests, user := TurnOf(h, setup, turn).requests, [User(turn.user)];
            var end := CutPoint(h, turn.circumstances);
            && requests != [] && end <= |h|
            && (!setup.managed ==> requests[0] == h + user)
            && (setup.managed && !SummaryDue(h, turn.circumstances) ==> requests[0] == Visible(h) + user)
            && (setup.managed && SummaryDue(h, turn.circumstances) ==> requests[0] == Visible(h[end..]) + user)
  {
    SummaryExactlyWhenDue(h, turn.circumstances);
    var e := SpeechIsARun(Shown(h, setup, turn), setup, turn);
    var s := SummaryOf(h, turn.circumstances);
    if s.Some? {
      VisibleBehindSummary(s.value.summary, h[s.value.last + 1..]);
    }
  }

  /** A summary that is due stands, with the model's text, in front of the configured prompt; so do the leading
      summaries of memory when none is due. */
  lemma {:induction false} TurnPromptHoldsSummary(h: seq<Message>, setup: Setup, turn: Turn) returns (at: seq<nat>)
    ensures var prompt, env := PromptShown(h, setup, turn), turn.circumstances;
            && |setup.prompt| <= |prompt| && prompt[|prompt| - |setup.prompt|..] == setup.prompt
            && (!setup.managed ==> prompt == setup.prompt)
            && (setup.managed && SummaryDue(h, env) ==>
                  |at| > 0 && StandsAt(prompt, env.summaryText.value, at[0])
                  && at[0] + |env.summaryText.value| <= |prompt| - |setup.prompt|)
            && (setup.managed && !SummaryDue(h, env) ==>
                  InOrder(prompt, SummaryTexts(h, LeadingSummaries(h)), at, |prompt| - |setup.prompt|))
  {
    SummaryExactlyWhenDue(h, turn.circumstances);
    var shown := Effective(h, SummaryOf(h, turn.circumstances));
    at := PromptHoldsSummaries(shown, setup.prompt);
    if SummaryDue(h, turn.circumstances) {
      assert shown[0].Summary? && LeadingSummaries(shown) > 0;
      assert SummaryTexts(shown, LeadingSummaries(shown))[0] == turn.circumstances.summaryText.value;
    }
  }

  lemma {:induction false} VisibleBehindSummary(summary: Message, rest: seq<Message>)
    requires summary.Summary?
    ensures Visible([summary] + rest) == Visible(rest)
  {
    assert ([summary] + rest)[1..] == rest;
  }

  // ---------------------------------------------------------------------------
  // Any number of messages
  // ---------------------------------------------------------------------------

  /** Everything a run of the loop did, from loading the session to its last message. */
  datatype History = History(
    loaded: seq<Message>,
    deltas: seq<seq<Message>>,
    gone: seq<Message>,
    memory: seq<Message>,
    requests: seq<seq<Message>>,
    trimmed: bool,
    orphaned: bool,
    leftOpen: bool,
    appendFailed: bool)

  /** A run together with the disk it left. */
  datatype Session = Session(run: History, stored: seq<Message>, archives: seq<seq<Message>>)

  function Start(loaded: seq<Message>, stored: seq<Message>, archives: seq<seq<Message>>): (s: Session)
  {
    Session(History(loaded, [], [], loaded, [], false, false, false, false), stored, archives)
  }

  function Extended(run: History, r: Handled): (next: History)
  {
    History(run.loaded, run.deltas + [r.delta], run.gone + r.gone, r.history, run.requests + r.requests,
            run.trimmed || r.trimmed, run.orphaned || Orphans(r), run.leftOpen || EndsOpen(r.delta),
            run.appendFailed || !r.appended)
  }

  function AfterTurn(s: Session, setup: Setup, turn: Turn): (r: Session)
  {
    var h := s.run.memory;
    Session(Extended(s.run, TurnOf(h, setup, turn)), StoredAfter(s.stored, h, setup, turn),
            ArchivesAfter(s.archives, h, setup, turn))
  }

  function AfterTurns(s: Session, setup: Setup, turns: seq<Turn>): (r: Session)
  {
    if turns == [] then s
    else AfterTurn(AfterTurns(s, setup, turns[..|turns| - 1]), setup, turns[|turns| - 1])
  }

  /** The loop over any messages, under any faults and any behaviour of the model and the tools. A session
      that cannot be read starts empty. */
  method PersistentAgentLoop(store: JsonlSessionStore, setup: Setup, readable: bool, turns: seq<Turn>)
    returns (run: History)
    requires store.Valid()
    modifies store
    ensures store.Valid()
    ensures run.loaded == if old(store.disk.main.Absent?) || readable then old(store.Stored()) else []
    ensures Session(run, store.Stored(), store.archives)
         == AfterTurns(Start(run.loaded, old(store.Stored()), old(store.archives)), setup, turns)
  {
    var load := store.Load(readable);
    var loaded := if load.Some? then load.value else [];
    var start := Start(loaded, store.Stored(), store.archives);
    run := start.run;
    for i := 0 to |turns|
      invariant store.Valid() && run.loaded == loaded
      invariant Session(run, store.Stored(), store.archives) == AfterTurns(start, setup, turns[..i])
    {
      assert turns[..i + 1][..i] == turns[..i];
      var r, _ := HandleMessage(store, run.memory, setup, turns[i]);
      run := Extended(run, r);
    }
    assert turns[..|turns|] == turns;
  }

  function Flat(deltas: seq<seq<Message>>): (r: seq<Message>)
  {
    if deltas == [] then [] else Flat(deltas[..|deltas| - 1]) + deltas[|deltas| - 1]
  }

  lemma {:induction false} FlatOfAppend(deltas: seq<seq<Message>>, delta: seq<Message>)
    ensures Flat(deltas + [delta]) == Flat(deltas) + delta
  {
    assert (deltas + [delta])[..|deltas|] == deltas;
  }

  /** Nothing of the conversation is lost or reordered between what left memory and what is in it. */
  predicate Conserved(run: History)
  {
    NonSummary(run.gone) + NonSummary(run.memory) == NonSummary(run.loaded) + Flat(run.deltas)
  }

  lemma {:induction false} ConservationOfRun(run: History, r: Handled)
    requires Conserved(run)
    requires NonSummary(run.memory) + r.delta == NonSummary(r.gone) + NonSummary(r.history)
    ensures Conserved(Extended(run, r))
  {
    NonSummaryOfAppend(run.gone, r.gone);
    FlatOfAppend(run.deltas, r.delta);
    Regroup(NonSummary(run.gone), NonSummary(run.memory), NonSummary(run.loaded) + Flat(run.deltas),
            r.delta, NonSummary(r.gone), NonSummary(r.history));
    Associate(NonSummary(run.loaded), Flat(run.deltas), r.delta);
  }

  /** What holds after any number of messages, whatever failed on the way. */
  predicate RunLaws(managed: bool, run: History, origin: seq<Message>, earlier: seq<Message>,
                    stored: seq<Message>, archived: seq<Message>)
  {
    // Every message of the conversation is in memory or left it, in order; untrimmed, what left is archived
    && Conserved(run)
    && (!run.trimmed ==> archived == earlier + NonSummary(run.gone))
    // Summaries stay at the front, in memory and on disk, so none reaches the model
    && (SummaryOnlyFirst(origin) ==> SummaryOnlyFirst(run.memory) && SummaryOnlyFirst(stored))
    && (managed && SummaryOnlyFirst(origin) ==> AllSummaryFree(run.requests))
    // Tool results reach the model, and the disk, behind their calls unless trimming parted one from its call
    && (Grouped(origin) && !run.orphaned ==> Grouped(run.memory) && Grouped(stored) && AllGrouped(run.requests))
    // Calls reach the model with their results unless a final answer left calls open
    && (Answered(origin) && !run.leftOpen ==> Answered(run.memory) && AllAnswered(run.requests))
    // A restart finds everything that was still in memory
    && (!run.appendFailed ==> Covered(run.memory, stored))
  }

  lemma {:induction false} RunStart(managed: bool, loaded: seq<Message>, origin: seq<Message>,
                                    archives: seq<seq<Message>>)
    requires loaded == origin || loaded == []
    ensures RunLaws(managed, Start(loaded, origin, archives).run, origin, Archived(archives),
                    origin, Archived(archives))
  {
    assert [] + NonSummary(loaded) == NonSummary(loaded) + [];
    assert Archived(archives) + [] == Archived(archives);
  }

  lemma {:induction false} RunStep(managed: bool, run: History, origin: seq<Message>, earlier: seq<Message>,
                                   stored: seq<Message>,
                archived: seq<Message>, r: Handled, stored': seq<Message>, archived': seq<Message>)
    requires RunLaws(managed, run, origin, earlier, stored, archived)
    requires TurnLaws(managed, run.memory, stored, archived, r, stored', archived')
    ensures RunLaws(managed, Extended(run, r), origin, earlier, stored', archived')
  {
    ConservationOfRun(run, r);
    NonSummaryOfAppend(run.gone, r.gone);
    Associate(earlier, NonSummary(run.gone), NonSummary(r.gone));
  }

  /** From every stored session, through any turns, with any failures: the laws of the loop. */
  lemma {:induction false} EveryRunKeepsLaws(loaded: seq<Message>, origin: seq<Message>, archives: seq<seq<Message>>,
                                             setup: Setup, turns: seq<Turn>)
    requires loaded == origin || loaded == []
    ensures var s := AfterTurns(Start(loaded, origin, archives), setup, turns);
            RunLaws(setup.managed, s.run, origin, Archived(archives), s.stored, Archived(s.archives))
  {
    if turns == [] {
      RunStart(setup.managed, loaded, origin, archives);
    } else {
      var init, turn := turns[..|turns| - 1], turns[|turns| - 1];
      var s := AfterTurns(Start(loaded, origin, archives), setup, init);
      EveryRunKeepsLaws(loaded, origin, archives, setup, init);
      TurnKeepsLaws(s.run.memory, s.stored, s.archives, setup, turn);
      RunStep(setup.managed, s.run, origin, Archived(archives), s.stored, Archived(s.archives),
              TurnOf(s.run.memory, setup, turn), StoredAfter(s.stored, s.run.memory, setup, turn),
              Archived(ArchivesAfter(s.archives, s.run.memory, setup, turn)));
    }
  }

  lemma {:induction false} TailOfSum<T>(earlier: seq<T>, gone: seq<T>, kept: seq<T>, all: seq<T>)
    requires gone + kept == all
    ensures |kept| <= |all| && all[|all| - |kept|..] == kept
    ensures (earlier + gone) + kept == earlier + all
  {
    assert (earlier + gone) + kept == earlier + (gone + kept);
  }

  /** A run that never trimmed has its whole conversation in the archives followed by memory; a trimmed one
      still remembers its latest part. */
  lemma {:induction false} TranscriptOfRun(loaded: seq<Message>, origin: seq<Message>, archives: seq<seq<Message>>,
                                           setup: Setup, turns: seq<Turn>)
    requires loaded == origin || loaded == []
    ensures var s := AfterTurns(Start(loaded, origin, archives), setup, turns);
            var conversation := NonSummary(s.run.loaded) + Flat(s.run.deltas);
            && IsSuffix(NonSummary(s.run.memory), conversation)
            && (!s.run.trimmed ==> Archived(s.archives) + NonSummary(s.run.memory) == Archived(archives) + conversation)
  {
    var s := AfterTurns(Start(loaded, origin, archives), setup, turns);
    EveryRunKeepsLaws(loaded, origin, archives, setup, turns);
    TailOfSum(Archived(archives), NonSummary(s.run.gone), NonSummary(s.run.memory),
              NonSummary(s.run.loaded) + Flat(s.run.deltas));
  }
}
