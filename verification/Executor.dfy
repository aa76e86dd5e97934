/** The inference loop: call the model, run the tools it asks for, feed the results back. */
module Executors {
  import opened Transcripts

  datatype LlmStop = EndTurn | ToolUseStop | MaxTokens | StopSequence

  datatype Completion =
    | Failure(message: string)
    | Response(content: seq<Block>, stop: LlmStop, inputTokens: nat, outputTokens: nat)

  /** The model as an adversary: any answer, chosen by the number of the call and everything it was sent. */
  type Model = (nat, seq<Message>) -> Completion

  /** A tool's answer and whether it is an error, by call number and position within the response. */
  type Tools = (nat, nat, Block) -> (string, bool)

  datatype Limits = Limits(maxIterations: nat, maxTotalTokens: nat, commitNudges: nat)

  datatype Stop = Complete | IterationLimit | TokenLimit | Truncated | Error(message: string)

  datatype Usage = Usage(input: nat, output: nat)

  function Spent(c: Completion): (u: Usage)
  {
    match c case Failure(_) => Usage(0, 0) case Response(_, _, i, o) => Usage(i, o)
  }

  /** The exact sum of what the first `n` calls reported. */
  function SpentOver(model: Model, log: seq<seq<Message>>, n: nat): (u: Usage)
    requires n <= |log|
  {
    if n == 0 then Usage(0, 0)
    else
      var before := SpentOver(model, log, n - 1);
      var one := Spent(model(n - 1, log[n - 1]));
      Usage(before.input + one.input, before.output + one.output)
  }

  lemma {:induction false} SpentOverPrefix(model: Model, log: seq<seq<Message>>, more: seq<seq<Message>>, n: nat)
    requires n <= |log|
    ensures SpentOver(model, log + more, n) == SpentOver(model, log, n)
  {
    if n > 0 {
      SpentOverPrefix(model, log, more, n - 1);
      assert (log + more)[n - 1] == log[n - 1];
    }
  }

  predicate OverLimit(u: Usage, limits: Limits)
  {
    u.input + u.output > limits.maxTotalTokens
  }

  /** The requests of a run: each was answered before the next was made, and each was made within the
      token limit. */
  predicate Accounted(model: Model, limits: Limits, log: seq<seq<Message>>, answered: nat, usage: Usage)
  {
    && answered <= |log| <= answered + 1
    && (forall i :: 0 <= i < answered ==> model(i, log[i]).Response?)
    && (answered < |log| ==> model(answered, log[answered]).Failure?)
    && usage == SpentOver(model, log, answered)
    && (forall i :: 0 <= i < |log| ==> WithinBudget(model, limits, log, i))
  }

  /** What the first `n` calls spent leaves room for one more. */
  predicate WithinBudget(model: Model, limits: Limits, log: seq<seq<Message>>, n: nat)
    requires n <= |log|
  {
    SpentOver(model, log, n).input + SpentOver(model, log, n).output <= limits.maxTotalTokens
  }

  lemma {:induction false} RecordCall(model: Model, limits: Limits, log: seq<seq<Message>>, usage: Usage,
                                      messages: seq<Message>)
    requires Accounted(model, limits, log, |log|, usage) && !OverLimit(usage, limits)
    ensures model(|log|, messages).Failure? ==> Accounted(model, limits, log + [messages], |log|, usage)
    ensures model(|log|, messages).Response? ==>
              var one := Spent(model(|log|, messages));
              Accounted(model, limits, log + [messages], |log| + 1,
                        Usage(usage.input + one.input, usage.output + one.output))
  {
    forall n: nat | n <= |log|
      ensures WithinBudget(model, limits, log + [messages], n)
    {
      assert n < |log| ==> WithinBudget(model, limits, log, n);
      SpentOverPrefix(model, log, [messages], n);
    }
    SpentOverPrefix(model, log, [messages], |log|);
  }

  function AtLeastOne(n: nat): (r: nat)
  {
    if n == 0 then 1 else n
  }

  /** The message `j` behind position `from` carries the id of call `j` of the content and what its tool returned. */
  predicate IsAnswer(tools: Tools, iteration: nat, content: seq<Block>, ms: seq<Message>, from: nat, j: nat)
    requires j < |ToolUses(content)| && from + j < |ms|
  {
    var use, m := ToolUses(content)[j], ms[from + j];
    && m.ToolResult? && m.toolUseId == use.id
    && m.value == tools(iteration, j, use).0 && m.isError == tools(iteration, j, use).1
  }

  /** `later` is `asked`, the model's answer, and behind it what the tool of each of its calls returned, in order. */
  predicate Continues(tools: Tools, iteration: nat, asked: seq<Message>, content: seq<Block>, later: seq<Message>)
  {
    var n := |asked| + 1;
    && |later| == n + |ToolUses(content)| && later[..n] == asked + [Assistant(content)]
    && forall j :: 0 <= j < |ToolUses(content)| ==> IsAnswer(tools, iteration, content, later, n, j)
  }

  /** One result per call, in order, each from its own call. */
  function Results(tools: Tools, iteration: nat, content: seq<Block>): (r: seq<Message>)
    ensures IsRound([Assistant(content)] + r)
  {
    var uses := ToolUses(content);
    seq(|uses|, i requires 0 <= i < |uses| =>
      var (value, isError) := tools(iteration, i, uses[i]); ToolResult(uses[i].id, value, isError))
  }

  method RunTools(tools: Tools, iteration: nat, content: seq<Block>) returns (results: seq<Message>)
    ensures results == Results(tools, iteration, content)
    ensures |results| == |ToolUses(content)|
    ensures forall j :: 0 <= j < |results| ==> IsAnswer(tools, iteration, content, results, 0, j)
  {
    var uses := ToolUses(content);
    results := [];
    for i := 0 to |uses|
      invariant results == Results(tools, iteration, content)[..i]
    {
      var (value, isError) := tools(iteration, i, uses[i]);
      results := results + [ToolResult(uses[i].id, value, isError)];
    }
  }

  lemma {:induction false} ResultsAnswer(tools: Tools, iteration: nat, asked: seq<Message>, content: seq<Block>,
                                         whole: seq<Message>)
    requires whole == asked + ([Assistant(content)] + Results(tools, iteration, content))
    ensures Continues(tools, iteration, asked, content, whole)
  {
    var n, results := |asked| + 1, Results(tools, iteration, content);
    Associate(asked, [Assistant(content)], results);
    assert whole[..n] == asked + [Assistant(content)];
    forall j | 0 <= j < |ToolUses(content)|
      ensures IsAnswer(tools, iteration, content, whole, n, j)
    {
      assert whole[n + j] == results[j];
    }
  }

  lemma {:induction false} AnswersAgree(tools: Tools, iteration: nat, asked: seq<Message>, content: seq<Block>,
                                        a: seq<Message>, b: seq<Message>)
    requires Continues(tools, iteration, asked, content, a) && Continues(tools, iteration, asked, content, b)
    ensures a == b
  {
    var n := |asked| + 1;
    forall k | n <= k < |a|
      ensures a[k] == b[k]
    {
      assert IsAnswer(tools, iteration, content, a, n, k - n) && IsAnswer(tools, iteration, content, b, n, k - n);
    }
    assert a == a[..n] + a[n..] && b == b[..n] + b[n..];
  }

  lemma {:induction false} RoundContinues(tools: Tools, iteration: nat, asked: seq<Message>, content: seq<Block>,
                                          later: seq<Message>)
    ensures Continues(tools, iteration, asked, content, later) <==>
            later == asked + ([Assistant(content)] + Results(tools, iteration, content))
  {
    var whole := asked + ([Assistant(content)] + Results(tools, iteration, content));
    ResultsAnswer(tools, iteration, asked, content, whole);
    if Continues(tools, iteration, asked, content, later) {
      AnswersAgree(tools, iteration, asked, content, later, whole);
    }
  }

  /** The conversation after answer number `i` and the tools it called. */
  function WithRound(model: Model, tools: Tools, i: nat, asked: seq<Message>): (r: seq<Message>)
  {
    match model(i, asked)
    case Failure(_) => asked
    case Response(content, _, _, _) => asked + ([Assistant(content)] + Results(tools, i + 1, content))
  }

  // ---------------------------------------------------------------------------
  // Running on top of a prior conversation
  // ---------------------------------------------------------------------------

  datatype Execution = Execution(usage: Usage, iterations: nat, stop: Stop, delta: seq<Message>)

  /** The new user message followed by complete rounds. */
  predicate OpenDelta(user: string, delta: seq<Message>)
  {
    delta != [] && delta[0] == User(user) && Rounds(delta[1..])
  }

  /** What one request looked like: the prior messages, then an open delta. */
  predicate RequestShape(prior: seq<Message>, user: string, request: seq<Message>)
  {
    prior <= request && OpenDelta(user, request[|prior|..])
  }

  /** What a run adds to the conversation: an open delta and, when the model had the last word, that word. */
  predicate DeltaShape(user: string, delta: seq<Message>)
  {
    || OpenDelta(user, delta)
    || (delta != [] && delta[|delta| - 1].Assistant? && OpenDelta(user, delta[..|delta| - 1]))
  }

  /** Every request of the run had the right shape and grew into what came later. */
  predicate RequestsWithin(prior: seq<Message>, user: string, log: seq<seq<Message>>, later: seq<Message>)
  {
    forall i :: 0 <= i < |log| ==> RequestShape(prior, user, log[i]) && log[i] <= later
  }

  /** Every request continues the one before it: the model's answer, which stopped for tools, and their results. */
  predicate Chained(model: Model, tools: Tools, log: seq<seq<Message>>)
  {
    forall i :: 0 < i < |log| ==> ChainedAt(model, tools, log, i)
  }

  predicate ChainedAt(model: Model, tools: Tools, log: seq<seq<Message>>, i: nat)
    requires 0 < i < |log|
  {
    var answer := model(i - 1, log[i - 1]);
    answer.Response? && answer.stop.ToolUseStop? && Continues(tools, i, log[i - 1], answer.content, log[i])
  }

  lemma {:induction false} ChainExtends(model: Model, tools: Tools, log: seq<seq<Message>>, next: seq<Message>)
    requires log != [] && Chained(model, tools, log)
    requires var answer := model(|log| - 1, log[|log| - 1]);
             && answer.Response? && answer.stop.ToolUseStop?
             && Continues(tools, |log|, log[|log| - 1], answer.content, next)
    ensures Chained(model, tools, log + [next])
  {
    var longer := log + [next];
    forall i | 0 < i < |longer|
      ensures ChainedAt(model, tools, longer, i)
    {
      assert i < |log| ==> ChainedAt(model, tools, log, i);
    }
  }

  lemma {:induction false} RecordRequest(prior: seq<Message>, user: string, log: seq<seq<Message>>, delta: seq<Message>)
    requires OpenDelta(user, delta)
    requires RequestsWithin(prior, user, log, prior + delta)
    ensures RequestsWithin(prior, user, log + [prior + delta], prior + delta)
  {
    var messages := prior + delta;
    assert messages[|prior|..] == delta;
  }

  lemma {:induction false} RequestsStayWithin(prior: seq<Message>, user: string, log: seq<seq<Message>>,
                                              delta: seq<Message>, more: seq<Message>)
    requires RequestsWithin(prior, user, log, prior + delta)
    ensures RequestsWithin(prior, user, log, prior + (delta + more))
    ensures prior + (delta + more) == prior + delta + more
  {
    assert prior + (delta + more) == prior + delta + more;
  }

  lemma {:induction false} ExtendDelta(user: string, delta: seq<Message>, round: seq<Message>)
    requires OpenDelta(user, delta) && IsRound(round)
    ensures OpenDelta(user, delta + round)
  {
    RoundsAppend(delta[1..], round);
    assert (delta + round)[1..] == delta[1..] + round;
  }

  lemma {:induction false} CloseDelta(user: string, delta: seq<Message>, last: Message)
    requires OpenDelta(user, delta) && last.Assistant?
    ensures DeltaShape(user, delta + [last])
  {
    assert (delta + [last])[..|delta|] == delta;
  }

  /** How the run ended, and what the last answer left in the conversation: a final answer is kept, one
      that broke the token limit is dropped, one that asked for tools at the last iteration is kept
      with its results. */
  predicate EndsAs(model: Model, tools: Tools, limits: Limits, prior: seq<Message>, log: seq<seq<Message>>,
                   r: Execution)
    requires log != []
  {
    var asked, all := log[|log| - 1], prior + r.delta;
    var answer := model(|log| - 1, asked);
    match r.stop
    case Error(message) => answer == Failure(message) && all == asked
    case TokenLimit => answer.Response? && all == asked
    case Complete =>
      && answer.Response? && (answer.stop.EndTurn? || answer.stop.StopSequence?)
      && all == asked + [Assistant(answer.content)]
    case Truncated => answer.Response? && answer.stop.MaxTokens? && all == asked + [Assistant(answer.content)]
    case IterationLimit =>
      && answer.Response? && answer.stop.ToolUseStop? && r.iterations >= limits.maxIterations
      && Continues(tools, |log|, asked, answer.content, all)
  }

  /** Between two calls: the conversation so far, its account and its requests. */
  predicate Underway(model: Model, tools: Tools, limits: Limits, prior: seq<Message>, user: string,
                     log: seq<seq<Message>>, delta: seq<Message>, usage: Usage)
  {
    && OpenDelta(user, delta)
    && Accounted(model, limits, log, |log|, usage) && !OverLimit(usage, limits)
    && RequestsWithin(prior, user, log, prior + delta)
    && Chained(model, tools, log + [prior + delta]) && (log + [prior + delta])[0] == prior + [User(user)]
  }

  function Plus(usage: Usage, c: Completion): (r: Usage)
  {
    Usage(usage.input + Spent(c).input, usage.output + Spent(c).output)
  }

  /** One more call: whatever the answer, the requests and the account stay in order. */
  lemma {:induction false} CallIsRecorded(model: Model, tools: Tools, limits: Limits, prior: seq<Message>, user: string,
                       log: seq<seq<Message>>, delta: seq<Message>, usage: Usage)
    requires Underway(model, tools, limits, prior, user, log, delta, usage)
    ensures var asked := prior + delta;
            var answer := model(|log|, asked);
            && RequestsWithin(prior, user, log + [asked], asked)
            && Accounted(model, limits, log + [asked], if answer.Failure? then |log| else |log| + 1,
                         if answer.Failure? then usage else Plus(usage, answer))
  {
    RecordCall(model, limits, log, usage, prior + delta);
    RecordRequest(prior, user, log, delta);
  }

  lemma {:induction false} RoundIsRecorded(model: Model, tools: Tools, limits: Limits, prior: seq<Message>,
                                           user: string,
                        log: seq<seq<Message>>, delta: seq<Message>, usage: Usage, round: seq<Message>)
    requires Underway(model, tools, limits, prior, user, log, delta, usage)
    requires var answer := model(|log|, prior + delta);
             && answer.Response? && answer.stop.ToolUseStop? && !OverLimit(Plus(usage, answer), limits)
             && round == [Assistant(answer.content)] + Results(tools, |log| + 1, answer.content)
    ensures Underway(model, tools, limits, prior, user, log + [prior + delta], delta + round,
                     Plus(usage, model(|log|, prior + delta)))
    ensures Continues(tools, |log| + 1, prior + delta, model(|log|, prior + delta).content, prior + (delta + round))
  {
    var asked, answer := prior + delta, model(|log|, prior + delta);
    CallIsRecorded(model, tools, limits, prior, user, log, delta, usage);
    RequestsStayWithin(prior, user, log + [asked], delta, round);
    RoundContinues(tools, |log| + 1, asked, answer.content, prior + (delta + round));
    ChainExtends(model, tools, log + [asked], prior + (delta + round));
    ExtendDelta(user, delta, round);
  }

  /** What a finished run has done, from its requests and its answers to what it adds to the conversation. */
  predicate Done(model: Model, tools: Tools, limits: Limits, prior: seq<Message>, user: string,
                 log: seq<seq<Message>>, r: Execution)
  {
    && 0 < |log| <= AtLeastOne(limits.maxIterations)
    && Accounted(model, limits, log, r.iterations, r.usage)
    && log[0] == prior + [User(user)] && Chained(model, tools, log) && RequestsWithin(prior, user, log, prior + r.delta)
    && DeltaShape(user, r.delta)
    && EndsAs(model, tools, limits, prior, log, r)
    && (r.stop.TokenLimit? <==> r.usage.input + r.usage.output > limits.maxTotalTokens)
  }

  /** The answer adds nothing to the conversation: it failed, or it broke the token limit. */
  lemma {:induction false} DroppedAnswerEndsRun(model: Model, tools: Tools, limits: Limits, prior: seq<Message>,
                                                user: string, log: seq<seq<Message>>, delta: seq<Message>,
                                                usage: Usage, answer: Completion, r: Execution)
    requires Underway(model, tools, limits, prior, user, log, delta, usage)
    requires |log| == 0 || |log| < limits.maxIterations
    requires answer == model(|log|, prior + delta)
    requires if answer.Failure? then r == Execution(usage, |log|, Error(answer.message), delta)
             else r == Execution(Plus(usage, answer), |log| + 1, TokenLimit, delta)
                  && OverLimit(r.usage, limits)
    ensures Done(model, tools, limits, prior, user, log + [prior + delta], r)
  {
    CallIsRecorded(model, tools, limits, prior, user, log, delta, usage);
  }

  /** The answer calls no tools and is the last word. */
  lemma {:induction false} LastWordEndsRun(model: Model, tools: Tools, limits: Limits, prior: seq<Message>,
                                           user: string, log: seq<seq<Message>>, delta: seq<Message>,
                                           usage: Usage, answer: Completion, r: Execution)
    requires Underway(model, tools, limits, prior, user, log, delta, usage)
    requires |log| == 0 || |log| < limits.maxIterations
    requires answer == model(|log|, prior + delta) && answer.Response? && !answer.stop.ToolUseStop?
    requires r == Execution(Plus(usage, answer), |log| + 1, if answer.stop.MaxTokens? then Truncated else Complete,
                            delta + [Assistant(answer.content)])
    requires !OverLimit(r.usage, limits)
    ensures Done(model, tools, limits, prior, user, log + [prior + delta], r)
  {
    CallIsRecorded(model, tools, limits, prior, user, log, delta, usage);
    RequestsStayWithin(prior, user, log + [prior + delta], delta, [Assistant(answer.content)]);
    CloseDelta(user, delta, Assistant(answer.content));
  }

  /** The answer calls tools at the last iteration; they are run. */
  lemma {:induction false} LastRoundEndsRun(model: Model, tools: Tools, limits: Limits, prior: seq<Message>,
                                            user: string, log: seq<seq<Message>>, delta: seq<Message>,
                                            usage: Usage, answer: Completion, round: seq<Message>, r: Execution)
    requires Underway(model, tools, limits, prior, user, log, delta, usage)
    requires |log| == 0 || |log| < limits.maxIterations <= |log| + 1
    requires answer == model(|log|, prior + delta) && answer.Response? && answer.stop.ToolUseStop?
    requires round == [Assistant(answer.content)] + Results(tools, |log| + 1, answer.content)
    requires r == Execution(Plus(usage, answer), |log| + 1, IterationLimit, delta + round)
    requires r.iterations >= limits.maxIterations && !OverLimit(r.usage, limits)
    ensures Done(model, tools, limits, prior, user, log + [prior + delta], r)
  {
    CallIsRecorded(model, tools, limits, prior, user, log, delta, usage);
    RoundIsRecorded(model, tools, limits, prior, user, log, delta, usage, round);
  }

  /** The rest of a run, given the requests made so far, what they added and what they cost; with it, all
      requests of the run. */
  function Finish(model: Model, tools: Tools, limits: Limits, prior: seq<Message>,
                  log: seq<seq<Message>>, delta: seq<Message>, usage: Usage): (r: (Execution, seq<seq<Message>>))
    decreases limits.maxIterations - |log|
  {
    var asked, n := prior + delta, |log| + 1;
    var answer, log' := model(|log|, asked), log + [asked];
    if answer.Failure? then (Execution(usage, |log|, Error(answer.message), delta), log')
    else
      var usage' := Plus(usage, answer);
      if OverLimit(usage', limits) then (Execution(usage', n, TokenLimit, delta), log')
      else if !answer.stop.ToolUseStop? then
        var stop := if answer.stop.MaxTokens? then Truncated else Complete;
        (Execution(usage', n, stop, delta + [Assistant(answer.content)]), log')
      else
        var delta' := delta + ([Assistant(answer.content)] + Results(tools, n, answer.content));
        if n >= limits.maxIterations then (Execution(usage', n, IterationLimit, delta'), log')
        else Finish(model, tools, limits, prior, log', delta', usage')
  }

  lemma {:induction false} FinishAfterTools(model: Model, tools: Tools, limits: Limits, prior: seq<Message>,
                                            log: seq<seq<Message>>, delta: seq<Message>, usage: Usage,
                                            answer: Completion)
    requires answer == model(|log|, prior + delta) && answer.Response? && answer.stop.ToolUseStop?
    requires !OverLimit(Plus(usage, answer), limits) && |log| + 1 < limits.maxIterations
    ensures Finish(model, tools, limits, prior, log, delta, usage)
         == Finish(model, tools, limits, prior, log + [prior + delta],
                   delta + ([Assistant(answer.content)] + Results(tools, |log| + 1, answer.content)),
                   Plus(usage, answer))
  {
  }

  lemma {:induction false} FinishWithLastWord(model: Model, tools: Tools, limits: Limits, prior: seq<Message>,
                                              log: seq<seq<Message>>, delta: seq<Message>, usage: Usage,
                                              answer: Completion)
    requires answer == model(|log|, prior + delta) && answer.Response? && !answer.stop.ToolUseStop?
    requires !OverLimit(Plus(usage, answer), limits)
    ensures Finish(model, tools, limits, prior, log, delta, usage)
         == (Execution(Plus(usage, answer), |log| + 1, if answer.stop.MaxTokens? then Truncated else Complete,
                       delta + [Assistant(answer.content)]), log + [prior + delta])
  {
  }

  lemma {:induction false} FinishIsDone(model: Model, tools: Tools, limits: Limits, prior: seq<Message>, user: string,
                                        log: seq<seq<Message>>, delta: seq<Message>, usage: Usage)
    requires Underway(model, tools, limits, prior, user, log, delta, usage)
    requires |log| == 0 || |log| < limits.maxIterations
    ensures var (r, all) := Finish(model, tools, limits, prior, log, delta, usage);
            Done(model, tools, limits, prior, user, all, r)
    decreases limits.maxIterations - |log|
  {
    var asked, n := prior + delta, |log| + 1;
    var answer := model(|log|, asked);
    if answer.Response? && !OverLimit(Plus(usage, answer), limits) && answer.stop.ToolUseStop?
       && n < limits.maxIterations {
      var round := [Assistant(answer.content)] + Results(tools, n, answer.content);
      RoundIsRecorded(model, tools, limits, prior, user, log, delta, usage, round);
      FinishIsDone(model, tools, limits, prior, user, log + [asked], delta + round, Plus(usage, answer));
    } else {
      var (r, all) := Finish(model, tools, limits, prior, log, delta, usage);
      if answer.Failure? || OverLimit(Plus(usage, answer), limits) {
        DroppedAnswerEndsRun(model, tools, limits, prior, user, log, delta, usage, answer, r);
      } else if answer.stop.ToolUseStop? {
        var round := [Assistant(answer.content)] + Results(tools, n, answer.content);
        LastRoundEndsRun(model, tools, limits, prior, user, log, delta, usage, answer, round, r);
      } else {
        LastWordEndsRun(model, tools, limits, prior, user, log, delta, usage, answer, r);
      }
    }
  }

  /** For every model, every behaviour of the tools and all limits, whatever came before. */
  lemma {:induction false} EveryRunIsDone(model: Model, tools: Tools, limits: Limits, prior: seq<Message>, user: string)
    ensures var (r, log) := Finish(model, tools, limits, prior, [], [User(user)], Usage(0, 0));
            Done(model, tools, limits, prior, user, log, r)
  {
    FinishIsDone(model, tools, limits, prior, user, [], [User(user)], Usage(0, 0));
  }

  method RunWithHistory(limits: Limits, prior: seq<Message>, user: string, toolsListed: bool, model: Model,
                        tools: Tools)
    returns (r: Execution, log: seq<seq<Message>>)
    ensures !toolsListed ==> log == [] && r.stop.Error? && r.delta == [] && r.usage == Usage(0, 0) && r.iterations == 0
    ensures toolsListed ==> (r, log) == Finish(model, tools, limits, prior, [], [User(user)], Usage(0, 0))
  {
    log := [];
    var usage := Usage(0, 0);
    if !toolsListed {
      return Execution(usage, 0, Error("failed to list tools"), []), log;
    }
    var messages := prior + [User(user)];
    var delta := [User(user)];
    var iterations := 0;
    ghost var run := Finish(model, tools, limits, prior, [], [User(user)], Usage(0, 0));
    while true
      invariant messages == prior + delta && |log| == iterations
      invariant run == Finish(model, tools, limits, prior, log, delta, usage)
      decreases limits.maxIterations - iterations
    {
      log := log + [messages];
      var response := model(iterations, messages);
      if response.Failure? {
        return Execution(usage, iterations, Error(response.message), delta), log;
      }
      iterations := iterations + 1;
      usage := Usage(usage.input + response.inputTokens, usage.output + response.outputTokens);
      if usage.input + usage.output > limits.maxTotalTokens {
        return Execution(usage, iterations, TokenLimit, delta), log;
      }
      if !response.stop.ToolUseStop? {
        delta := delta + [Assistant(response.content)];
        return Execution(usage, iterations, if response.stop.MaxTokens? then Truncated else Complete, delta), log;
      }
      var results := RunTools(tools, iterations, response.content);
      var round := [Assistant(response.content)] + results;
      Associate(prior, delta, round);
      messages := messages + round;
      delta := delta + round;
      if iterations >= limits.maxIterations {
        return Execution(usage, iterations, IterationLimit, delta), log;
      }
    }
  }

  lemma {:induction false} OpenDeltaIsGrouped(user: string, delta: seq<Message>)
    requires OpenDelta(user, delta)
    ensures Grouped(delta) && SummaryFree(delta) && Answered(delta)
  {
    RoundsAreGrouped(delta[1..]);
    GroupedAppend([User(user)], delta[1..]);
    AnsweredAppend([User(user)], delta[1..]);
    assert delta == [User(user)] + delta[1..];
  }

  /** In a request, results stand behind their calls, calls have their results and summaries are absent, each exactly
      when that is so in the prior conversation. */
  lemma {:induction false} RequestsAreGrouped(prior: seq<Message>, user: string, request: seq<Message>)
    requires RequestShape(prior, user, request)
    ensures Grouped(request) <==> Grouped(prior)
    ensures SummaryFree(request) <==> SummaryFree(prior)
    ensures Answered(request) <==> Answered(prior)
  {
    var delta := request[|prior|..];
    OpenDeltaIsGrouped(user, delta);
    assert request == prior + delta && request[..|prior|] == prior;
    if Grouped(prior) {
      GroupedAppend(prior, delta);
    }
    if Grouped(request) {
      GroupedPrefix(request, |prior|);
    }
    assert forall i :: 0 <= i < |prior| ==> request[i] == prior[i];
    AnsweredAppend(prior, delta);
  }

  lemma {:induction false} DeltaIsGrouped(user: string, delta: seq<Message>)
    requires DeltaShape(user, delta)
    ensures delta != [] && delta[0] == User(user) && Grouped(delta) && SummaryFree(delta)
  {
    if OpenDelta(user, delta) {
      OpenDeltaIsGrouped(user, delta);
    } else {
      var init, last := delta[..|delta| - 1], [delta[|delta| - 1]];
      OpenDeltaIsGrouped(user, init);
      GroupedAppend(init, last);
      assert delta == init + last;
    }
  }

  /** The last word holds calls that were never run. */
  predicate EndsOpen(delta: seq<Message>)
  {
    delta != [] && delta[|delta| - 1].Assistant? && ToolUses(delta[|delta| - 1].content) != []
  }

  /** Calls that were not run can only be in the last word of a delta. */
  lemma {:induction false} OpenCallsAreLast(user: string, delta: seq<Message>)
    requires DeltaShape(user, delta)
    ensures Answered(delta) <==> !EndsOpen(delta)
    ensures EndsOpen(delta) ==> Answered(delta[..|delta| - 1])
  {
    var init, last := delta[..|delta| - 1], delta[|delta| - 1];
    assert delta == init + [last];
    AnsweredAppend(init, [last]);
    AnsweredOne(last);
    if OpenDelta(user, delta) {
      OpenDeltaIsGrouped(user, delta);
      assert CallsAnswered(delta, |delta| - 1);
    } else {
      OpenDeltaIsGrouped(user, init);
    }
  }

  /** The run ended with an answer that is kept although it calls tools nobody ran: any stop reason but the one for
      tools, with tool calls among the blocks. */
  predicate LeavesCallsOpen(model: Model, log: seq<seq<Message>>, stop: Stop)
    requires log != []
  {
    var answer := model(|log| - 1, log[|log| - 1]);
    (stop.Complete? || stop.Truncated?) && answer.Response? && ToolUses(answer.content) != []
  }

  /** Every call in what a run adds has its result, exactly unless the final answer left calls open. */
  lemma {:induction false} DeltaIsAnsweredExactly(model: Model, tools: Tools, limits: Limits, prior: seq<Message>,
                                                  user: string)
    ensures var (r, log) := Finish(model, tools, limits, prior, [], [User(user)], Usage(0, 0));
            && log != [] && (Answered(r.delta) <==> !LeavesCallsOpen(model, log, r.stop))
            && (LeavesCallsOpen(model, log, r.stop) ==> Answered(r.delta[..|r.delta| - 1]))
  {
    var (r, log) := Finish(model, tools, limits, prior, [], [User(user)], Usage(0, 0));
    EveryRunIsDone(model, tools, limits, prior, user);
    var asked, answer := log[|log| - 1], model(|log| - 1, log[|log| - 1]);
    var open := asked[|prior|..];
    assert RequestShape(prior, user, asked) && asked == prior + open;
    OpenDeltaIsGrouped(user, open);
    if r.stop.Complete? || r.stop.Truncated? {
      var last := Assistant(answer.content);
      Associate(prior, open, [last]);
      SameTail(prior, r.delta, open + [last]);
      AnsweredAppend(open, [last]);
      AnsweredOne(last);
      assert r.delta[..|open|] == open;
    } else if r.stop.IterationLimit? {
      var round := [Assistant(answer.content)] + Results(tools, |log|, answer.content);
      RoundContinues(tools, |log|, asked, answer.content, prior + r.delta);
      Associate(prior, open, round);
      SameTail(prior, r.delta, open + round);
      RoundIsGrouped(round);
      AnsweredAppend(open, round);
    } else {
      SameTail(prior, r.delta, open);
    }
  }

  lemma {:induction false} SameTail<T>(prior: seq<T>, a: seq<T>, b: seq<T>)
    requires prior + a == prior + b
    ensures a == b
  {
    assert a == (prior + a)[|prior|..] && b == (prior + b)[|prior|..];
  }

  /** Such a run, for every call, every way to stop but the one for tools, and every prior conversation. */
  lemma {:induction false} OpenCallStays(model: Model, tools: Tools, limits: Limits, prior: seq<Message>, user: string,
                      use: Block, stop: LlmStop, input: nat, output: nat)
    requires use.ToolUse? && !stop.ToolUseStop? && input + output <= limits.maxTotalTokens
    requires model(0, prior + [User(user)]) == Response([use], stop, input, output)
    ensures var (r, log) := Finish(model, tools, limits, prior, [], [User(user)], Usage(0, 0));
            r.delta == [User(user), Assistant([use])] && !Answered(r.delta)
  {
    var (r, log) := Finish(model, tools, limits, prior, [], [User(user)], Usage(0, 0));
    assert r.delta == [User(user)] + [Assistant([use])];
    assert [use][..0] == [];
    assert ToolUses([use]) == [use];
    assert !CallsAnswered(r.delta, 1);
  }

  // ---------------------------------------------------------------------------
  // Running from a single message, with nudges
  // ---------------------------------------------------------------------------

  datatype Outcome = Outcome(usage: Usage, iterations: nat, stop: Stop)

  /** The response ends the turn: by its stop reason, whatever blocks it holds, or by stopping for tools without
      calling any. */
  predicate EndsTurn(c: Completion)
  {
    c.Response? && (c.stop.EndTurn? || c.stop.StopSequence? || (c.stop.ToolUseStop? && ToolUses(c.content) == []))
  }

  /** A response that ends the turn is answered with the nudge, any other with its results. */
  function AfterAnswer(model: Model, tools: Tools, nudge: string, i: nat, asked: seq<Message>): (r: seq<Message>)
  {
    var answer := model(i, asked);
    if EndsTurn(answer) then asked + [Assistant(answer.content), User(nudge)]
    else WithRound(model, tools, i, asked)
  }

  predicate Continued(model: Model, tools: Tools, nudge: string, log: seq<seq<Message>>)
  {
    forall i :: 0 < i < |log| ==> ContinuedAt(model, tools, nudge, log, i)
  }

  predicate ContinuedAt(model: Model, tools: Tools, nudge: string, log: seq<seq<Message>>, i: nat)
    requires 0 < i < |log|
  {
    ContinuesOrNudges(tools, i, nudge, model(i - 1, log[i - 1]), log[i - 1], log[i])
  }

  /** The next request holds the results when the answer stopped for tools and called some, and else the nudge. */
  predicate ContinuesOrNudges(tools: Tools, iteration: nat, nudge: string, answer: Completion, asked: seq<Message>,
                              next: seq<Message>)
  {
    && answer.Response? && !answer.stop.MaxTokens?
    && if answer.stop.ToolUseStop? && ToolUses(answer.content) != []
       then Continues(tools, iteration, asked, answer.content, next)
       else next == asked + [Assistant(answer.content), User(nudge)]
  }

  lemma {:induction false} AfterAnswerContinues(model: Model, tools: Tools, nudge: string, i: nat, asked: seq<Message>,
                                                next: seq<Message>)
    requires model(i, asked).Response? && !model(i, asked).stop.MaxTokens?
    ensures next == AfterAnswer(model, tools, nudge, i, asked) <==>
            ContinuesOrNudges(tools, i + 1, nudge, model(i, asked), asked, next)
  {
    RoundContinues(tools, i + 1, asked, model(i, asked).content, next);
  }

  lemma {:induction false} ContinuationExtends(model: Model, tools: Tools, nudge: string, log: seq<seq<Message>>)
    requires log != [] && Continued(model, tools, nudge, log)
    requires var answer := model(|log| - 1, log[|log| - 1]); answer.Response? && !answer.stop.MaxTokens?
    ensures Continued(model, tools, nudge, log + [AfterAnswer(model, tools, nudge, |log| - 1, log[|log| - 1])])
  {
    var longer := log + [AfterAnswer(model, tools, nudge, |log| - 1, log[|log| - 1])];
    AfterAnswerContinues(model, tools, nudge, |log| - 1, log[|log| - 1], longer[|log|]);
    forall i | 0 < i < |longer|
      ensures ContinuedAt(model, tools, nudge, longer, i)
    {
      assert i < |log| ==> ContinuedAt(model, tools, nudge, log, i);
    }
  }

  /** How many of the first `n` answers ended the turn. */
  function Idle(model: Model, log: seq<seq<Message>>, n: nat): (k: nat)
    requires n <= |log|
  {
    if n == 0 then 0 else Idle(model, log, n - 1) + if EndsTurn(model(n - 1, log[n - 1])) then 1 else 0
  }

  lemma {:induction false} IdleOfPrefix(model: Model, log: seq<seq<Message>>, more: seq<seq<Message>>, n: nat)
    requires n <= |log|
    ensures Idle(model, log + more, n) == Idle(model, log, n)
  {
    if n > 0 {
      IdleOfPrefix(model, log, more, n - 1);
      assert (log + more)[n - 1] == log[n - 1];
    }
  }

  /** How a run ended: it completes only when every nudge has been spent, and only a turn that called tools
      can hit the iteration limit. */
  predicate RunEndsAs(model: Model, limits: Limits, log: seq<seq<Message>>, r: Outcome)
    requires log != []
  {
    var answer := model(|log| - 1, log[|log| - 1]);
    var nudges := Idle(model, log, |log| - 1);
    && nudges <= limits.commitNudges
    && match r.stop
       case Error(message) => answer == Failure(message)
       case TokenLimit => answer.Response?
       case Truncated => answer.Response? && answer.stop.MaxTokens?
       case Complete => EndsTurn(answer) && nudges == limits.commitNudges
       case IterationLimit =>
         && answer.Response? && answer.stop.ToolUseStop? && ToolUses(answer.content) != []
         && r.iterations >= limits.maxIterations
  }

  /** Every request starts with the initial message, is grouped and extends the one before it. */
  predicate RequestsGrow(initial: string, log: seq<seq<Message>>)
  {
    && (forall i :: 0 <= i < |log| ==> [User(initial)] <= log[i] && Grouped(log[i]) && SummaryFree(log[i]))
    && (forall i :: 0 < i < |log| ==> GrowsAt(log, i))
  }

  predicate GrowsAt(log: seq<seq<Message>>, i: nat)
    requires 0 < i < |log|
  {
    log[i - 1] < log[i]
  }

  lemma {:induction false} GrowRequest(initial: string, log: seq<seq<Message>>, messages: seq<Message>,
                                       added: seq<Message>)
    requires log != [] && log[|log| - 1] == messages && RequestsGrow(initial, log)
    requires added != [] && Grouped(added) && SummaryFree(added)
    ensures RequestsGrow(initial, log + [messages + added])
  {
    GroupedAppend(messages, added);
    var longer := log + [messages + added];
    forall i | 0 < i < |longer|
      ensures GrowsAt(longer, i)
    {
      assert i < |log| ==> GrowsAt(log, i);
    }
  }

  /** The requests of a run with nudges, the one about to be made included. */
  predicate Asking(model: Model, tools: Tools, initial: string, nudge: string, log: seq<seq<Message>>)
  {
    log != [] && RequestsGrow(initial, log) && log[0] == [User(initial)] && Continued(model, tools, nudge, log)
  }

  /** Of `n` answers, `idle` ended the turn. */
  predicate Paced(limits: Limits, n: nat, idle: nat)
  {
    idle <= limits.commitNudges && (n == idle || n - idle < limits.maxIterations)
  }

  /** A finished run: each request continues the one before it, the account is exact, and there were at most
      as many calls as iterations and nudges allow. */
  predicate Played(model: Model, tools: Tools, limits: Limits, initial: string, nudge: string,
                   run: (Outcome, seq<seq<Message>>))
  {
    Asking(model, tools, initial, nudge, run.1) && PaidFor(model, limits, run) && Bounded(model, limits, run)
  }

  /** Does the run go on after this answer? */
  predicate GoesOn(limits: Limits, made: nat, usage: Usage, nudges: nat, answer: Completion)
  {
    && answer.Response? && !OverLimit(Plus(usage, answer), limits) && !answer.stop.MaxTokens?
    && if EndsTurn(answer) then nudges < limits.commitNudges else made + 1 < limits.maxIterations
  }

  /** How the run ends when it does not go on; the last answer is the one after `made` others. */
  function Ending(limits: Limits, made: nat, usage: Usage, answer: Completion): (r: Outcome)
  {
    if answer.Failure? then Outcome(usage, made, Error(answer.message))
    else
      var usage' := Plus(usage, answer);
      var stop := if OverLimit(usage', limits) then TokenLimit
                  else if answer.stop.MaxTokens? then Truncated
                  else if EndsTurn(answer) then Complete
                  else IterationLimit;
      Outcome(usage', made + 1, stop)
  }

  /** The rest of a run with nudges; `nudges` counts those already spent. */
  function Play(model: Model, tools: Tools, limits: Limits, nudge: string, log: seq<seq<Message>>,
                messages: seq<Message>, usage: Usage, nudges: nat): (r: (Outcome, seq<seq<Message>>))
    decreases limits.commitNudges - nudges, limits.maxIterations - |log|
  {
    var answer := model(|log|, messages);
    if GoesOn(limits, |log|, usage, nudges, answer)
    then Play(model, tools, limits, nudge, log + [messages], AfterAnswer(model, tools, nudge, |log|, messages),
              Plus(usage, answer), nudges + if EndsTurn(answer) then 1 else 0)
    else (Ending(limits, |log|, usage, answer), log + [messages])
  }

  lemma {:induction false} AskingExtends(model: Model, tools: Tools, initial: string, nudge: string,
                                         log: seq<seq<Message>>)
    requires Asking(model, tools, initial, nudge, log)
    requires var answer := model(|log| - 1, log[|log| - 1]); answer.Response? && !answer.stop.MaxTokens?
    ensures Asking(model, tools, initial, nudge, log + [AfterAnswer(model, tools, nudge, |log| - 1, log[|log| - 1])])
  {
    var messages := log[|log| - 1];
    var answer := model(|log| - 1, messages);
    ContinuationExtends(model, tools, nudge, log);
    if EndsTurn(answer) {
      GrowRequest(initial, log, messages, [Assistant(answer.content), User(nudge)]);
    } else {
      var added := [Assistant(answer.content)] + Results(tools, |log|, answer.content);
      RoundIsGrouped(added);
      GrowRequest(initial, log, messages, added);
    }
  }

  lemma {:induction false} IdleAfter(model: Model, log: seq<seq<Message>>, messages: seq<Message>,
                                     log': seq<seq<Message>>)
    requires log' == log + [messages]
    ensures Idle(model, log', |log'|) == Idle(model, log, |log|) + if EndsTurn(model(|log|, messages)) then 1 else 0
  {
    IdleOfPrefix(model, log, [messages], |log|);
  }

  lemma {:induction false} FirstRequest(model: Model, tools: Tools, initial: string, nudge: string,
                                        log: seq<seq<Message>>)
    requires log == [[User(initial)]]
    ensures Asking(model, tools, initial, nudge, log)
  {
    assert Grouped(log[0]) && SummaryFree(log[0]);
  }

  lemma {:induction false} PlayAsks(model: Model, tools: Tools, limits: Limits, initial: string, nudge: string,
                                    log: seq<seq<Message>>, messages: seq<Message>, usage: Usage, nudges: nat,
                                    run: (Outcome, seq<seq<Message>>))
    requires Asking(model, tools, initial, nudge, log + [messages])
    requires run == Play(model, tools, limits, nudge, log, messages, usage, nudges)
    ensures Asking(model, tools, initial, nudge, run.1)
    decreases limits.commitNudges - nudges, limits.maxIterations - |log|
  {
    var answer := model(|log|, messages);
    if GoesOn(limits, |log|, usage, nudges, answer) {
      AskingExtends(model, tools, initial, nudge, log + [messages]);
      PlayAsks(model, tools, limits, initial, nudge, log + [messages],
               AfterAnswer(model, tools, nudge, |log|, messages), Plus(usage, answer),
               nudges + (if EndsTurn(answer) then 1 else 0), run);
    }
  }

  /** The account is exact, was within the limit before every call, and goes over it only to end the run. */
  predicate PaidFor(model: Model, limits: Limits, run: (Outcome, seq<seq<Message>>))
  {
    && Accounted(model, limits, run.1, run.0.iterations, run.0.usage)
    && (run.0.stop.TokenLimit? <==> run.0.usage.input + run.0.usage.output > limits.maxTotalTokens)
  }

  lemma {:induction false} PlayPays(model: Model, tools: Tools, limits: Limits, nudge: string,
                                    log: seq<seq<Message>>, messages: seq<Message>, usage: Usage, nudges: nat,
                                    run: (Outcome, seq<seq<Message>>))
    requires Accounted(model, limits, log, |log|, usage) && !OverLimit(usage, limits)
    requires run == Play(model, tools, limits, nudge, log, messages, usage, nudges)
    ensures PaidFor(model, limits, run)
    decreases limits.commitNudges - nudges, limits.maxIterations - |log|
  {
    var answer := model(|log|, messages);
    RecordCall(model, limits, log, usage, messages);
    if GoesOn(limits, |log|, usage, nudges, answer) {
      PlayPays(model, tools, limits, nudge, log + [messages], AfterAnswer(model, tools, nudge, |log|, messages),
               Plus(usage, answer), nudges + (if EndsTurn(answer) then 1 else 0), run);
    }
  }

  /** The number of calls is bounded, and the way the run ended fits its last answer. */
  predicate Bounded(model: Model, limits: Limits, run: (Outcome, seq<seq<Message>>))
  {
    0 < |run.1| <= AtLeastOne(limits.maxIterations) + limits.commitNudges && RunEndsAs(model, limits, run.1, run.0)
  }

  lemma {:induction false} PlayIsBounded(model: Model, tools: Tools, limits: Limits, nudge: string,
                                         log: seq<seq<Message>>, messages: seq<Message>, usage: Usage, nudges: nat,
                                         run: (Outcome, seq<seq<Message>>))
    requires nudges == Idle(model, log, |log|) && Paced(limits, |log|, nudges)
    requires run == Play(model, tools, limits, nudge, log, messages, usage, nudges)
    ensures Bounded(model, limits, run)
    decreases limits.commitNudges - nudges, limits.maxIterations - |log|
  {
    var answer := model(|log|, messages);
    if GoesOn(limits, |log|, usage, nudges, answer) {
      IdleAfter(model, log, messages, log + [messages]);
      PlayIsBounded(model, tools, limits, nudge, log + [messages], AfterAnswer(model, tools, nudge, |log|, messages),
                    Plus(usage, answer), nudges + (if EndsTurn(answer) then 1 else 0), run);
    } else {
      IdleOfPrefix(model, log, [messages], |log|);
    }
  }

  /** For every model, every behaviour of the tools and all limits. */
  lemma {:induction false} EveryRunIsPlayed(model: Model, tools: Tools, limits: Limits, initial: string, nudge: string)
    ensures Played(model, tools, limits, initial, nudge,
                   Play(model, tools, limits, nudge, [], [User(initial)], Usage(0, 0), 0))
  {
    var run := Play(model, tools, limits, nudge, [], [User(initial)], Usage(0, 0), 0);
    FirstRequest(model, tools, initial, nudge, [] + [[User(initial)]]);
    PlayAsks(model, tools, limits, initial, nudge, [], [User(initial)], Usage(0, 0), 0, run);
    PlayPays(model, tools, limits, nudge, [], [User(initial)], Usage(0, 0), 0, run);
    PlayIsBounded(model, tools, limits, nudge, [], [User(initial)], Usage(0, 0), 0, run);
  }

  method Run(limits: Limits, initial: string, nudge: string, toolsListed: bool, model: Model, tools: Tools)
    returns (r: Outcome, log: seq<seq<Message>>)
    ensures !toolsListed ==> log == [] && r.stop.Error? && r.usage == Usage(0, 0) && r.iterations == 0
    ensures toolsListed ==> (r, log) == Play(model, tools, limits, nudge, [], [User(initial)], Usage(0, 0), 0)
  {
    log := [];
    var usage := Usage(0, 0);
    if !toolsListed {
      return Outcome(usage, 0, Error("failed to list tools")), log;
    }
    var messages := [User(initial)];
    var iterations, nudges := 0, 0;
    ghost var run := Play(model, tools, limits, nudge, [], [User(initial)], Usage(0, 0), 0);
    while true
      invariant |log| == iterations
      invariant run == Play(model, tools, limits, nudge, log, messages, usage, nudges)
      decreases limits.commitNudges - nudges, limits.maxIterations - iterations
    {
      log := log + [messages];
      var response := model(iterations, messages);
      if response.Failure? {
        return Outcome(usage, iterations, Error(response.message)), log;
      }
      iterations := iterations + 1;
      usage := Usage(usage.input + response.inputTokens, usage.output + response.outputTokens);
      if usage.input + usage.output > limits.maxTotalTokens {
        return Outcome(usage, iterations, TokenLimit), log;
      }
      if response.stop.MaxTokens? {
        return Outcome(usage, iterations, Truncated), log;
      }
      if response.stop.EndTurn? || response.stop.StopSequence? || ToolUses(response.content) == [] {
        if nudges >= limits.commitNudges {
          return Outcome(usage, iterations, Complete), log;
        }
        nudges := nudges + 1;
        messages := messages + [Assistant(response.content), User(nudge)];
      } else {
        var results := RunTools(tools, iterations, response.content);
        messages := messages + ([Assistant(response.content)] + results);
        if iterations >= limits.maxIterations {
          return Outcome(usage, iterations, IterationLimit), log;
        }
      }
    }
  }

  /** The nudge follows this response although it calls tools. */
  predicate EndsWithOpenCalls(c: Completion)
  {
    EndsTurn(c) && ToolUses(c.content) != []
  }

  lemma {:induction false} AfterAnswerIsAnswered(model: Model, tools: Tools, nudge: string, i: nat, asked: seq<Message>)
    requires model(i, asked).Response?
    ensures Answered(AfterAnswer(model, tools, nudge, i, asked)) <==>
            Answered(asked) && !EndsWithOpenCalls(model(i, asked))
  {
    var answer := model(i, asked);
    if EndsTurn(answer) {
      NudgeIsAnswered(asked, answer.content, nudge);
    } else {
      var round := [Assistant(answer.content)] + Results(tools, i + 1, answer.content);
      RoundIsGrouped(round);
      AnsweredAppend(asked, round);
    }
  }

  /** None of the first `n` responses ended the turn with calls open. */
  predicate NoneOpen(model: Model, log: seq<seq<Message>>, n: nat)
    requires n <= |log|
  {
    n == 0 || (NoneOpen(model, log, n - 1) && !EndsWithOpenCalls(model(n - 1, log[n - 1])))
  }

  lemma {:induction false} NoneOpenMeans(model: Model, log: seq<seq<Message>>, n: nat)
    requires n <= |log|
    ensures NoneOpen(model, log, n) <==> forall j :: 0 <= j < n ==> !EndsWithOpenCalls(model(j, log[j]))
  {
    if n > 0 {
      NoneOpenMeans(model, log, n - 1);
    }
  }

  lemma {:induction false} ContinuedIsAnswered(model: Model, tools: Tools, nudge: string, log: seq<seq<Message>>,
                                               i: nat)
    requires i < |log| && Continued(model, tools, nudge, log) && Answered(log[0])
    requires forall j :: 0 <= j < i ==> model(j, log[j]).Response?
    ensures Answered(log[i]) <==> NoneOpen(model, log, i)
  {
    if i > 0 {
      assert ContinuedAt(model, tools, nudge, log, i);
      ContinuedIsAnswered(model, tools, nudge, log, i - 1);
      AfterAnswerContinues(model, tools, nudge, i - 1, log[i - 1], log[i]);
      AfterAnswerIsAnswered(model, tools, nudge, i - 1, log[i - 1]);
    }
  }

  /** Every call in a request of a run with nudges has its result, exactly when no earlier response ended the turn
      with calls open. */
  lemma {:induction false} NudgedRequestIsAnsweredExactly(model: Model, tools: Tools, limits: Limits, initial: string,
                                                          nudge: string, run: (Outcome, seq<seq<Message>>), i: nat)
    requires Played(model, tools, limits, initial, nudge, run) && i < |run.1|
    ensures Answered(run.1[i]) <==> forall j :: 0 <= j < i ==> !EndsWithOpenCalls(model(j, run.1[j]))
  {
    AnsweredOne(User(initial));
    ContinuedIsAnswered(model, tools, nudge, run.1, i);
    NoneOpenMeans(model, run.1, i);
  }

  lemma {:induction false} NudgeIsAnswered(asked: seq<Message>, content: seq<Block>, nudge: string)
    ensures Answered(asked + [Assistant(content), User(nudge)]) <==> Answered(asked) && ToolUses(content) == []
  {
    var last, user := [Assistant(content)], [User(nudge)];
    assert [Assistant(content), User(nudge)] == last + user;
    AnsweredAppend(asked, last + user);
    AnsweredAppend(last, user);
    AnsweredOne(last[0]);
    AnsweredOne(user[0]);
  }
}
