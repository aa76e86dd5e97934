/** Token budgets: a 64-bit counter raised by compare-exchange and cleared by resets. */
module Budgets {

  const U64: nat := 0x1_0000_0000_0000_0000

  // ---------------------------------------------------------------------------
  // Any number of tasks, one atomic step at a time
  // ---------------------------------------------------------------------------

  /** A task between its read of the counter and its exchange. */
  datatype Pc = Idle | Loaded(tokens: nat, current: nat)

  datatype Event = Accepted(tokens: nat) | Zeroed | Quiet

  datatype System = System(max: nat, used: nat, tasks: seq<Pc>, log: seq<Event>)

  datatype Step =
    | Track(t: nat, tokens: nat)
    | Exchange(t: nat, spurious: bool)
    | StoreZero

  /** The sum the code computes before it compares with the limit; it wraps. */
  function NewTotal(current: nat, tokens: nat): (r: nat)
  {
    (current + tokens) % U64
  }

  function Reload(s: System, t: nat, tokens: nat): (pc: Pc)
    requires t < |s.tasks|
  {
    if NewTotal(s.used, tokens) > s.max then Idle else Loaded(tokens, s.used)
  }

  predicate Enabled(s: System, step: Step)
  {
    match step
    case Track(t, _) => t < |s.tasks| && s.tasks[t].Idle?
    case Exchange(t, _) => t < |s.tasks| && s.tasks[t].Loaded?
    case StoreZero => true
  }

  function Next(s: System, step: Step): (r: System)
  {
    if !Enabled(s, step) then s else
    match step
    case Track(t, tokens) => s.(tasks := s.tasks[t := Reload(s, t, tokens)], log := s.log + [Quiet])
    case Exchange(t, spurious) =>
      var pc := s.tasks[t];
      if s.used == pc.current && !spurious
      then System(s.max, NewTotal(pc.current, pc.tokens), s.tasks[t := Idle], s.log + [Accepted(pc.tokens)])
      else s.(tasks := s.tasks[t := Reload(s, t, pc.tokens)], log := s.log + [Quiet])
    case StoreZero => s.(used := 0, log := s.log + [Zeroed])
  }

  function Run(s: System, steps: seq<Step>): (r: System)
    decreases |steps|
  {
    if steps == [] then s else Run(Next(s, steps[0]), steps[1..])
  }

  function Init(max: nat, tasks: nat): (s: System)
  {
    System(max, 0, seq(tasks, _ => Idle), [])
  }

  /** The tokens accepted since the counter was last cleared. */
  function Since(log: seq<Event>): (n: nat)
  {
    if log == [] then 0 else
    match log[|log| - 1]
    case Accepted(tokens) => Since(log[..|log| - 1]) + tokens
    case Zeroed => 0
    case Quiet => Since(log[..|log| - 1])
  }

  lemma {:induction false} SinceAfter(log: seq<Event>, e: Event)
    ensures Since(log + [e])
         == match e case Accepted(tokens) => Since(log) + tokens case Zeroed => 0 case Quiet => Since(log)
  {
    assert (log + [e])[..|log|] == log;
  }

  /** The counter is the tokens accepted since the last clearing, and within the limit. */
  predicate Exact(s: System)
  {
    s.used == Since(s.log) <= s.max
  }

  predicate Inv(s: System, most: nat)
  {
    Exact(s) && s.max + most < U64 && AllPending(s.max, most, s.tasks)
  }

  predicate AtMost(most: nat, steps: seq<Step>)
  {
    forall i :: 0 <= i < |steps| && steps[i].Track? ==> steps[i].tokens <= most
  }

  lemma {:induction false} FittingSum(current: nat, tokens: nat)
    requires current + tokens < U64
    ensures NewTotal(current, tokens) == current + tokens
  {
  }

  /** What a task may hold between its read and its exchange. */
  predicate Pending(max: nat, most: nat, pc: Pc)
  {
    pc.Loaded? ==> pc.tokens <= most && NewTotal(pc.current, pc.tokens) <= max
  }

  predicate AllPending(max: nat, most: nat, tasks: seq<Pc>)
  {
    forall t :: 0 <= t < |tasks| ==> Pending(max, most, tasks[t])
  }

  lemma {:induction false} TaskStaysPending(max: nat, most: nat, tasks: seq<Pc>, t: nat, pc: Pc)
    requires AllPending(max, most, tasks) && t < |tasks| && Pending(max, most, pc)
    ensures AllPending(max, most, tasks[t := pc])
  {
  }

  lemma {:induction false} ReloadKeepsInv(s: System, step: Step, t: nat, tokens: nat, most: nat)
    requires Inv(s, most) && t < |s.tasks| && tokens <= most
    requires Next(s, step) == s.(tasks := s.tasks[t := Reload(s, t, tokens)], log := s.log + [Quiet])
    ensures Inv(Next(s, step), most)
  {
    SinceAfter(s.log, Quiet);
    TaskStaysPending(s.max, most, s.tasks, t, Reload(s, t, tokens));
  }

  lemma {:induction false} AcceptKeepsInv(s: System, t: nat, most: nat)
    requires Inv(s, most) && t < |s.tasks| && s.tasks[t].Loaded? && s.used == s.tasks[t].current
    ensures Inv(Next(s, Exchange(t, false)), most)
  {
    var pc := s.tasks[t];
    assert Pending(s.max, most, pc);
    FittingSum(pc.current, pc.tokens);
    SinceAfter(s.log, Accepted(pc.tokens));
    TaskStaysPending(s.max, most, s.tasks, t, Idle);
  }

  lemma {:induction false} StepKeepsInv(s: System, step: Step, most: nat)
    requires Inv(s, most) && (step.Track? ==> step.tokens <= most)
    ensures Inv(Next(s, step), most) && Next(s, step).max == s.max
  {
    if Enabled(s, step) {
      match step
      case Track(t, tokens) => ReloadKeepsInv(s, step, t, tokens, most);
      case Exchange(t, spurious) =>
        assert Pending(s.max, most, s.tasks[t]);
        if s.used == s.tasks[t].current && !spurious {
          AcceptKeepsInv(s, t, most);
        } else {
          ReloadKeepsInv(s, step, t, s.tasks[t].tokens, most);
        }
      case StoreZero => SinceAfter(s.log, Zeroed);
    }
  }

  lemma {:induction false} RunKeepsInv(s: System, steps: seq<Step>, most: nat)
    requires Inv(s, most) && AtMost(most, steps)
    ensures Inv(Run(s, steps), most) && Run(s, steps).max == s.max
    decreases |steps|
  {
    if steps != [] {
      StepKeepsInv(s, steps[0], most);
      RunKeepsInv(Next(s, steps[0]), steps[1..], most);
    }
  }

  /** An exchange that fails, because the counter moved or for no reason at all, accepts nothing. */
  lemma {:induction false} FailedExchangeAcceptsNothing(s: System, t: nat, spurious: bool)
    requires Enabled(s, Exchange(t, spurious)) && (spurious || s.used != s.tasks[t].current)
    ensures var r := Next(s, Exchange(t, spurious));
            r.used == s.used && Since(r.log) == Since(s.log)
  {
    SinceAfter(s.log, Quiet);
  }

  // ---------------------------------------------------------------------------
  // Exactly when the account is exact
  // ---------------------------------------------------------------------------

  ghost predicate AlwaysExact(max: nat, most: nat)
  {
    forall tasks: nat, steps: seq<Step> :: AtMost(most, steps) ==> Exact(Run(Init(max, tasks), steps))
  }

  lemma {:induction false} RunOfAppend(s: System, a: seq<Step>, b: seq<Step>)
    ensures Run(s, a + b) == Run(Run(s, a), b)
    decreases |a|
  {
    if a == [] {
      assert a + b == b;
    } else {
      RunOfAppend(Next(s, a[0]), a[1..], b);
      assert (a + b)[1..] == a[1..] + b;
    }
  }

  function Call(tokens: nat): (r: seq<Step>)
  {
    [Track(0, tokens), Exchange(0, false)]
  }

  /** An undisturbed call by a single task. */
  lemma {:induction false} CallAlone(s: System, tokens: nat)
    requires s.tasks == [Idle] && NewTotal(s.used, tokens) <= s.max
    ensures var r := Run(s, Call(tokens));
            && r.max == s.max && r.tasks == [Idle]
            && r.used == NewTotal(s.used, tokens) && Since(r.log) == Since(s.log) + tokens
  {
    var read := Next(s, Call(tokens)[0]);
    var done := Next(read, Call(tokens)[1]);
    assert read.tasks[0] == Loaded(tokens, s.used);
    assert done.tasks == [Idle];
    SinceAfter(s.log, Quiet);
    SinceAfter(read.log, Accepted(tokens));
    assert Run(done, []) == done;
    assert Call(tokens)[1..][1..] == [];
  }

  function Ones(n: nat): (r: seq<Step>)
  {
    if n == 0 then [] else Ones(n - 1) + Call(1)
  }

  lemma {:induction false} OnesFill(max: nat, n: nat)
    requires n <= max < U64
    ensures var r := Run(Init(max, 1), Ones(n));
            r.max == max && r.tasks == [Idle] && r.used == n == Since(r.log)
    ensures AtMost(1, Ones(n))
  {
    if n > 0 {
      OnesFill(max, n - 1);
      RunOfAppend(Init(max, 1), Ones(n - 1), Call(1));
      CallAlone(Run(Init(max, 1), Ones(n - 1)), 1);
    }
  }

  /** A full counter and one call that carries the sum past 64 bits: the call is accepted, the counter
      restarts from zero, and the account is off by the whole range. */
  lemma {:induction false} SumThatWraps(max: nat)
    requires 0 < max < U64
    ensures var steps := Ones(max) + Call(U64 - max);
            var r := Run(Init(max, 1), steps);
            AtMost(U64 - max, steps) && r.used == 0 && Since(r.log) == U64
  {
    OnesFill(max, max);
    RunOfAppend(Init(max, 1), Ones(max), Call(U64 - max));
    CallAlone(Run(Init(max, 1), Ones(max)), U64 - max);
  }

  /** For every limit: in every interleaving of calls of at most `most` tokens and of resets, the counter
      is exactly what was accepted since the last clearing and within the limit, if and only if the limit
      plus one call fits in 64 bits. */
  lemma {:induction false} ExactExactlyWhenSumsFit(max: nat, most: nat)
    requires max < U64 && most < U64
    ensures AlwaysExact(max, most) <==> max + most < U64
  {
    if max + most < U64 {
      forall tasks: nat, steps: seq<Step> | AtMost(most, steps)
        ensures Exact(Run(Init(max, tasks), steps))
      {
        RunKeepsInv(Init(max, tasks), steps, most);
      }
    } else {
      SumThatWraps(max);
      var steps := Ones(max) + Call(U64 - max);
      assert AtMost(most, steps) && !Exact(Run(Init(max, 1), steps));
    }
  }

  // ---------------------------------------------------------------------------
  // Periods: one call at a time under a clock
  // ---------------------------------------------------------------------------

  datatype Config = Config(max: nat, period: nat)

  datatype Tracker = Tracker(used: nat, start: nat, last: nat)

  /** Is a reset due when a call arrives? The gate looks at most once per second. */
  predicate Due(c: Config, s: Tracker, now: nat)
  {
    c.period != 0 && now > s.last && now >= s.start + c.period
  }

  function MaybeReset(c: Config, s: Tracker, now: nat): (r: Tracker)
  {
    if c.period == 0 || now <= s.last then s
    else if Due(c, s, now) then Tracker(0, now, now)
    else s.(last := now)
  }

  predicate Admits(c: Config, s: Tracker, now: nat, tokens: nat)
  {
    NewTotal(MaybeReset(c, s, now).used, tokens) <= c.max
  }

  function Tracked(c: Config, s: Tracker, now: nat, tokens: nat): (r: Tracker)
  {
    var ready := MaybeReset(c, s, now);
    if Admits(c, s, now, tokens) then ready.(used := NewTotal(ready.used, tokens)) else ready
  }

  function SaturatingSub(a: nat, b: nat): (r: nat)
  {
    if a >= b then a - b else 0
  }

  class BudgetTracker {
    const config: Config
    var usedTokens: nat
    var periodStart: nat
    var lastResetCheck: nat

    function View(): (r: Tracker)
      reads this
    {
      Tracker(usedTokens, periodStart, lastResetCheck)
    }

    constructor (config: Config, now: nat)
      ensures this.config == config && View() == Tracker(0, now, now)
    {
      this.config := config;
      usedTokens, periodStart, lastResetCheck := 0, now, now;
    }

    method Reset(now: nat)
      modifies this
      ensures View() == Tracker(0, now, now)
    {
      usedTokens := 0;
      periodStart := now;
      lastResetCheck := now;
    }

    /** `spurious` is how often the weak exchange fails for no reason. */
    method TryReset(now: nat, spurious: nat)
      modifies this
      ensures View() == MaybeReset(config, old(View()), now)
    {
      if config.period == 0 {
        return;
      }
      var failures := spurious;
      while true
        invariant View() == old(View())
        decreases failures
      {
        var last := lastResetCheck;
        if SaturatingSub(now, last) < 1 {
          return;
        }
        if lastResetCheck == last && failures == 0 {
          lastResetCheck := now;
          break;
        }
        failures := failures - 1;
      }
      var start := periodStart;
      if SaturatingSub(now, start) >= config.period {
        Reset(now);
      }
    }

    method Track(now: nat, tokens: nat, spurious: nat) returns (ok: bool)
      modifies this
      ensures ok == Admits(config, old(View()), now, tokens)
      ensures View() == Tracked(config, old(View()), now, tokens)
    {
      TryReset(now, spurious);
      var current := usedTokens;
      var failures := spurious;
      while true
        invariant current == usedTokens && View() == MaybeReset(config, old(View()), now)
        decreases failures
      {
        var total := NewTotal(current, tokens);
        if total > config.max {
          return false;
        }
        if usedTokens == current && failures == 0 {
          usedTokens := total;
          return true;
        }
        current := usedTokens;
        failures := failures - 1;
      }
    }
  }

  /** A call: when it arrives and how many tokens it asks for. */
  datatype Request = Request(now: nat, tokens: nat)

  function After(c: Config, s: Tracker, calls: seq<Request>): (r: Tracker)
    decreases |calls|
  {
    if calls == [] then s else After(c, Tracked(c, s, calls[0].now, calls[0].tokens), calls[1..])
  }

  function Granted(c: Config, s: Tracker, r: Request): (n: nat)
  {
    if Admits(c, s, r.now, r.tokens) then r.tokens else 0
  }

  /** The tokens accepted by a run of calls. */
  function Spent(c: Config, s: Tracker, calls: seq<Request>): (n: nat)
    decreases |calls|
  {
    if calls == [] then 0
    else
      Granted(c, s, calls[0]) + Spent(c, Tracked(c, s, calls[0].now, calls[0].tokens), calls[1..])
  }

  function Resets(c: Config, s: Tracker, calls: seq<Request>): (n: nat)
    decreases |calls|
  {
    if calls == [] then 0
    else
      (if Due(c, s, calls[0].now) then 1 else 0)
      + Resets(c, Tracked(c, s, calls[0].now, calls[0].tokens), calls[1..])
  }

  /** The clock never runs backwards and every sum fits. */
  predicate Regular(c: Config, calls: seq<Request>)
  {
    && (forall i, j :: 0 <= i < j < |calls| ==> calls[i].now <= calls[j].now)
    && (forall i :: 0 <= i < |calls| ==> calls[i].tokens + c.max < U64)
  }

  /** One call moves what it grants into the counter, unless a reset first clears at most one budget. */
  lemma {:induction false} CallWithinReset(c: Config, s: Tracker, r: Request)
    requires s.used <= c.max && r.tokens + c.max < U64
    ensures var next := Tracked(c, s, r.now, r.tokens);
            && next.used <= c.max
            && s.used + Granted(c, s, r) <= next.used + (if Due(c, s, r.now) then c.max else 0)
  {
  }

  lemma {:induction false} Distribute(a: nat, b: nat)
    ensures a * (1 + b) == a + a * b
  {
  }

  lemma {:induction false} SpentWithinResets(c: Config, s: Tracker, calls: seq<Request>)
    requires Regular(c, calls) && s.used <= c.max
    ensures s.used + Spent(c, s, calls) <= c.max + c.max * Resets(c, s, calls)
    ensures After(c, s, calls).used <= c.max
    decreases |calls|
  {
    if calls != [] {
      var next := Tracked(c, s, calls[0].now, calls[0].tokens);
      CallWithinReset(c, s, calls[0]);
      SpentWithinResets(c, next, calls[1..]);
      Distribute(c.max, Resets(c, next, calls[1..]));
    }
  }

  lemma {:induction false} OneMorePeriod(period: nat, m: nat, elapsed: int)
    requires m > 0 ==> period * m <= elapsed - period
    requires m == 0 ==> period <= elapsed
    ensures period * (m + 1) <= elapsed
  {
  }

  /** Every reset takes a period of its own, counted from the last one before the calls. */
  lemma {:induction false} ResetsTakePeriods(c: Config, s: Tracker, calls: seq<Request>)
    requires Regular(c, calls) && calls != [] && c.period > 0
    ensures Resets(c, s, calls) > 0 ==> c.period * Resets(c, s, calls) <= calls[|calls| - 1].now - s.start
    decreases |calls|
  {
    var first, last := calls[0], calls[|calls| - 1];
    var next := Tracked(c, s, first.now, first.tokens);
    if |calls| > 1 {
      RegularTail(c, calls);
      ResetsTakePeriods(c, next, calls[1..]);
    }
    var rest := Resets(c, next, calls[1..]);
    if Due(c, s, first.now) {
      OneMorePeriod(c.period, rest, last.now - s.start);
    }
  }

  lemma {:induction false} RegularTail(c: Config, calls: seq<Request>)
    requires Regular(c, calls) && calls != []
    ensures Regular(c, calls[1..]) && calls[0].now <= calls[|calls| - 1].now
  {
  }

  /** So the resets after the first take their periods within the span of the calls. */
  lemma {:induction false} ResetsAreSpaced(c: Config, s: Tracker, calls: seq<Request>)
    requires Regular(c, calls) && calls != [] && c.period > 0
    ensures Resets(c, s, calls) > 0 ==>
              c.period * (Resets(c, s, calls) - 1) <= calls[|calls| - 1].now - calls[0].now
    decreases |calls|
  {
    RegularTail(c, calls);
    if |calls| > 1 {
      var next := Tracked(c, s, calls[0].now, calls[0].tokens);
      var tail := calls[1..];
      assert tail[|tail| - 1] == calls[|calls| - 1] && calls[0].now <= tail[0].now;
      if Due(c, s, calls[0].now) {
        ResetsTakePeriods(c, next, tail);
      } else {
        ResetsAreSpaced(c, next, tail);
      }
    }
  }

  predicate Within(span: seq<Request>, n: nat)
  {
    forall i :: 0 <= i < |span| ==> span[i].now <= span[0].now + n
  }

  lemma {:induction false} SpanFrom(c: Config, s: Tracker, span: seq<Request>, n: nat)
    requires Regular(c, span) && c.period > 0 && s.used <= c.max && Within(span, n)
    ensures Spent(c, s, span) <= (n / c.period + 2) * c.max
  {
    var m := Resets(c, s, span);
    assert m > 0 ==> c.period * (m - 1) <= n by {
      if span != [] {
        ResetsAreSpaced(c, s, span);
      }
    }
    Bound(c.max, c.period, m, n);
    SpentWithinResets(c, s, span);
  }

  /** Any calls within any span of `n` seconds, whatever came before them, are granted at most
      `n / period + 2` budgets. */
  lemma {:induction false} SpanIsBounded(c: Config, begun: nat, before: seq<Request>, span: seq<Request>, n: nat)
    requires Regular(c, before + span) && c.period > 0 && Within(span, n)
    ensures Spent(c, After(c, Tracker(0, begun, begun), before), span) <= (n / c.period + 2) * c.max
  {
    RegularParts(c, before, span);
    SpentWithinResets(c, Tracker(0, begun, begun), before);
    SpanFrom(c, After(c, Tracker(0, begun, begun), before), span, n);
  }

  lemma {:induction false} Bound(max: nat, period: nat, m: nat, n: nat)
    requires period > 0 && (m > 0 ==> period * (m - 1) <= n)
    ensures max + max * m <= (n / period + 2) * max
  {
    if m > 0 {
      Quotient(period, m - 1, n);
    }
    Distribute(max, m);
    Scale(max, 1 + m, n / period + 2);
  }

  lemma {:induction false} RegularParts(c: Config, a: seq<Request>, b: seq<Request>)
    requires Regular(c, a + b)
    ensures Regular(c, a) && Regular(c, b)
  {
    var all := a + b;
    assert forall i :: 0 <= i < |a| ==> a[i] == all[i];
    assert forall i :: 0 <= i < |b| ==> b[i] == all[|a| + i];
  }

  lemma {:induction false} Quotient(period: nat, k: nat, n: nat)
    requires period > 0 && period * k <= n
    ensures k <= n / period
  {
    var q := n / period;
    assert n < period * (q + 1);
    if k >= q + 1 {
      Scale(period, q + 1, k);
      assert false;
    }
  }

  lemma {:induction false} Scale(a: nat, x: nat, y: nat)
    requires x <= y
    ensures a * x <= a * y
  {
  }

  /** Without a period a tracker never grants more than its limit in all. */
  lemma {:induction false} NoPeriodNoReset(c: Config, s: Tracker, calls: seq<Request>)
    requires Regular(c, calls) && s.used <= c.max && c.period == 0
    ensures s.used + Spent(c, s, calls) == After(c, s, calls).used <= c.max
    decreases |calls|
  {
    if calls != [] {
      NoPeriodNoReset(c, Tracked(c, s, calls[0].now, calls[0].tokens), calls[1..]);
    }
  }

  /** Once a period has passed and the gate opens, a call is decided on its own size alone. */
  lemma {:induction false} PeriodRestoresBudget(c: Config, s: Tracker, now: nat, tokens: nat)
    requires c.period > 0 && now > s.last && now >= s.start + c.period && tokens < U64
    ensures Admits(c, s, now, tokens) <==> tokens <= c.max
    ensures Tracked(c, s, now, tokens).start == now
  {
    assert NewTotal(0, tokens) == tokens;
  }

  /** Before that, it is decided on what is already used, and adds to it exactly when it is let in. */
  lemma {:induction false} CallAddsToUse(c: Config, s: Tracker, now: nat, tokens: nat)
    requires c.period == 0 || now <= s.last || now < s.start + c.period
    requires s.used + tokens < U64
    ensures Admits(c, s, now, tokens) <==> s.used + tokens <= c.max
    ensures var r := Tracked(c, s, now, tokens);
            && r.used == (if s.used + tokens <= c.max then s.used + tokens else s.used)
            && r.start == s.start && r.last == (if c.period != 0 && now > s.last then now else s.last)
  {
    FittingSum(s.used, tokens);
  }
}
