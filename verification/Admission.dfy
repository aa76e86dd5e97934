/** Agent admission: reservations, inserts and removals around one atomic counter, interleaved freely. */
module Admission {

  type Task = nat
  type AgentId = nat

  const USIZE: nat := 0x1_0000_0000_0000_0000
  const MAX_SPAWN_DEPTH: nat := 5

  /** Where a task stands between two atomic steps. */
  datatype Pc =
    | Idle
    | Loaded(id: AgentId, current: nat)
    | Reserved(id: AgentId)
    | Releasing
    | Published(id: AgentId)
    | Stopping(id: AgentId)
    | Removed(id: AgentId)

  datatype Event = Insertion(id: AgentId) | Removal(id: AgentId) | Decrement(id: AgentId) | Quiet

  datatype System = System(max: nat, active: nat, agents: set<AgentId>, tasks: seq<Pc>, log: seq<Event>)

  datatype Step =
    | Spawn(t: Task, id: AgentId, depth: nat)
    | CompareExchange(t: Task, spurious: bool)
    | InsertAtomic(t: Task)
    | EarlyReturn(t: Task)
    | DropSlot(t: Task)
    | Commit(t: Task)
    | Stop(t: Task, id: AgentId)
    | TakeOut(t: Task)
    | FetchSub(t: Task)

  function At(s: System, t: Task): (pc: Pc)
  {
    if t < |s.tasks| then s.tasks[t] else Idle
  }

  function Goto(s: System, t: Task, pc: Pc): (r: System)
  {
    if t < |s.tasks| then s.(tasks := s.tasks[t := pc]) else s
  }

  /** Reading the counter and comparing it with the limit before the next exchange. */
  function Reload(s: System, t: Task, id: AgentId): (r: System)
  {
    Goto(s, t, if s.active >= s.max then Idle else Loaded(id, s.active))
  }

  /** An atomic decrement; on zero it wraps. */
  function Less(active: nat): (r: nat)
  {
    if active == 0 then USIZE - 1 else active - 1
  }

  predicate Enabled(s: System, step: Step)
  {
    var pc := At(s, step.t);
    step.t < |s.tasks| &&
    match step
    case Spawn(_, _, _) => pc.Idle?
    case CompareExchange(_, _) => pc.Loaded?
    case InsertAtomic(_) => pc.Reserved?
    case EarlyReturn(_) => pc.Reserved?
    case DropSlot(_) => pc.Releasing?
    case Commit(_) => pc.Published?
    case Stop(_, _) => pc.Idle?
    case TakeOut(_) => pc.Stopping?
    case FetchSub(_) => pc.Removed?
  }

  /** The entry a step adds to the record of what happened to the table and the counter. */
  function Emits(s: System, step: Step): (r: Event)
    requires Enabled(s, step)
  {
    var pc := At(s, step.t);
    match step
    case InsertAtomic(_) => if pc.id in s.agents then Quiet else Insertion(pc.id)
    case TakeOut(_) => if pc.id in s.agents then Removal(pc.id) else Quiet
    case FetchSub(_) => Decrement(pc.id)
    case _ => Quiet
  }

  function Next(s: System, step: Step): (r: System)
  {
    if !Enabled(s, step) then s else Act(s, step).(log := s.log + [Emits(s, step)])
  }

  function Act(s: System, step: Step): (r: System)
    requires Enabled(s, step)
    ensures r.log == s.log && r.max == s.max
  {
    var t := step.t;
    var pc := At(s, t);
    match step
    case Spawn(_, id, depth) => if depth > MAX_SPAWN_DEPTH then s else Reload(s, t, id)
    case CompareExchange(_, spurious) =>
      if s.active == pc.current && !spurious
      then Goto(s, t, Reserved(pc.id)).(active := pc.current + 1)
      else Reload(s, t, pc.id)
    case InsertAtomic(_) =>
      if pc.id in s.agents then Goto(s, t, Releasing)
      else Goto(s, t, Published(pc.id)).(agents := s.agents + {pc.id})
    case EarlyReturn(_) => Goto(s, t, Releasing)
    case DropSlot(_) => Goto(s, t, Idle).(active := Less(s.active))
    case Commit(_) => Goto(s, t, Idle)
    case Stop(_, id) => if id in s.agents then Goto(s, t, Stopping(id)) else s
    case TakeOut(_) =>
      if pc.id in s.agents then Goto(s, t, Removed(pc.id)).(agents := s.agents - {pc.id})
      else Goto(s, t, Idle)
    case FetchSub(_) => Goto(s, t, Idle).(active := Less(s.active))
  }

  function Run(s: System, steps: seq<Step>): (r: System)
    decreases |steps|
  {
    if steps == [] then s else Run(Next(s, steps[0]), steps[1..])
  }

  /** A registry used by any number of tasks. */
  function Init(max: nat, tasks: nat): (s: System)
  {
    System(max, 0, {}, seq(tasks, _ => Idle), [])
  }

  // ---------------------------------------------------------------------------
  // Who owns the counter's units
  // ---------------------------------------------------------------------------

  /** Tasks that must still give one unit of the counter away or back; or those removing one agent. */
  datatype Watch = Owing | Removing(id: AgentId)

  predicate Counts(w: Watch, pc: Pc)
  {
    match w
    case Owing => pc.Reserved? || pc.Releasing? || pc.Removed?
    case Removing(id) => pc == Removed(id)
  }

  function Unit(b: bool): (n: nat)
  {
    if b then 1 else 0
  }

  function Number(w: Watch, tasks: seq<Pc>): (n: nat)
  {
    if tasks == [] then 0 else Unit(Counts(w, tasks[0])) + Number(w, tasks[1..])
  }

  lemma {:induction false} NumberAfter(w: Watch, tasks: seq<Pc>, t: nat, pc: Pc)
    requires t < |tasks|
    ensures Number(w, tasks[t := pc]) == Number(w, tasks) - Unit(Counts(w, tasks[t])) + Unit(Counts(w, pc))
    ensures Counts(w, tasks[t]) ==> Number(w, tasks) > 0
  {
    if t == 0 {
      assert tasks[t := pc][1..] == tasks[1..];
    } else {
      assert tasks[t := pc][1..] == tasks[1..][t - 1 := pc];
      NumberAfter(w, tasks[1..], t - 1, pc);
    }
  }

  lemma {:induction false} NumberOfIdle(w: Watch, tasks: seq<Pc>)
    requires forall t :: 0 <= t < |tasks| ==> tasks[t].Idle?
    ensures Number(w, tasks) == 0
  {
    if tasks != [] {
      NumberOfIdle(w, tasks[1..]);
    }
  }

  /** Every unit of the counter belongs to one agent in the table or to one task in between. */
  predicate Accounts(s: System)
  {
    && s.active == |s.agents| + Number(Owing, s.tasks)
    && s.active <= s.max
    && forall t :: 0 <= t < |s.tasks| && s.tasks[t].Loaded? ==> s.tasks[t].current < s.max
  }

  function Times(log: seq<Event>, e: Event): (n: nat)
  {
    if log == [] then 0 else Times(log[..|log| - 1], e) + Unit(log[|log| - 1] == e)
  }

  lemma {:induction false} TimesAfter(log: seq<Event>, x: Event, e: Event)
    ensures Times(log + [x], e) == Times(log, e) + Unit(x == e)
  {
    assert (log + [x])[..|log|] == log;
  }

  /** Insertions and removals of an agent alternate, and each removal pays one decrement. */
  predicate PairedFor(s: System, id: AgentId)
  {
    && Times(s.log, Insertion(id)) == Times(s.log, Removal(id)) + Unit(id in s.agents)
    && Times(s.log, Removal(id)) == Times(s.log, Decrement(id)) + Number(Removing(id), s.tasks)
  }

  ghost predicate Inv(s: System)
  {
    Accounts(s) && forall id: AgentId :: PairedFor(s, id)
  }

  /** What the counter, the table and this task own together. */
  function Balance(s: System, t: Task): (n: int)
  {
    s.active - |s.agents| - Unit(Counts(Owing, At(s, t)))
  }

  lemma {:induction false} TableStepBalances(s: System, step: Step)
    requires Enabled(s, step) && (step.InsertAtomic? || step.TakeOut?)
    ensures Balance(Act(s, step), step.t) == Balance(s, step.t)
  {
    Sizes(s.agents, At(s, step.t).id);
  }

  /** One step moves units only between the counter's owners. */
  lemma {:induction false} StepBalances(s: System, step: Step)
    requires Enabled(s, step) && (step.DropSlot? || step.FetchSub? ==> s.active > 0)
    ensures var r := Act(s, step);
            && r.tasks == s.tasks[step.t := At(r, step.t)]
            && Balance(r, step.t) == Balance(s, step.t)
            && (r.active > s.active ==> step.CompareExchange? && r.active == At(s, step.t).current + 1)
  {
    assert s.tasks == s.tasks[step.t := At(s, step.t)];
    if step.InsertAtomic? || step.TakeOut? {
      TableStepBalances(s, step);
    }
  }

  lemma {:induction false} Sizes(a: set<AgentId>, id: AgentId)
    ensures id !in a ==> |a + {id}| == |a| + 1
    ensures id in a ==> |a - {id}| == |a| - 1
  {
  }

  lemma {:induction false} StepKeepsAccounts(s: System, step: Step)
    requires Accounts(s)
    ensures Accounts(Next(s, step)) && Next(s, step).max == s.max
    ensures Enabled(s, step) && (step.DropSlot? || step.FetchSub?) ==> s.active > 0
  {
    if Enabled(s, step) {
      NumberAfter(Owing, s.tasks, step.t, At(Act(s, step), step.t));
      StepBalances(s, step);
      LoadsAreBelow(s, step);
    }
  }

  lemma {:induction false} LoadsAreBelow(s: System, step: Step)
    requires Enabled(s, step) && s.active <= s.max
    requires forall t :: 0 <= t < |s.tasks| && s.tasks[t].Loaded? ==> s.tasks[t].current < s.max
    ensures var r := Act(s, step);
            forall t :: 0 <= t < |r.tasks| && r.tasks[t].Loaded? ==> r.tasks[t].current < r.max
  {
  }

  /** One step changes an agent's presence exactly as it says, and opens or settles one debt for it. */
  lemma {:induction false} StepRecords(s: System, step: Step, id: AgentId)
    requires Enabled(s, step)
    ensures var r, e := Act(s, step), Emits(s, step);
            && r.tasks == s.tasks[step.t := At(r, step.t)]
            && Unit(id in r.agents) - Unit(id in s.agents) == Unit(e == Insertion(id)) - Unit(e == Removal(id))
            && Unit(Counts(Removing(id), At(r, step.t))) - Unit(Counts(Removing(id), At(s, step.t)))
               == Unit(e == Removal(id)) - Unit(e == Decrement(id))
  {
    assert s.tasks == s.tasks[step.t := At(s, step.t)];
  }

  lemma {:induction false} StepKeepsPairing(s: System, step: Step, id: AgentId)
    requires PairedFor(s, id)
    ensures PairedFor(Next(s, step), id)
  {
    if Enabled(s, step) {
      StepRecords(s, step, id);
      NumberAfter(Removing(id), s.tasks, step.t, At(Act(s, step), step.t));
      TimesAfter(s.log, Emits(s, step), Insertion(id));
      TimesAfter(s.log, Emits(s, step), Removal(id));
      TimesAfter(s.log, Emits(s, step), Decrement(id));
    }
  }

  lemma {:induction false} RunKeepsInv(s: System, steps: seq<Step>)
    requires Inv(s)
    ensures Inv(Run(s, steps)) && Run(s, steps).max == s.max
    decreases |steps|
  {
    if steps != [] {
      StepKeepsAccounts(s, steps[0]);
      forall id: AgentId
        ensures PairedFor(Next(s, steps[0]), id)
      {
        StepKeepsPairing(s, steps[0], id);
      }
      RunKeepsInv(Next(s, steps[0]), steps[1..]);
    }
  }

  lemma {:induction false} RunFromInit(max: nat, tasks: nat, steps: seq<Step>)
    ensures Inv(Run(Init(max, tasks), steps)) && Run(Init(max, tasks), steps).max == max
  {
    var s := Init(max, tasks);
    NumberOfIdle(Owing, s.tasks);
    forall id: AgentId
      ensures PairedFor(s, id)
    {
      NumberOfIdle(Removing(id), s.tasks);
    }
    RunKeepsInv(s, steps);
  }

  /** In every interleaving the counter is exact and the table stays within the limit; the counter never
      wraps; and when no task is in between, the counter is the table's size. */
  lemma {:induction false} AdmissionIsExact(max: nat, tasks: nat, steps: seq<Step>, step: Step)
    ensures var s := Run(Init(max, tasks), steps);
            && s.active == |s.agents| + Number(Owing, s.tasks) <= max
            && |s.agents| <= max
            && (Enabled(s, step) && (step.DropSlot? || step.FetchSub?) ==> Next(s, step).active == s.active - 1)
            && ((forall t :: 0 <= t < |s.tasks| ==> s.tasks[t].Idle?) ==> s.active == |s.agents|)
  {
    RunFromInit(max, tasks, steps);
    var s := Run(Init(max, tasks), steps);
    StepKeepsAccounts(s, step);
    if forall t :: 0 <= t < |s.tasks| ==> s.tasks[t].Idle? {
      NumberOfIdle(Owing, s.tasks);
    }
  }

  /** However many tasks stop one agent at once, each of its insertions is removed at most once, and each
      removal has decremented the counter exactly once when the tasks have finished. */
  lemma {:induction false} StopsDecrementOnce(max: nat, tasks: nat, steps: seq<Step>, id: AgentId)
    ensures var s := Run(Init(max, tasks), steps);
            var inserted, removed := Times(s.log, Insertion(id)), Times(s.log, Removal(id));
            var paid := Times(s.log, Decrement(id));
            && paid <= removed <= inserted <= removed + 1
            && (id in s.agents <==> inserted > removed)
            && ((forall t :: 0 <= t < |s.tasks| ==> s.tasks[t].Idle?) ==> paid == removed)
  {
    RunFromInit(max, tasks, steps);
    var s := Run(Init(max, tasks), steps);
    assert PairedFor(s, id);
    if forall t :: 0 <= t < |s.tasks| ==> s.tasks[t].Idle? {
      NumberOfIdle(Removing(id), s.tasks);
    }
  }

  /** A spawn within the depth limit is turned away at a read or an exchange exactly when, at that moment,
      every slot is owned by an agent or by a task in between. */
  lemma {:induction false} RefusedExactlyWhenFull(max: nat, tasks: nat, steps: seq<Step>, step: Step)
    requires step.CompareExchange? || (step.Spawn? && step.depth <= MAX_SPAWN_DEPTH)
    ensures var s := Run(Init(max, tasks), steps);
            Enabled(s, step) ==>
              (At(Next(s, step), step.t).Idle? <==> |s.agents| + Number(Owing, s.tasks) == max)
  {
    RunFromInit(max, tasks, steps);
  }

  // ---------------------------------------------------------------------------
  // What an undisturbed task achieves
  // ---------------------------------------------------------------------------

  /** A spawn deeper than the limit is refused at once, whatever the state. */
  lemma {:induction false} DeepSpawnIsRefused(s: System, t: Task, id: AgentId, depth: nat)
    requires depth > MAX_SPAWN_DEPTH
    ensures Next(s, Spawn(t, id, depth)) == s.(log := Next(s, Spawn(t, id, depth)).log)
  {
  }

  /** An exchange that fails, because the counter moved or for no reason at all, takes no slot. */
  lemma {:induction false} FailedExchangeTakesNothing(s: System, t: Task, spurious: bool)
    requires Enabled(s, CompareExchange(t, spurious)) && (spurious || s.active != At(s, t).current)
    ensures var r := Next(s, CompareExchange(t, spurious));
            r.active == s.active && r.agents == s.agents && !At(r, t).Reserved?
  {
  }

  function Spawning(t: Task, id: AgentId, depth: nat): (r: seq<Step>)
  {
    [Spawn(t, id, depth), CompareExchange(t, false), InsertAtomic(t), Commit(t), DropSlot(t)]
  }

  /** The spawn is let in: not too deep, a slot is free, and the agent is not there yet. */
  predicate LetIn(s: System, id: AgentId, depth: nat)
  {
    depth <= MAX_SPAWN_DEPTH && s.active < s.max && id !in s.agents
  }

  lemma {:induction false} RunOfFirst(s: System, a: seq<Step>)
    requires a != []
    ensures Run(s, a) == Run(Next(s, a[0]), a[1..])
  {
  }

  lemma {:induction false} RunOfThree(s: System, a: seq<Step>)
    requires |a| == 3
    ensures Run(s, a) == Next(Next(Next(s, a[0]), a[1]), a[2])
  {
    RunOfFirst(s, a);
    RunOfFirst(Next(s, a[0]), a[1..]);
    RunOfFirst(Next(Next(s, a[0]), a[1]), a[1..][1..]);
  }

  lemma {:induction false} RunOfFive(s: System, a: seq<Step>)
    requires |a| == 5
    ensures Run(s, a) == Next(Next(Next(Next(Next(s, a[0]), a[1]), a[2]), a[3]), a[4])
  {
    RunOfFirst(s, a);
    RunOfFirst(Next(s, a[0]), a[1..]);
    RunOfThree(Next(Next(s, a[0]), a[1]), a[1..][1..]);
  }

  /** A task that spawns undisturbed adds the agent and takes one slot exactly when it is let in, and otherwise changes
      neither; either way it is idle again. */
  lemma {:induction false} SpawnSucceedsExactly(s: System, t: Task, id: AgentId, depth: nat)
    requires At(s, t).Idle? && t < |s.tasks|
    ensures var r := Run(s, Spawning(t, id, depth));
            && r.agents == (if LetIn(s, id, depth) then s.agents + {id} else s.agents)
            && r.active == (if LetIn(s, id, depth) then s.active + 1 else s.active)
            && r.tasks == s.tasks
  {
    RunOfFive(s, Spawning(t, id, depth));
  }

  function Halting(t: Task, id: AgentId): (r: seq<Step>)
  {
    [Stop(t, id), TakeOut(t), FetchSub(t)]
  }

  /** A task that stops an agent undisturbed takes it out and frees its slot. */
  lemma {:induction false} StopSucceedsExactly(s: System, t: Task, id: AgentId)
    requires At(s, t).Idle? && t < |s.tasks| && s.active >= |s.agents|
    ensures var r := Run(s, Halting(t, id));
            && r.agents == s.agents - {id}
            && r.active == (if id in s.agents then s.active - 1 else s.active)
            && r.tasks == s.tasks
  {
    RunOfThree(s, Halting(t, id));
    Sizes(s.agents, id);
  }
}
