/** One reply stream shared by two kinds of callers: tool invocations and the older ping and poke
    requests. Each kind draws its ids from a counter of its own. */
module Demux {

  const FIRST_REQUEST_ID: nat := 100
  const FIRST_INVOKE_ID: nat := 1000

  /** A caller, by the id it drew: an invocation, a request that expects a reply, a push that does not. */
  datatype Caller = Invoke(id: nat) | Ask(id: nat) | Push(id: nat)

  datatype Stage = Drawn | Parked | Sent | Failed | TimedOut

  /** What goes over the socket; `from` says whose frame it is or answers, which only the model sees. */
  datatype Frame = Frame(id: nat, from: Caller)

  datatype Outcome = Reply(to: Caller) | WorkerLost

  datatype Delivery = Delivery(caller: Caller, outcome: Outcome)

  datatype System = System(
    nextRequest: nat,
    nextInvoke: nat,
    stages: map<Caller, Stage>,
    invokePending: map<nat, Caller>,
    pending: map<nat, Caller>,
    toWorker: seq<Frame>,
    toBroker: seq<Frame>,
    reading: bool,
    deliveries: seq<Delivery>)

  datatype Action =
    | DrawInvoke
    | DrawAsk
    | DrawPush
    | Park(c: Caller)
    | Write(c: Caller, onWire: bool, ok: bool)
    | TimeOut(c: Caller)
    | WorkerHandles
    | ReaderRoutes
    | ReaderExits

  function Init(): (s: System)
  {
    System(FIRST_REQUEST_ID, FIRST_INVOKE_ID, map[], map[], map[], [], [], true, [])
  }

  predicate In(s: System, c: Caller, stage: Stage)
  {
    c in s.stages && s.stages[c] == stage
  }

  predicate Enabled(s: System, a: Action)
  {
    match a
    case DrawInvoke => true
    case DrawAsk => true
    case DrawPush => true
    case Park(c) => In(s, c, Drawn) && !c.Push?
    case Write(c, onWire, ok) => (In(s, c, Parked) || (In(s, c, Drawn) && c.Push?)) && (ok ==> onWire)
    case TimeOut(c) => In(s, c, Sent) && c.Ask?
    case WorkerHandles => s.toWorker != []
    case ReaderRoutes => s.reading && s.toBroker != []
    case ReaderExits => s.reading
  }

  function Forget(s: System, c: Caller): (r: System)
  {
    match c
    case Invoke(id) => s.(invokePending := s.invokePending - {id})
    case Ask(id) => s.(pending := s.pending - {id})
    case Push(_) => s
  }

  /** Takes the caller's entry out and resolves it. */
  function Deliver(s: System, c: Caller, outcome: Outcome): (r: System)
  {
    Forget(s, c).(deliveries := s.deliveries + [Delivery(c, outcome)])
  }

  /** The reader looks among the invocations first, then among the older requests. */
  function Route(s: System, reply: Frame): (r: System)
  {
    if reply.id in s.invokePending then
      s.(invokePending := s.invokePending - {reply.id},
         deliveries := s.deliveries + [Delivery(s.invokePending[reply.id], Reply(reply.from))])
    else if reply.id in s.pending then
      s.(pending := s.pending - {reply.id},
         deliveries := s.deliveries + [Delivery(s.pending[reply.id], Reply(reply.from))])
    else s
  }

  function Notice(s: System, id: nat): (r: System)
  {
    if id in s.invokePending then Deliver(s, s.invokePending[id], WorkerLost) else s
  }

  /** The reader's last act: the entries below `n`, one after the other, get the loss notice. */
  function Drain(s: System, n: nat): (r: System)
    decreases n
  {
    if n == 0 then s else Drain(Notice(s, n - 1), n - 1)
  }

  predicate ByCaller(a: Action)
  {
    !a.WorkerHandles? && !a.ReaderRoutes? && !a.ReaderExits?
  }

  function Actor(s: System, a: Action): (c: Caller)
    requires ByCaller(a)
  {
    match a
    case DrawInvoke => Invoke(s.nextInvoke)
    case DrawAsk => Ask(s.nextRequest)
    case DrawPush => Push(s.nextRequest)
    case Park(c) => c
    case Write(c, _, _) => c
    case TimeOut(c) => c
  }

  function StageAfter(a: Action): (stage: Stage)
    requires ByCaller(a)
  {
    match a
    case DrawInvoke => Drawn
    case DrawAsk => Drawn
    case DrawPush => Drawn
    case Park(_) => Parked
    case Write(_, _, ok) => if ok then Sent else Failed
    case TimeOut(_) => TimedOut
  }

  function CallerStep(s: System, a: Action): (r: System)
    requires ByCaller(a)
  {
    var c := Actor(s, a);
    var t := s.(stages := s.stages[c := StageAfter(a)]);
    match a
    case DrawInvoke => t.(nextInvoke := s.nextInvoke + 1)
    case DrawAsk => t.(nextRequest := s.nextRequest + 1)
    case DrawPush => t.(nextRequest := s.nextRequest + 1)
    case Park(_) =>
      if c.Invoke? then t.(invokePending := s.invokePending[c.id := c]) else t.(pending := s.pending[c.id := c])
    case Write(_, onWire, ok) =>
      var t' := if onWire then t.(toWorker := s.toWorker + [Frame(c.id, c)]) else t;
      if ok then t' else Forget(t', c)
    case TimeOut(_) => Forget(t, c)
  }

  function Next(s: System, a: Action): (r: System)
  {
    if !Enabled(s, a) then s
    else if ByCaller(a) then CallerStep(s, a)
    else if a.WorkerHandles? then
      var frame := s.toWorker[0];
      s.(toWorker := s.toWorker[1..],
         toBroker := if frame.from.Push? then s.toBroker else s.toBroker + [Frame(frame.id, frame.from)])
    else if a.ReaderRoutes? then Route(s.(toBroker := s.toBroker[1..]), s.toBroker[0])
    else Drain(s, s.nextInvoke).(reading := false, pending := map[])
  }

  function Run(s: System, actions: seq<Action>): (r: System)
    decreases |actions|
  {
    if actions == [] then s else Run(Next(s, actions[0]), actions[1..])
  }

  // ---------------------------------------------------------------------------
  // What every run keeps
  // ---------------------------------------------------------------------------

  function Resolved(deliveries: seq<Delivery>): (r: set<Caller>)
  {
    if deliveries == [] then {} else Resolved(deliveries[..|deliveries| - 1]) + {deliveries[|deliveries| - 1].caller}
  }

  /** Every caller is resolved at most once, and by the answer to its own frame or by the loss notice. */
  predicate Safe(deliveries: seq<Delivery>)
  {
    deliveries == [] ||
    var d := deliveries[|deliveries| - 1];
    var earlier := deliveries[..|deliveries| - 1];
    d.outcome in {WorkerLost, Reply(d.caller)} && d.caller !in Resolved(earlier) && Safe(earlier)
  }

  lemma {:induction false} DeliverOne(deliveries: seq<Delivery>, d: Delivery)
    ensures Resolved(deliveries + [d]) == Resolved(deliveries) + {d.caller}
    ensures Safe(deliveries + [d]) <==>
              Safe(deliveries) && d.outcome in {WorkerLost, Reply(d.caller)} && d.caller !in Resolved(deliveries)
  {
    assert (deliveries + [d])[..|deliveries|] == deliveries;
  }

  predicate KnownCaller(c: Caller, nextRequest: nat, nextInvoke: nat)
  {
    if c.Invoke? then FIRST_INVOKE_ID <= c.id < nextInvoke else FIRST_REQUEST_ID <= c.id < nextRequest
  }

  predicate KnownFrame(f: Frame, nextRequest: nat, nextInvoke: nat)
  {
    f.id == f.from.id && KnownCaller(f.from, nextRequest, nextInvoke)
  }

  predicate KnownFrames(frames: seq<Frame>, nextRequest: nat, nextInvoke: nat)
  {
    forall f :: f in frames ==> KnownFrame(f, nextRequest, nextInvoke)
  }

  predicate KnownStages(stages: map<Caller, Stage>, nextRequest: nat, nextInvoke: nat)
  {
    forall c :: c in stages ==> KnownCaller(c, nextRequest, nextInvoke)
  }

  predicate Known(s: System)
  {
    && s.nextRequest >= FIRST_REQUEST_ID && s.nextInvoke >= FIRST_INVOKE_ID
    && KnownStages(s.stages, s.nextRequest, s.nextInvoke)
    && KnownFrames(s.toWorker, s.nextRequest, s.nextInvoke)
    && KnownFrames(s.toBroker, s.nextRequest, s.nextInvoke)
    && (forall f :: f in s.toBroker ==> !f.from.Push?)
  }

  /** An invocation that waits for its reply: its entry is in the table from parking to resolution. */
  predicate Waiting(stages: map<Caller, Stage>, resolved: set<Caller>, c: Caller)
  {
    c.Invoke? && c in stages && stages[c] in {Parked, Sent} && c !in resolved
  }

  /** The table of invocations is exactly the waiting ones, each under its own id. */
  ghost predicate InvokesAreWaiting(stages: map<Caller, Stage>, invokes: map<nat, Caller>, resolved: set<Caller>)
  {
    && (forall id :: id in invokes ==> invokes[id] == Invoke(id))
    && (forall id: nat :: id in invokes <==> Waiting(stages, resolved, Invoke(id)))
  }

  predicate AsksAreUnresolved(stages: map<Caller, Stage>, asks: map<nat, Caller>, resolved: set<Caller>)
  {
    forall id :: id in asks ==>
      asks[id] == Ask(id) && Ask(id) in stages && stages[Ask(id)] != Drawn && Ask(id) !in resolved
  }

  predicate ResolvedWereParked(stages: map<Caller, Stage>, resolved: set<Caller>)
  {
    forall c :: c in resolved ==> c in stages && stages[c] != Drawn
  }

  ghost predicate Tables(stages: map<Caller, Stage>, invokes: map<nat, Caller>, asks: map<nat, Caller>,
                         resolved: set<Caller>)
  {
    && InvokesAreWaiting(stages, invokes, resolved)
    && AsksAreUnresolved(stages, asks, resolved)
    && ResolvedWereParked(stages, resolved)
  }

  ghost predicate TablesOf(s: System)
  {
    Tables(s.stages, s.invokePending, s.pending, Resolved(s.deliveries)) && Safe(s.deliveries)
  }

  ghost predicate Inv(s: System)
  {
    Known(s) && TablesOf(s)
  }

  // Counters and wires

  lemma {:induction false} KnownFramesLater(frames: seq<Frame>, r: nat, i: nat, r': nat, i': nat)
    requires KnownFrames(frames, r, i) && r <= r' && i <= i'
    ensures KnownFrames(frames, r', i')
  {
  }

  lemma {:induction false} MoveFrame(from: seq<Frame>, to: seq<Frame>, r: nat, i: nat)
    requires from != [] && KnownFrames(from, r, i) && KnownFrames(to, r, i)
    ensures KnownFrame(from[0], r, i) && KnownFrames(from[1..], r, i) && KnownFrames(to + [from[0]], r, i)
  {
  }

  lemma {:induction false} AppendFrame(frames: seq<Frame>, f: Frame, r: nat, i: nat)
    requires KnownFrames(frames, r, i) && KnownFrame(f, r, i)
    ensures KnownFrames(frames + [f], r, i)
  {
  }

  lemma {:induction false} EnterKnown(stages: map<Caller, Stage>, c: Caller, stage: Stage, r: nat, i: nat, r': nat,
                                      i': nat)
    requires KnownStages(stages, r, i) && r <= r' && i <= i' && KnownCaller(c, r', i')
    ensures KnownStages(stages[c := stage], r', i')
  {
  }

  lemma {:induction false} ForgetsOnlyEntries(s: System, c: Caller)
    ensures Forget(s, c) == s.(invokePending := Forget(s, c).invokePending, pending := Forget(s, c).pending)
  {
  }

  lemma {:induction false} StepOfCaller(s: System, a: Action)
    requires ByCaller(a)
    ensures var c, r := Actor(s, a), CallerStep(s, a);
            && r.stages == s.stages[c := StageAfter(a)]
            && r.nextRequest == s.nextRequest + (if a.DrawAsk? || a.DrawPush? then 1 else 0)
            && r.nextInvoke == s.nextInvoke + (if a.DrawInvoke? then 1 else 0)
            && r.toBroker == s.toBroker
            && (r.toWorker == s.toWorker || (a.Write? && r.toWorker == s.toWorker + [Frame(c.id, c)]))
  {
    var c := Actor(s, a);
    var t := s.(stages := s.stages[c := StageAfter(a)]);
    match a
    case Write(_, onWire, ok) =>
      ForgetsOnlyEntries(if onWire then t.(toWorker := s.toWorker + [Frame(c.id, c)]) else t, c);
    case TimeOut(_) => ForgetsOnlyEntries(t, c);
    case _ =>
  }

  lemma {:induction false} CallerKeepsKnown(s: System, a: Action)
    requires Known(s) && Enabled(s, a) && ByCaller(a)
    ensures Known(Next(s, a))
  {
    var c, r := Actor(s, a), Next(s, a);
    StepOfCaller(s, a);
    EnterKnown(s.stages, c, StageAfter(a), s.nextRequest, s.nextInvoke, r.nextRequest, r.nextInvoke);
    KnownFramesLater(s.toWorker, s.nextRequest, s.nextInvoke, r.nextRequest, r.nextInvoke);
    KnownFramesLater(s.toBroker, s.nextRequest, s.nextInvoke, r.nextRequest, r.nextInvoke);
    if r.toWorker != s.toWorker {
      AppendFrame(s.toWorker, Frame(c.id, c), s.nextRequest, s.nextInvoke);
    }
  }

  lemma {:induction false} StepKeepsKnown(s: System, a: Action)
    requires Known(s)
    ensures Known(Next(s, a))
  {
    if Enabled(s, a) {
      if a.WorkerHandles? {
        MoveFrame(s.toWorker, s.toBroker, s.nextRequest, s.nextInvoke);
      } else if a.ReaderRoutes? {
        MoveFrame(s.toBroker, [], s.nextRequest, s.nextInvoke);
      } else if a.ReaderExits? {
        RestOfDrain(s, s.nextInvoke);
      } else {
        CallerKeepsKnown(s, a);
      }
    }
  }

  predicate SameRest(s: System, r: System)
  {
    && r.nextRequest == s.nextRequest && r.nextInvoke == s.nextInvoke && r.stages == s.stages
    && r.toWorker == s.toWorker && r.toBroker == s.toBroker
  }

  lemma {:induction false} RestOfDrain(s: System, n: nat)
    ensures SameRest(s, Drain(s, n))
    decreases n
  {
    if n > 0 {
      RestOfDrain(Notice(s, n - 1), n - 1);
    }
  }

  // Tables

  lemma {:induction false} NewCaller(stages: map<Caller, Stage>, invokes: map<nat, Caller>, asks: map<nat, Caller>,
                  resolved: set<Caller>, c: Caller)
    requires Tables(stages, invokes, asks, resolved) && c !in stages
    ensures Tables(stages[c := Drawn], invokes, asks, resolved)
  {
  }

  lemma {:induction false} ParkedCaller(stages: map<Caller, Stage>, invokes: map<nat, Caller>, asks: map<nat, Caller>,
                     resolved: set<Caller>, c: Caller)
    requires Tables(stages, invokes, asks, resolved) && c in stages && stages[c] == Drawn
    ensures c.Invoke? ==> Tables(stages[c := Parked], invokes[c.id := c], asks, resolved)
    ensures c.Ask? ==> Tables(stages[c := Parked], invokes, asks[c.id := c], resolved)
  {
    assert c !in resolved;
  }

  lemma {:induction false} SentCaller(stages: map<Caller, Stage>, invokes: map<nat, Caller>, asks: map<nat, Caller>,
                   resolved: set<Caller>, c: Caller)
    requires Tables(stages, invokes, asks, resolved) && c in stages && (stages[c] == Parked || c.Push?)
    ensures Tables(stages[c := Sent], invokes, asks, resolved)
  {
  }

  lemma {:induction false} GoneCaller(stages: map<Caller, Stage>, invokes: map<nat, Caller>, asks: map<nat, Caller>,
                   resolved: set<Caller>, c: Caller, stage: Stage)
    requires Tables(stages, invokes, asks, resolved) && c in stages && stage in {Failed, TimedOut}
    ensures c.Invoke? ==> Tables(stages[c := stage], invokes - {c.id}, asks, resolved)
    ensures c.Ask? ==> Tables(stages[c := stage], invokes, asks - {c.id}, resolved)
    ensures c.Push? ==> Tables(stages[c := stage], invokes, asks, resolved)
  {
  }

  lemma {:induction false} ResolvedCaller(stages: map<Caller, Stage>, invokes: map<nat, Caller>, asks: map<nat, Caller>,
                       resolved: set<Caller>, c: Caller)
    requires Tables(stages, invokes, asks, resolved) && c in stages && stages[c] != Drawn
    ensures c.Invoke? ==> Tables(stages, invokes - {c.id}, asks, resolved + {c})
    ensures c.Ask? ==> Tables(stages, invokes, asks - {c.id}, resolved + {c})
  {
  }

  lemma {:induction false} StageKeeps(s: System, a: Action)
    requires Inv(s) && Enabled(s, a) && !a.ReaderRoutes? && !a.ReaderExits?
    ensures TablesOf(Next(s, a))
  {
    var resolved := Resolved(s.deliveries);
    match a {
      case DrawInvoke => NewCaller(s.stages, s.invokePending, s.pending, resolved, Invoke(s.nextInvoke));
      case DrawAsk => NewCaller(s.stages, s.invokePending, s.pending, resolved, Ask(s.nextRequest));
      case DrawPush => NewCaller(s.stages, s.invokePending, s.pending, resolved, Push(s.nextRequest));
      case Park(c) => ParkedCaller(s.stages, s.invokePending, s.pending, resolved, c);
      case Write(c, _, ok) =>
        SentCaller(s.stages, s.invokePending, s.pending, resolved, c);
        GoneCaller(s.stages, s.invokePending, s.pending, resolved, c, Failed);
      case TimeOut(c) => GoneCaller(s.stages, s.invokePending, s.pending, resolved, c, TimedOut);
      case _ =>
    }
  }

  lemma {:induction false} DeliverKeeps(s: System, c: Caller, outcome: Outcome)
    requires TablesOf(s) && !c.Push? && c in s.stages && s.stages[c] != Drawn && c !in Resolved(s.deliveries)
    requires outcome in {WorkerLost, Reply(c)}
    ensures TablesOf(Deliver(s, c, outcome))
    ensures Resolved(Deliver(s, c, outcome).deliveries) == Resolved(s.deliveries) + {c}
  {
    DeliverOne(s.deliveries, Delivery(c, outcome));
    ResolvedCaller(s.stages, s.invokePending, s.pending, Resolved(s.deliveries), c);
  }

  lemma {:induction false} RouteKeeps(s: System, reply: Frame)
    requires TablesOf(s) && s.nextRequest <= FIRST_INVOKE_ID
    requires KnownFrame(reply, s.nextRequest, s.nextInvoke) && !reply.from.Push?
    requires KnownStages(s.stages, s.nextRequest, s.nextInvoke)
    ensures TablesOf(Route(s, reply))
  {
    if reply.id in s.invokePending {
      assert Invoke(reply.id) in s.stages;
      DeliverKeeps(s, Invoke(reply.id), Reply(reply.from));
    } else if reply.id in s.pending {
      assert Ask(reply.id) in s.stages;
      DeliverKeeps(s, Ask(reply.id), Reply(reply.from));
    }
  }

  lemma {:induction false} NoticeKeeps(s: System, id: nat)
    requires TablesOf(s)
    ensures var r := Notice(s, id);
            TablesOf(r) && r.pending == s.pending && r.invokePending == s.invokePending - {id}
  {
    if id in s.invokePending {
      assert Waiting(s.stages, Resolved(s.deliveries), Invoke(id));
      DeliverKeeps(s, Invoke(id), WorkerLost);
    }
  }

  lemma {:induction false} DrainKeeps(s: System, n: nat)
    requires TablesOf(s)
    ensures TablesOf(Drain(s, n))
    decreases n
  {
    if n > 0 {
      NoticeKeeps(s, n - 1);
      DrainKeeps(Notice(s, n - 1), n - 1);
    }
  }

  /** Draining takes out exactly the entries below `n`. */
  lemma {:induction false} DrainEmpties(s: System, n: nat)
    requires forall id :: id in s.invokePending ==> s.invokePending[id] == Invoke(id)
    ensures Drain(s, n).pending == s.pending
    ensures forall id :: id in Drain(s, n).invokePending ==> id in s.invokePending && id >= n
    decreases n
  {
    if n > 0 {
      DrainEmpties(Notice(s, n - 1), n - 1);
    }
  }

  lemma {:induction false} ExitKeeps(s: System)
    requires Inv(s) && s.reading
    ensures TablesOf(Next(s, ReaderExits))
    ensures Next(s, ReaderExits).invokePending == map[]
  {
    DrainKeeps(s, s.nextInvoke);
    DrainEmpties(s, s.nextInvoke);
    RestOfDrain(s, s.nextInvoke);
    assert forall id :: id in s.invokePending ==> Invoke(id) in s.stages;
  }

  lemma {:induction false} StepKeepsInv(s: System, a: Action)
    requires Inv(s) && s.nextRequest <= FIRST_INVOKE_ID
    ensures Inv(Next(s, a))
  {
    StepKeepsKnown(s, a);
    if Enabled(s, a) {
      if a.ReaderRoutes? {
        RouteKeeps(s.(toBroker := s.toBroker[1..]), s.toBroker[0]);
      } else if a.ReaderExits? {
        ExitKeeps(s);
      } else {
        StageKeeps(s, a);
      }
    }
  }

  // ---------------------------------------------------------------------------
  // Whole runs
  // ---------------------------------------------------------------------------

  /** How many ids a run draws from the older requests' counter. */
  function Draws(actions: seq<Action>): (n: nat)
  {
    if actions == [] then 0
    else (if actions[0].DrawAsk? || actions[0].DrawPush? then 1 else 0) + Draws(actions[1..])
  }

  lemma {:induction false} NextRequestAfter(s: System, a: Action)
    ensures Next(s, a).nextRequest == s.nextRequest + if a.DrawAsk? || a.DrawPush? then 1 else 0
  {
    if Enabled(s, a) && a.ReaderExits? {
      RestOfDrain(s, s.nextInvoke);
    }
  }

  lemma {:induction false} RunKeepsInv(s: System, actions: seq<Action>)
    requires Inv(s) && s.nextRequest + Draws(actions) <= FIRST_INVOKE_ID
    ensures Inv(Run(s, actions)) && Run(s, actions).nextRequest == s.nextRequest + Draws(actions)
    decreases |actions|
  {
    if actions != [] {
      StepKeepsInv(s, actions[0]);
      NextRequestAfter(s, actions[0]);
      RunKeepsInv(Next(s, actions[0]), actions[1..]);
    }
  }

  /** The number of older ids that fit below the invocations' first. */
  const SPARE_IDS: nat := FIRST_INVOKE_ID - FIRST_REQUEST_ID

  lemma {:induction false} RunFromInit(actions: seq<Action>)
    requires Draws(actions) <= SPARE_IDS
    ensures Inv(Run(Init(), actions)) && Run(Init(), actions).nextRequest <= FIRST_INVOKE_ID
  {
    RunKeepsInv(Init(), actions);
  }

  lemma {:induction false} ResolvedAre(deliveries: seq<Delivery>, c: Caller)
    ensures c in Resolved(deliveries) <==> exists i :: 0 <= i < |deliveries| && deliveries[i].caller == c
  {
    if deliveries != [] {
      var earlier := deliveries[..|deliveries| - 1];
      ResolvedAre(earlier, c);
      assert forall i :: 0 <= i < |earlier| ==> earlier[i] == deliveries[i];
    }
  }

  lemma {:induction false} SafeMeans(deliveries: seq<Delivery>)
    requires Safe(deliveries)
    ensures forall i :: 0 <= i < |deliveries| ==> deliveries[i].outcome in {WorkerLost, Reply(deliveries[i].caller)}
    ensures forall i, j :: 0 <= i < j < |deliveries| ==> deliveries[i].caller != deliveries[j].caller
  {
    if deliveries != [] {
      var n := |deliveries| - 1;
      SafeMeans(deliveries[..n]);
      ResolvedAre(deliveries[..n], deliveries[n].caller);
      assert forall i :: 0 <= i < n ==> deliveries[..n][i] == deliveries[i];
    }
  }

  /** While the older requests have drawn at most 900 ids: every caller is resolved at most once, and only by
      the answer to its own frame or by the loss notice; and the table holds exactly the waiting invocations. */
  lemma {:induction false} CallersGetTheirOwnReply(actions: seq<Action>)
    requires Draws(actions) <= SPARE_IDS
    ensures var s := Run(Init(), actions);
            var ds := s.deliveries;
            && (forall i :: 0 <= i < |ds| ==> ds[i].outcome in {WorkerLost, Reply(ds[i].caller)})
            && (forall i, j :: 0 <= i < j < |ds| ==> ds[i].caller != ds[j].caller)
            && InvokesAreWaiting(s.stages, s.invokePending, Resolved(ds))
  {
    RunFromInit(actions);
    SafeMeans(Run(Init(), actions).deliveries);
  }

  /** What the reader does with the answer to an invocation: its caller gets it if it still waits, and
      otherwise nobody does. */
  lemma {:induction false} ReplyReachesItsCaller(actions: seq<Action>, id: nat)
    requires Draws(actions) <= SPARE_IDS
    ensures var s := Run(Init(), actions);
            s.reading && s.toBroker != [] && s.toBroker[0].from == Invoke(id) ==>
              Next(s, ReaderRoutes).deliveries
              == s.deliveries + if Waiting(s.stages, Resolved(s.deliveries), Invoke(id))
                                then [Delivery(Invoke(id), Reply(Invoke(id)))] else []
  {
    RunFromInit(actions);
    var s := Run(Init(), actions);
    if s.reading && s.toBroker != [] && s.toBroker[0].from == Invoke(id) {
      assert KnownFrame(s.toBroker[0], s.nextRequest, s.nextInvoke);
      assert id in s.invokePending <==> Waiting(s.stages, Resolved(s.deliveries), Invoke(id));
      assert id in s.pending ==> Ask(id) in s.stages;
    }
  }

  /** A ping or poke that waits for its reply. */
  predicate AskWaits(stages: map<Caller, Stage>, resolved: set<Caller>, id: nat)
  {
    Ask(id) in stages && stages[Ask(id)] in {Parked, Sent} && Ask(id) !in resolved
  }

  /** While the reader runs, the table of the older requests is exactly the waiting ones. */
  ghost predicate AsksAreWaiting(s: System)
  {
    s.reading ==> forall id: nat :: id in s.pending <==> AskWaits(s.stages, Resolved(s.deliveries), id)
  }

  lemma {:induction false} CallerKeepsAsks(s: System, a: Action)
    requires Inv(s) && AsksAreWaiting(s) && Enabled(s, a) && ByCaller(a)
    ensures AsksAreWaiting(Next(s, a))
  {
    var c := Actor(s, a);
    StepOfCaller(s, a);
    if a.DrawAsk? {
      assert c !in s.stages;
    }
  }

  lemma {:induction false} RouteKeepsAsks(s: System, reply: Frame)
    requires TablesOf(s) && AsksAreWaiting(s)
    ensures AsksAreWaiting(Route(s, reply))
  {
    if reply.id in s.invokePending {
      DeliverOne(s.deliveries, Delivery(s.invokePending[reply.id], Reply(reply.from)));
    } else if reply.id in s.pending {
      DeliverOne(s.deliveries, Delivery(s.pending[reply.id], Reply(reply.from)));
    }
  }

  lemma {:induction false} StepKeepsAsks(s: System, a: Action)
    requires Inv(s) && AsksAreWaiting(s)
    ensures AsksAreWaiting(Next(s, a))
  {
    if Enabled(s, a) {
      if ByCaller(a) {
        CallerKeepsAsks(s, a);
      } else if a.ReaderRoutes? {
        RouteKeepsAsks(s.(toBroker := s.toBroker[1..]), s.toBroker[0]);
      }
    }
  }

  lemma {:induction false} RunKeepsAsks(s: System, actions: seq<Action>)
    requires Inv(s) && AsksAreWaiting(s) && s.nextRequest + Draws(actions) <= FIRST_INVOKE_ID
    ensures AsksAreWaiting(Run(s, actions))
    decreases |actions|
  {
    if actions != [] {
      StepKeepsInv(s, actions[0]);
      NextRequestAfter(s, actions[0]);
      StepKeepsAsks(s, actions[0]);
      RunKeepsAsks(Next(s, actions[0]), actions[1..]);
    }
  }

  /** The same for a ping or poke: its caller gets the answer if it still waits, and otherwise nobody does. */
  lemma {:induction false} AnswerReachesItsAsker(actions: seq<Action>, id: nat)
    requires Draws(actions) <= SPARE_IDS
    ensures var s := Run(Init(), actions);
            s.reading && s.toBroker != [] && s.toBroker[0].from == Ask(id) ==>
              Next(s, ReaderRoutes).deliveries
              == s.deliveries + if AskWaits(s.stages, Resolved(s.deliveries), id)
                                then [Delivery(Ask(id), Reply(Ask(id)))] else []
  {
    RunFromInit(actions);
    RunKeepsAsks(Init(), actions);
    var s := Run(Init(), actions);
    if s.reading && s.toBroker != [] && s.toBroker[0].from == Ask(id) {
      assert KnownFrame(s.toBroker[0], s.nextRequest, s.nextInvoke);
      assert id in s.invokePending ==> Invoke(id) in s.stages;
    }
  }

  lemma {:induction false} RunKeepsKnown(s: System, actions: seq<Action>)
    requires Known(s)
    ensures Known(Run(s, actions))
    decreases |actions|
  {
    if actions != [] {
      StepKeepsKnown(s, actions[0]);
      RunKeepsKnown(Next(s, actions[0]), actions[1..]);
    }
  }

  /** The frame of a request is answered under its id, and the frame of a push is not. */
  lemma {:induction false} WorkerAnswersFrames(actions: seq<Action>)
    ensures var s := Run(Init(), actions);
            s.toWorker != [] ==>
              var from := s.toWorker[0].from;
              Next(s, WorkerHandles)
              == s.(toWorker := s.toWorker[1..],
                    toBroker := s.toBroker + if from.Push? then [] else [Frame(from.id, from)])
  {
    RunKeepsKnown(Init(), actions);
    var s := Run(Init(), actions);
    if s.toWorker != [] {
      assert KnownFrame(s.toWorker[0], s.nextRequest, s.nextInvoke);
      assert s.toBroker + [] == s.toBroker;
    }
  }

  /** A caller has its entry before its frame is on the wire, and keeps it when the frame is written. */
  lemma {:induction false} WrittenFrameIsSent(s: System, c: Caller)
    requires In(s, c, Drawn) && !c.Push?
    ensures var r := Next(Next(s, Park(c)), Write(c, true, true));
            && r.toWorker == s.toWorker + [Frame(c.id, c)] && In(r, c, Sent)
            && (c.Invoke? ==> c.id in r.invokePending && r.invokePending[c.id] == c)
            && (c.Ask? ==> c.id in r.pending && r.pending[c.id] == c)
  {
  }

  lemma {:induction false} DrainNotifies(s: System, n: nat, id: nat)
    requires forall k :: k in s.invokePending ==> s.invokePending[k] == Invoke(k)
    ensures s.deliveries <= Drain(s, n).deliveries
    ensures id in s.invokePending && id < n ==> Delivery(Invoke(id), WorkerLost) in Drain(s, n).deliveries
    decreases n
  {
    if n > 0 {
      var r := Notice(s, n - 1);
      DrainNotifies(r, n - 1, id);
      if id == n - 1 && id in s.invokePending {
        assert r.deliveries[|s.deliveries|] == Delivery(Invoke(id), WorkerLost);
        assert Drain(s, n).deliveries[|s.deliveries|] == r.deliveries[|s.deliveries|];
      }
    }
  }

  /** When the reader ends, every invocation waiting then is told that the worker is lost, both tables are empty, and
      nothing is routed any more. */
  lemma {:induction false} ExitTellsEveryWaiter(actions: seq<Action>, c: Caller)
    requires Draws(actions) <= SPARE_IDS
    ensures var s := Run(Init(), actions);
            s.reading ==>
              && Next(s, ReaderExits).invokePending == map[] && Next(s, ReaderExits).pending == map[]
              && !Enabled(Next(s, ReaderExits), ReaderRoutes)
              && (Waiting(s.stages, Resolved(s.deliveries), c) ==>
                    Delivery(c, WorkerLost) in Next(s, ReaderExits).deliveries)
  {
    RunFromInit(actions);
    var s := Run(Init(), actions);
    if s.reading {
      ExitKeeps(s);
      if Waiting(s.stages, Resolved(s.deliveries), c) {
        assert c.id in s.invokePending && c == Invoke(c.id);
        DrainNotifies(s, s.nextInvoke, c.id);
      }
    }
  }

  // ---------------------------------------------------------------------------
  // The limit is exact
  // ---------------------------------------------------------------------------

  ghost predicate SafeUpTo(n: nat)
  {
    forall actions :: Draws(actions) <= n ==> Safe(Run(Init(), actions).deliveries)
  }

  lemma {:induction false} RunOfAppend(s: System, a: seq<Action>, b: seq<Action>)
    ensures Run(s, a + b) == Run(Run(s, a), b) && Draws(a + b) == Draws(a) + Draws(b)
    decreases |a|
  {
    if a == [] {
      assert a + b == b;
    } else {
      RunOfAppend(Next(s, a[0]), a[1..], b);
      assert (a + b)[1..] == a[1..] + b;
    }
  }

  function Pushes(n: nat): (r: seq<Action>)
  {
    if n == 0 then [] else Pushes(n - 1) + [DrawPush]
  }

  /** Nothing has happened but drawing ids for pushes. */
  predicate OnlyPushes(s: System, n: nat)
  {
    && s == Init().(nextRequest := FIRST_REQUEST_ID + n, stages := s.stages)
    && forall c :: c in s.stages ==> c.Push?
  }

  lemma {:induction false} RunOfPushes(n: nat)
    ensures OnlyPushes(Run(Init(), Pushes(n)), n) && Draws(Pushes(n)) == n
  {
    if n > 0 {
      RunOfPushes(n - 1);
      RunOfAppend(Init(), Pushes(n - 1), [DrawPush]);
      var s := Run(Init(), Pushes(n - 1));
      assert Run(s, [DrawPush]) == Next(s, DrawPush);
    }
  }

  /** A ping whose id is the next invocation's is answered before that invocation has written its frame. */
  function Overlap(id: nat): (r: seq<Action>)
  {
    [DrawAsk, Park(Ask(id)), Write(Ask(id), true, true), WorkerHandles, DrawInvoke, Park(Invoke(id)), ReaderRoutes]
  }

  /** A ping with this id has been answered, and no invocation has been made. */
  predicate Answered(s: System, id: nat)
  {
    && s.toBroker == [Frame(id, Ask(id))] && s.reading
    && s.nextInvoke == id && s.invokePending == map[] && s.deliveries == []
  }

  lemma {:induction false} PingIsAnswered(s: System, id: nat)
    requires OnlyPushes(s, SPARE_IDS) && id == FIRST_INVOKE_ID
    ensures Answered(Next(Next(Next(Next(s, DrawAsk), Park(Ask(id))), Write(Ask(id), true, true)), WorkerHandles), id)
  {
    var s1 := Next(s, DrawAsk);
    var s2 := Next(s1, Park(Ask(id)));
    var s3 := Next(s2, Write(Ask(id), true, true));
    assert In(s1, Ask(id), Drawn);
    assert In(s2, Ask(id), Parked);
    assert s3.toWorker == [Frame(id, Ask(id))];
  }

  lemma {:induction false} InvocationIsMisled(s: System, id: nat)
    requires Answered(s, id)
    ensures Next(Next(Next(s, DrawInvoke), Park(Invoke(id))), ReaderRoutes).deliveries
            == [Delivery(Invoke(id), Reply(Ask(id)))]
  {
    var s1 := Next(s, DrawInvoke);
    var s2 := Next(s1, Park(Invoke(id)));
    assert In(s1, Invoke(id), Drawn);
    assert s2.invokePending[id] == Invoke(id);
  }

  lemma {:induction false} OverlapMisroutes(s: System)
    requires OnlyPushes(s, SPARE_IDS)
    ensures Run(s, Overlap(FIRST_INVOKE_ID)).deliveries
         == [Delivery(Invoke(FIRST_INVOKE_ID), Reply(Ask(FIRST_INVOKE_ID)))]
  {
    var id := FIRST_INVOKE_ID;
    PingIsAnswered(s, id);
    var sent := Next(Next(Next(s, DrawAsk), Park(Ask(id))), Write(Ask(id), true, true));
    InvocationIsMisled(Next(sent, WorkerHandles), id);
    RunSeven(s, Overlap(id));
  }

  lemma {:induction false} RunSeven(s: System, a: seq<Action>)
    requires |a| == 7
    ensures Run(s, a) == Next(Next(Next(Next(Next(Next(Next(s, a[0]), a[1]), a[2]), a[3]), a[4]), a[5]), a[6])
  {
    var s3 := Next(Next(Next(s, a[0]), a[1]), a[2]);
    RunThree(s, a);
    RunThree(s3, a[3..]);
    assert a[3..][3..] == a[6..] == [a[6]];
  }

  lemma {:induction false} RunThree(s: System, a: seq<Action>)
    requires |a| >= 3
    ensures Run(s, a) == Run(Next(Next(Next(s, a[0]), a[1]), a[2]), a[3..])
  {
    assert a[1..][1..] == a[2..] && a[2..][1..] == a[3..];
    assert Run(Next(s, a[0]), a[1..]) == Run(Next(Next(s, a[0]), a[1]), a[2..]);
  }

  lemma {:induction false} OneDraw()
    ensures Draws(Overlap(FIRST_INVOKE_ID)) == 1
  {
    var a := Overlap(FIRST_INVOKE_ID);
    assert a[1..][1..] == a[2..] && a[2..][1..] == a[3..] && a[3..][1..] == a[4..] && a[4..][1..] == a[5..];
    assert a[5..][1..] == a[6..] && a[6..][1..] == [];
    assert Draws(a[6..]) == 0 && Draws(a[5..]) == 0 && Draws(a[4..]) == 0 && Draws(a[3..]) == 0;
    assert Draws(a[2..]) == 0 && Draws(a[1..]) == 0;
  }

  const MISROUTING: seq<Action> := Pushes(SPARE_IDS) + Overlap(FIRST_INVOKE_ID)

  lemma {:induction false} MisroutingRun()
    ensures Draws(MISROUTING) == SPARE_IDS + 1 && !Safe(Run(Init(), MISROUTING).deliveries)
  {
    RunOfPushes(SPARE_IDS);
    RunOfAppend(Init(), Pushes(SPARE_IDS), Overlap(FIRST_INVOKE_ID));
    OverlapMisroutes(Run(Init(), Pushes(SPARE_IDS)));
    OneDraw();
  }

  /** The bound of 900 ids is not a convenience: one more, and some run hands an invocation a ping's answer. */
  lemma {:induction false} SafeExactlyUpTo(n: nat)
    ensures SafeUpTo(n) <==> n <= SPARE_IDS
  {
    if n <= SPARE_IDS {
      forall actions | Draws(actions) <= n
        ensures Safe(Run(Init(), actions).deliveries)
      {
        RunFromInit(actions);
      }
    } else {
      MisroutingRun();
      assert Draws(MISROUTING) <= n;
    }
  }
}
