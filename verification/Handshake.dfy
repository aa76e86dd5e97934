/** The launch handshake between broker and worker, with failure possible at every step, and what a worker
    may do before it is confined. */
module Handshake {

  datatype Line = Ready | ReadyAck | SandboxedReady | InvokeTool | ToolReply

  /** The worker's progress; confinement is applied one call at a time. */
  datatype WorkerPc =
    | Connected | AwaitingAck | GotPolicy
    | NoNewPrivs | Landlocked | Allowlisted | Filtered
    | Looping | Exited

  datatype BrokerPc = Listening | Accepted | GotReady | Acked | GotSandboxedReady | Discarded | Installed | Abandoned

  /** What the kernel enforces on the worker process; once set, nothing is ever lifted. */
  datatype Confinement = Confinement(noNewPrivs: bool, landlock: bool, allowFilter: bool, killFilter: bool)

  const CONFINED := Confinement(true, true, true, true)

  /** `buffer` is the broker's buffered reader of the handshake and `lost` the lines it held when it was
      discarded. The history: `sent` counts the worker's handshake lines, `ran` is the confinement in force at
      each tool call. */
  datatype System = System(
    worker: WorkerPc,
    kernel: Confinement,
    broker: BrokerPc,
    toBroker: seq<Line>,
    toWorker: seq<Line>,
    buffer: seq<Line>,
    lost: seq<Line>,
    sent: nat,
    ran: seq<Confinement>)

  datatype Action =
    | SendReady
    | ReceiveAck
    | SetNoNewPrivs
    | RestrictSelf
    | ApplyAllowlist
    | ApplyKillFilter
    | SendSandboxedReady
    | ServeOne
    | WorkerFails
    | Accept(credentialsMatch: bool)
    | Fill(n: nat)
    | ReadLine
    | SendAck
    | DiscardReader
    | Install
    | BrokerInvokes
    | BrokerFails

  function Init(): (s: System)
  {
    System(Connected, Confinement(false, false, false, false), Listening, [], [], [], [], 0, [])
  }

  predicate Enabled(s: System, a: Action)
  {
    match a
    case SendReady => s.worker.Connected?
    case ReceiveAck => s.worker.AwaitingAck? && s.toWorker != []
    case SetNoNewPrivs => s.worker.GotPolicy?
    case RestrictSelf => s.worker.NoNewPrivs?
    case ApplyAllowlist => s.worker.Landlocked?
    case ApplyKillFilter => s.worker.Allowlisted?
    case SendSandboxedReady => s.worker.Filtered?
    case ServeOne => s.worker.Looping? && s.toWorker != []
    case WorkerFails => true
    case Accept(_) => s.broker.Listening?
    case Fill(n) => (s.broker.Accepted? || s.broker.Acked?) && n <= |s.toBroker|
    case ReadLine => (s.broker.Accepted? || s.broker.Acked?) && s.buffer != []
    case SendAck => s.broker.GotReady?
    case DiscardReader => s.broker.GotSandboxedReady?
    case Install => s.broker.Discarded?
    case BrokerInvokes => s.broker.Installed?
    case BrokerFails => !s.broker.Installed?
  }

  function WorkerStep(s: System, a: Action): (r: System)
    requires Enabled(s, a)
  {
    match a
    case SendReady => s.(worker := AwaitingAck, toBroker := s.toBroker + [Ready], sent := s.sent + 1)
    case ReceiveAck =>
      if s.toWorker[0].ReadyAck? then s.(worker := GotPolicy, toWorker := s.toWorker[1..]) else s.(worker := Exited)
    case SetNoNewPrivs => s.(worker := NoNewPrivs, kernel := s.kernel.(noNewPrivs := true))
    case RestrictSelf => s.(worker := Landlocked, kernel := s.kernel.(landlock := true))
    case ApplyAllowlist => s.(worker := Allowlisted, kernel := s.kernel.(allowFilter := true))
    case ApplyKillFilter => s.(worker := Filtered, kernel := s.kernel.(killFilter := true))
    case SendSandboxedReady => s.(worker := Looping, toBroker := s.toBroker + [SandboxedReady], sent := s.sent + 1)
    case ServeOne =>
      var s' := s.(toWorker := s.toWorker[1..], toBroker := s.toBroker + [ToolReply]);
      if s.toWorker[0].InvokeTool? then s'.(ran := s.ran + [s.kernel]) else s'
    case WorkerFails => s.(worker := Exited)
    case _ => s
  }

  function BrokerStep(s: System, a: Action): (r: System)
    requires Enabled(s, a)
  {
    match a
    case Accept(matches) => s.(broker := if matches then Accepted else Abandoned)
    case Fill(n) => s.(buffer := s.buffer + s.toBroker[..n], toBroker := s.toBroker[n..])
    case ReadLine =>
      var expected := if s.broker.Accepted? then Ready else SandboxedReady;
      var done := if s.broker.Accepted? then GotReady else GotSandboxedReady;
      s.(buffer := s.buffer[1..], broker := if s.buffer[0] == expected then done else Abandoned)
    case SendAck => s.(broker := Acked, toWorker := s.toWorker + [ReadyAck])
    case DiscardReader => s.(broker := Discarded, buffer := [], lost := s.buffer)
    case Install => s.(broker := Installed)
    case BrokerInvokes => s.(toWorker := s.toWorker + [InvokeTool])
    case BrokerFails => s.(broker := Abandoned)
    case _ => s
  }

  predicate ByWorker(a: Action)
  {
    a.SendReady? || a.ReceiveAck? || a.SetNoNewPrivs? || a.RestrictSelf? || a.ApplyAllowlist? || a.ApplyKillFilter?
    || a.SendSandboxedReady? || a.ServeOne? || a.WorkerFails?
  }

  function Next(s: System, a: Action): (r: System)
  {
    if !Enabled(s, a) then s else if ByWorker(a) then WorkerStep(s, a) else BrokerStep(s, a)
  }

  function Run(s: System, actions: seq<Action>): (r: System)
    decreases |actions|
  {
    if actions == [] then s else Run(Next(s, actions[0]), actions[1..])
  }

  // ---------------------------------------------------------------------------
  // What every run keeps
  // ---------------------------------------------------------------------------

  /** The confinement a worker at this point has given itself. */
  predicate Applied(pc: WorkerPc, k: Confinement)
  {
    match pc
    case NoNewPrivs => k == Confinement(true, false, false, false)
    case Landlocked => k == Confinement(true, true, false, false)
    case Allowlisted => k == Confinement(true, true, true, false)
    case Filtered => k == CONFINED
    case Looping => k == CONFINED
    case Exited => (k.killFilter ==> k.allowFilter) && (k.allowFilter ==> k.landlock) && (k.landlock ==> k.noNewPrivs)
    case _ => k == Confinement(false, false, false, false)
  }

  predicate SentSoFar(s: System)
  {
    match s.worker
    case Connected => s.sent == 0
    case Looping => s.sent == 2
    case Exited => s.sent <= 2 && (s.sent == 2 ==> s.kernel == CONFINED)
    case _ => s.sent == 1
  }

  predicate BeforeAck(pc: WorkerPc)
  {
    pc.Connected? || pc.AwaitingAck? || pc.Exited?
  }

  /** The handshake lines on their way to the broker: those sent and not yet read. */
  function Unread(sent: nat, read: nat): (r: seq<Line>)
    requires read <= sent <= 2
  {
    [Ready, SandboxedReady][read..sent]
  }

  predicate Lines(s: System)
    requires s.sent <= 2
  {
    match s.broker
    case Listening => s.buffer + s.toBroker == Unread(s.sent, 0)
    case Accepted => s.buffer + s.toBroker == Unread(s.sent, 0)
    case GotReady => s.sent >= 1 && s.buffer + s.toBroker == Unread(s.sent, 1)
    case Acked => s.sent >= 1 && s.buffer + s.toBroker == Unread(s.sent, 1)
    case GotSandboxedReady => s.sent == 2 && s.buffer + s.toBroker == []
    case Discarded => s.sent == 2 && s.buffer + s.toBroker == []
    case Installed => s.sent == 2
    case Abandoned => true
  }

  /** Until the transport is installed the worker is sent at most the acknowledgement. */
  predicate OnlyTheAck(s: System)
  {
    match s.broker
    case Installed => true
    case Listening => s.toWorker == [] && BeforeAck(s.worker)
    case Accepted => s.toWorker == [] && BeforeAck(s.worker)
    case GotReady => s.toWorker == [] && BeforeAck(s.worker)
    case _ => s.toWorker == [] || (s.toWorker == [ReadyAck] && BeforeAck(s.worker))
  }

  predicate ToolsConfined(s: System)
  {
    && (!s.broker.Installed? ==> s.ran == [])
    && forall i :: 0 <= i < |s.ran| ==> s.ran[i] == CONFINED
  }

  predicate Inv(s: System)
  {
    && Applied(s.worker, s.kernel) && SentSoFar(s) && Lines(s) && OnlyTheAck(s) && ToolsConfined(s)
    && s.lost == []
  }

  lemma {:induction false} WorkerKeepsInv(s: System, a: Action)
    requires Inv(s) && Enabled(s, a) && ByWorker(a)
    ensures Inv(WorkerStep(s, a))
  {
  }

  lemma {:induction false} FilledBuffer(buffer: seq<Line>, wire: seq<Line>, n: nat)
    requires n <= |wire|
    ensures (buffer + wire[..n]) + wire[n..] == buffer + wire
  {
  }

  lemma {:induction false} ReadBuffer(buffer: seq<Line>, wire: seq<Line>, sent: nat, read: nat)
    requires buffer != [] && read <= sent <= 2 && buffer + wire == Unread(sent, read)
    ensures read < sent && buffer[0] == [Ready, SandboxedReady][read] && buffer[1..] + wire == Unread(sent, read + 1)
  {
    assert (buffer + wire)[0] == buffer[0] && (buffer + wire)[1..] == buffer[1..] + wire;
    assert Unread(sent, read)[1..] == Unread(sent, read + 1);
  }

  lemma {:induction false} BrokerKeepsInv(s: System, a: Action)
    requires Inv(s) && Enabled(s, a) && !ByWorker(a)
    ensures Inv(BrokerStep(s, a))
  {
    match a {
      case Fill(n) => FilledBuffer(s.buffer, s.toBroker, n);
      case ReadLine => ReadBuffer(s.buffer, s.toBroker, s.sent, if s.broker.Accepted? then 0 else 1);
      case _ =>
    }
  }

  lemma {:induction false} RunKeepsInv(s: System, actions: seq<Action>)
    requires Inv(s)
    ensures Inv(Run(s, actions))
    decreases |actions|
  {
    if actions != [] {
      if Enabled(s, actions[0]) {
        if ByWorker(actions[0]) {
          WorkerKeepsInv(s, actions[0]);
        } else {
          BrokerKeepsInv(s, actions[0]);
        }
      }
      RunKeepsInv(Next(s, actions[0]), actions[1..]);
    }
  }

  /** However the two sides interleave and wherever one of them fails: once the broker has its transport, and at
      every tool call, the worker is fully confined; and no line is lost with the buffered reader. */
  lemma {:induction false} ConfinementPrecedesWork(actions: seq<Action>)
    ensures var s := Run(Init(), actions);
            && (s.broker.Installed? ==> s.kernel == CONFINED)
            && (!s.broker.Installed? ==> s.ran == [] && InvokeTool !in s.toWorker)
            && (forall i :: 0 <= i < |s.ran| ==> s.ran[i] == CONFINED)
            && (s.broker.GotSandboxedReady? ==> s.buffer == [] && s.toBroker == [])
            && s.lost == []
  {
    RunKeepsInv(Init(), actions);
  }

  /** The filters are never in force without what they rely on, not even in a worker that gave up half-way. */
  lemma {:induction false} ConfinementInOrder(actions: seq<Action>)
    ensures var k := Run(Init(), actions).kernel;
            (k.killFilter ==> k.allowFilter) && (k.allowFilter ==> k.landlock) && (k.landlock ==> k.noNewPrivs)
  {
    RunKeepsInv(Init(), actions);
  }

  /** An honest worker never trips the broker's check of what it says: only credentials, a failure of the
      transport or a timeout abandon the launch. */
  lemma {:induction false} NoLineIsUnexpected(actions: seq<Action>)
    ensures var s := Run(Init(), actions);
            Enabled(s, ReadLine) ==> !Next(s, ReadLine).broker.Abandoned?
  {
    RunKeepsInv(Init(), actions);
    var s := Run(Init(), actions);
    if Enabled(s, ReadLine) {
      ReadBuffer(s.buffer, s.toBroker, s.sent, if s.broker.Accepted? then 0 else 1);
    }
  }

  lemma {:induction false} FailedStepsStay(s: System, a: Action)
    ensures s.broker.Abandoned? ==> Next(s, a).broker.Abandoned?
    ensures s.worker.Exited? ==> Next(s, a).worker.Exited? && Next(s, a).ran == s.ran
  {
  }

  lemma {:induction false} FailedRunsStay(s: System, actions: seq<Action>)
    ensures s.broker.Abandoned? ==> Run(s, actions).broker.Abandoned?
    ensures s.worker.Exited? ==> Run(s, actions).worker.Exited? && Run(s, actions).ran == s.ran
    decreases |actions|
  {
    if actions != [] {
      FailedStepsStay(s, actions[0]);
      FailedRunsStay(Next(s, actions[0]), actions[1..]);
    }
  }

  /** A peer with other credentials is turned away for good, and so is a launch that fails on the broker's side; a
      worker that failed serves nothing any more. */
  lemma {:induction false} FailureIsFinal(s: System, a: Action, actions: seq<Action>)
    requires Enabled(s, a)
    ensures a == Accept(false) || a == BrokerFails ==> Run(Next(s, a), actions).broker.Abandoned?
    ensures a == WorkerFails ==> Run(Next(s, a), actions).ran == s.ran
  {
    FailedRunsStay(Next(s, a), actions);
  }

  predicate LeadsTo(states: seq<System>, actions: seq<Action>, i: nat)
    requires |states| == |actions| + 1 && i < |actions|
  {
    states[i + 1] == Next(states[i], actions[i])
  }

  lemma {:induction false} RunUnfolds(actions: seq<Action>, states: seq<System>)
    requires |states| == |actions| + 1
    requires forall i :: 0 <= i < |actions| ==> LeadsTo(states, actions, i)
    ensures Run(states[0], actions) == states[|actions|]
    decreases |actions|
  {
    if actions != [] {
      assert LeadsTo(states, actions, 0);
      forall i | 0 <= i < |actions| - 1
        ensures LeadsTo(states[1..], actions[1..], i)
      {
        assert LeadsTo(states, actions, i + 1);
      }
      RunUnfolds(actions[1..], states[1..]);
    }
  }

  lemma {:induction false} RunOfAppend(s: System, a: seq<Action>, b: seq<Action>)
    ensures Run(s, a + b) == Run(Run(s, a), b)
    decreases |a|
  {
    if a == [] {
      assert a + b == b;
    } else {
      RunOfAppend(Next(s, a[0]), a[1..], b);
      assert (a + b)[1..] == a[1..] + b;
    }
  }

  const GREETING := [SendReady, Accept(true), Fill(1), ReadLine, SendAck, ReceiveAck]
  const CONFINING := [SetNoNewPrivs, RestrictSelf, ApplyAllowlist, ApplyKillFilter, SendSandboxedReady]
  const READING := [Fill(1), ReadLine]
  const INSTALLING := [DiscardReader, Install]
  const SERVING := [BrokerInvokes, ServeOne]

  const OPEN := Confinement(false, false, false, false)

  /** A worker at this point of a launch so far without failure, the broker at that one. */
  function Launching(worker: WorkerPc, kernel: Confinement, broker: BrokerPc, sent: nat): (s: System)
  {
    System(worker, kernel, broker, [], [], [], [], sent, [])
  }

  lemma {:induction false} Greets()
    ensures Run(Init(), GREETING) == Launching(GotPolicy, OPEN, Acked, 1)
  {
    var s1 := Launching(AwaitingAck, OPEN, Listening, 1).(toBroker := [Ready]);
    var s2 := s1.(broker := Accepted);
    var s3 := s2.(buffer := [Ready], toBroker := []);
    var s4 := s3.(buffer := [], broker := GotReady);
    var s5 := s4.(toWorker := [ReadyAck], broker := Acked);
    RunUnfolds(GREETING, [Init(), s1, s2, s3, s4, s5, Launching(GotPolicy, OPEN, Acked, 1)]);
  }

  lemma {:induction false} Confines()
    ensures Run(Launching(GotPolicy, OPEN, Acked, 1), CONFINING)
         == Launching(Looping, CONFINED, Acked, 2).(toBroker := [SandboxedReady])
  {
    var s0 := Launching(GotPolicy, OPEN, Acked, 1);
    var s1 := Launching(NoNewPrivs, OPEN.(noNewPrivs := true), Acked, 1);
    var s2 := Launching(Landlocked, s1.kernel.(landlock := true), Acked, 1);
    var s3 := Launching(Allowlisted, s2.kernel.(allowFilter := true), Acked, 1);
    var s4 := Launching(Filtered, CONFINED, Acked, 1);
    RunUnfolds(CONFINING, [s0, s1, s2, s3, s4, Launching(Looping, CONFINED, Acked, 2).(toBroker := [SandboxedReady])]);
  }

  lemma {:induction false} Reads()
    ensures Run(Launching(Looping, CONFINED, Acked, 2).(toBroker := [SandboxedReady]), READING)
         == Launching(Looping, CONFINED, GotSandboxedReady, 2)
  {
    var s0 := Launching(Looping, CONFINED, Acked, 2).(toBroker := [SandboxedReady]);
    var s1 := Launching(Looping, CONFINED, Acked, 2).(buffer := [SandboxedReady]);
    RunUnfolds(READING, [s0, s1, Launching(Looping, CONFINED, GotSandboxedReady, 2)]);
  }

  lemma {:induction false} Installs()
    ensures Run(Launching(Looping, CONFINED, GotSandboxedReady, 2), INSTALLING)
         == Launching(Looping, CONFINED, Installed, 2)
  {
    var s0 := Launching(Looping, CONFINED, GotSandboxedReady, 2);
    var s1 := Launching(Looping, CONFINED, Discarded, 2);
    RunUnfolds(INSTALLING, [s0, s1, Launching(Looping, CONFINED, Installed, 2)]);
  }

  lemma {:induction false} Serves()
    ensures Run(Launching(Looping, CONFINED, Installed, 2), SERVING)
         == Launching(Looping, CONFINED, Installed, 2).(toBroker := [ToolReply], ran := [CONFINED])
  {
    var s0 := Launching(Looping, CONFINED, Installed, 2);
    RunUnfolds(SERVING, [s0, s0.(toWorker := [InvokeTool]), s0.(toBroker := [ToolReply], ran := [CONFINED])]);
  }

  /** The launch does go through when nothing fails: the transport is installed and a tool call is served. */
  lemma {:induction false} LaunchSucceedsWithoutFailure()
    ensures var s := Run(Init(), GREETING + CONFINING + READING + INSTALLING + SERVING);
            s.broker.Installed? && s.ran == [CONFINED] && s.toBroker == [ToolReply]
  {
    Greets();
    Confines();
    Reads();
    Installs();
    Serves();
    RunOfAppend(Init(), GREETING, CONFINING);
    RunOfAppend(Init(), GREETING + CONFINING, READING);
    RunOfAppend(Init(), GREETING + CONFINING + READING, INSTALLING);
    RunOfAppend(Init(), GREETING + CONFINING + READING + INSTALLING, SERVING);
  }
}
