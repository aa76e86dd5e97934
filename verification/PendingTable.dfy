/** Calls that wait for a reply through the router: registration, routing, replies, timeouts and the guard
    that cleans up, interleaved freely. */
module PendingTable {

  type Trace = nat

  /** A reply names the trace it answers; an error reply makes the call fail. */
  datatype Response = Response(trace: Trace, failed: bool)

  datatype Stage = Registered | Routed | Returned

  /** A call; `claimed` once a responder has taken its sender, `inbox` everything that ever reached it. */
  datatype Call = Call(trace: Trace, stage: Stage, claimed: bool, inbox: seq<Response>)

  /** `claims` are the senders taken out of the table and not yet used. */
  datatype System = System(calls: seq<Call>, pending: map<Trace, nat>, claims: map<nat, Response>)

  datatype Action =
    | Register(trace: Trace)
    | RouteFails(c: nat)
    | RouteSucceeds(c: nat)
    | Receive(c: nat)
    | TimeOut(c: nat)
    | Abort(c: nat)
    | TakeSender(trace: Trace, failed: bool)
    | Send(c: nat)

  function Init(): (s: System)
  {
    System([], map[], map[])
  }

  predicate In(s: System, c: nat, stage: Stage)
  {
    c < |s.calls| && s.calls[c].stage == stage
  }

  /** Trace ids are fresh. */
  predicate Enabled(s: System, a: Action)
  {
    match a
    case Register(trace) => forall c :: 0 <= c < |s.calls| ==> s.calls[c].trace != trace
    case RouteFails(c) => In(s, c, Registered)
    case RouteSucceeds(c) => In(s, c, Registered)
    case Receive(c) => In(s, c, Routed) && s.calls[c].inbox != []
    case TimeOut(c) => In(s, c, Routed) && s.calls[c].inbox == []
    case Abort(c) => c < |s.calls| && s.calls[c].stage != Returned
    case TakeSender(_, _) => true
    case Send(c) => c in s.claims && c < |s.calls|
  }

  /** The guard runs when a call returns; a call that got a result has disarmed it. */
  function Return(s: System, c: nat, armed: bool): (r: System)
    requires c < |s.calls|
  {
    s.(calls := s.calls[c := s.calls[c].(stage := Returned)],
       pending := if armed then s.pending - {s.calls[c].trace} else s.pending)
  }

  function Next(s: System, a: Action): (r: System)
  {
    if !Enabled(s, a) then s else
    match a
    case Register(trace) =>
      s.(calls := s.calls + [Call(trace, Registered, false, [])], pending := s.pending[trace := |s.calls|])
    case RouteFails(c) => Return(s, c, true)
    case RouteSucceeds(c) => s.(calls := s.calls[c := s.calls[c].(stage := Routed)])
    case Receive(c) => Return(s, c, s.calls[c].inbox[0].failed)
    case TimeOut(c) => Return(s, c, true)
    case Abort(c) => Return(s, c, true)
    case TakeSender(trace, failed) =>
      if trace !in s.pending then s else
      var c := s.pending[trace];
      System(if c < |s.calls| then s.calls[c := s.calls[c].(claimed := true)] else s.calls,
             s.pending - {trace}, s.claims[c := Response(trace, failed)])
    case Send(c) =>
      var call := s.calls[c];
      var heard := call.stage != Returned;
      System(if heard then s.calls[c := call.(inbox := call.inbox + [s.claims[c]])] else s.calls,
             s.pending, s.claims - {c})
  }

  function Run(s: System, actions: seq<Action>): (r: System)
    decreases |actions|
  {
    if actions == [] then s else Run(Next(s, actions[0]), actions[1..])
  }

  // ---------------------------------------------------------------------------
  // What every run keeps
  // ---------------------------------------------------------------------------

  predicate TracesDiffer(calls: seq<Call>)
  {
    forall i, j :: 0 <= i < j < |calls| ==> calls[i].trace != calls[j].trace
  }

  /** A call whose reply can still be claimed. */
  predicate Open(call: Call)
  {
    call.stage != Returned && !call.claimed
  }

  predicate EntriesAreOpenCalls(calls: seq<Call>, pending: map<Trace, nat>)
  {
    && (forall t :: t in pending ==> pending[t] < |calls| && calls[pending[t]].trace == t && Open(calls[pending[t]]))
    && (forall c :: 0 <= c < |calls| && Open(calls[c]) ==> calls[c].trace in pending)
  }

  /** A reply is claimed once, held by one responder, and heard at most once. */
  predicate HeardOnce(calls: seq<Call>, claims: map<nat, Response>)
  {
    && (forall c :: c in claims ==>
          c < |calls| && calls[c].claimed && calls[c].inbox == [] && claims[c].trace == calls[c].trace)
    && (forall c :: 0 <= c < |calls| ==>
          && |calls[c].inbox| <= 1
          && (calls[c].inbox != [] ==> calls[c].claimed && calls[c].inbox[0].trace == calls[c].trace))
  }

  predicate Inv(s: System)
  {
    TracesDiffer(s.calls) && EntriesAreOpenCalls(s.calls, s.pending) && HeardOnce(s.calls, s.claims)
  }

  /** Changing one call, but not its trace. */
  lemma {:induction false} OneCallChanges(calls: seq<Call>, pending: map<Trace, nat>, c: nat, call: Call)
    requires TracesDiffer(calls) && EntriesAreOpenCalls(calls, pending)
    requires c < |calls| && call.trace == calls[c].trace
    ensures TracesDiffer(calls[c := call])
    ensures Open(call) == Open(calls[c]) ==> EntriesAreOpenCalls(calls[c := call], pending)
    ensures !Open(call) ==> EntriesAreOpenCalls(calls[c := call], pending - {call.trace})
  {
    var after := calls[c := call];
    assert forall i :: 0 <= i < |calls| ==> after[i].trace == calls[i].trace;
    forall t | t in pending && t != call.trace
      ensures pending[t] != c
    {
    }
  }

  lemma {:induction false} CallReturns(s: System, c: nat, armed: bool)
    requires Inv(s) && c < |s.calls| && (armed || s.calls[c].claimed)
    ensures Inv(Return(s, c, armed))
  {
    OneCallChanges(s.calls, s.pending, c, s.calls[c].(stage := Returned));
  }

  lemma {:induction false} CallRegisters(s: System, trace: Trace)
    requires Inv(s) && Enabled(s, Register(trace))
    ensures Inv(Next(s, Register(trace)))
  {
    assert trace !in s.pending;
    var r := Next(s, Register(trace));
    assert forall c :: 0 <= c < |s.calls| ==> r.calls[c] == s.calls[c];
  }

  lemma {:induction false} SenderTaken(s: System, trace: Trace, failed: bool)
    requires Inv(s) && trace in s.pending
    ensures Inv(Next(s, TakeSender(trace, failed)))
    ensures s.pending[trace] !in s.claims
  {
    var c := s.pending[trace];
    OneCallChanges(s.calls, s.pending, c, s.calls[c].(claimed := true));
  }

  lemma {:induction false} ReplySent(s: System, c: nat)
    requires Inv(s) && Enabled(s, Send(c))
    ensures Inv(Next(s, Send(c)))
  {
    var call := s.calls[c];
    OneCallChanges(s.calls, s.pending, c, call.(inbox := call.inbox + [s.claims[c]]));
  }

  lemma {:induction false} StepKeepsInv(s: System, a: Action)
    requires Inv(s)
    ensures Inv(Next(s, a))
  {
    if Enabled(s, a) {
      match a {
        case Register(trace) => CallRegisters(s, trace);
        case RouteFails(c) => CallReturns(s, c, true);
        case RouteSucceeds(c) => OneCallChanges(s.calls, s.pending, c, s.calls[c].(stage := Routed));
        case Receive(c) => CallReturns(s, c, s.calls[c].inbox[0].failed);
        case TimeOut(c) => CallReturns(s, c, true);
        case Abort(c) => CallReturns(s, c, true);
        case TakeSender(trace, failed) => if trace in s.pending { SenderTaken(s, trace, failed); }
        case Send(c) => ReplySent(s, c);
      }
    }
  }

  lemma {:induction false} RunKeepsInv(s: System, actions: seq<Action>)
    requires Inv(s)
    ensures Inv(Run(s, actions))
    decreases |actions|
  {
    if actions != [] {
      StepKeepsInv(s, actions[0]);
      RunKeepsInv(Next(s, actions[0]), actions[1..]);
    }
  }

  /** In every interleaving a call has an entry exactly while it is in progress and no responder has claimed
      it; so none is left behind by a call that returned, and every call hears at most one reply, to its own
      message. */
  lemma {:induction false} NoLeakedWaiters(actions: seq<Action>, c: nat)
    ensures var s := Run(Init(), actions);
            c < |s.calls| ==>
              && (s.calls[c].trace in s.pending <==> s.calls[c].stage != Returned && !s.calls[c].claimed)
              && (s.calls[c].trace in s.pending ==> s.pending[s.calls[c].trace] == c)
              && |s.calls[c].inbox| <= 1
              && (s.calls[c].inbox != [] ==> s.calls[c].inbox[0].trace == s.calls[c].trace)
    ensures var s := Run(Init(), actions);
            forall t :: t in s.pending ==> s.pending[t] < |s.calls| && s.calls[s.pending[t]].stage != Returned
  {
    RunKeepsInv(Init(), actions);
    var s := Run(Init(), actions);
    if c < |s.calls| && s.calls[c].trace in s.pending {
      var d := s.pending[s.calls[c].trace];
      assert c < d || d < c || c == d;
    }
  }

  /** A responder that finds the entry of a call in progress and sends makes the call hear exactly its reply; the entry
      is gone, and a call that was routed can return with it. */
  lemma {:induction false} ReplyIsHeard(actions: seq<Action>, trace: Trace, failed: bool)
    ensures var s := Run(Init(), actions);
            trace in s.pending ==>
              var c := s.pending[trace];
              var r := Next(Next(s, TakeSender(trace, failed)), Send(c));
              && c < |r.calls| && r.calls[c] == s.calls[c].(claimed := true, inbox := [Response(trace, failed)])
              && trace !in r.pending
              && (s.calls[c].stage == Routed ==> Next(r, Receive(c)).calls[c].stage == Returned)
  {
    RunKeepsInv(Init(), actions);
    var s := Run(Init(), actions);
    if trace in s.pending {
      var c := s.pending[trace];
      assert Open(s.calls[c]) && s.calls[c].inbox == [];
    }
  }
}
