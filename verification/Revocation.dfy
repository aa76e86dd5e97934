/** The push-revocation protocol between the daemon, the broker stream and one worker.

    Daemon tasks interleave freely: a call resolves its tokens at one moment and writes its frame at a
    later one, and each revocation is pushed by a task of its own that may run late or find the
    session not connected. The stream itself is first in, first out.
 */
module Revocation {
  import opened Capabilities
  import opened CapabilityRegistries
  import opened Workers

  type CallId = nat

  /** A tool call: the tokens it resolved, the ids already revoked at that moment, whether it was sent. */
  datatype ToolCall = ToolCall(tool: string, tokens: seq<Token>, revokedThen: set<TokenId>, sent: bool)

  /** `usedIds` and `revoked` record history: ids ever issued, ids whose revocation took effect. */
  datatype System = System(
    daemon: Table,
    usedIds: set<TokenId>,
    revoked: set<TokenId>,
    pushes: seq<TokenId>,
    connected: bool,
    calls: map<CallId, ToolCall>,
    wire: seq<Line>,
    read: seq<Line>)

  datatype Action =
    | Issue(agent: AgentId, token: Token)
    | Revoke(id: TokenId, now: Instant)
    | Push(index: nat)
    | Connect
    | Disconnect
    | Resolve(call: CallId, tool: string, handles: seq<Handle>, agent: AgentId, now: Instant)
    | Send(call: CallId)
    | Deliver(at: Instant)

  const INITIAL: System := System(Table(map[], 0), {}, {}, [], false, map[], [], [])

  predicate Enabled(s: System, a: Action)
  {
    match a
    case Issue(_, token) => token.id !in s.usedIds
    case Push(i) => i < |s.pushes|
    case Resolve(call, _, _, _, _) => call !in s.calls
    case Send(call) => call in s.calls && !s.calls[call].sent && s.connected
    case Deliver(_) => s.wire != []
    case _ => true
  }

  function Next(s: System, a: Action): (r: System)
  {
    if !Enabled(s, a) then s
    else
      match a
      case Issue(agent, token) => s.(daemon := InsertInto(s.daemon, agent, token), usedIds := s.usedIds + {token.id})
      case Revoke(id, now) =>
        if exists h :: h in s.daemon.entries && HoldsLive(s.daemon, h, id)
        then s.(daemon := RevokeId(s.daemon, id, now), revoked := s.revoked + {id}, pushes := s.pushes + [id])
        else s
      case Push(i) =>
        var rest := s.pushes[..i] + s.pushes[i + 1..];
        if s.connected
        then s.(pushes := rest, wire := s.wire + [Frame(0, RevokeToken(s.pushes[i]), 0)])
        else s.(pushes := rest)
      case Connect => s.(connected := true)
      case Disconnect => s.(connected := false)
      case Resolve(call, tool, handles, agent, now) =>
        var tokens := ResolveTokens(s.daemon, handles, agent, now);
        s.(calls := s.calls[call := ToolCall(tool, tokens, s.revoked, false)])
      case Send(call) =>
        var info := s.calls[call];
        s.(calls := s.calls[call := info.(sent := true)],
           wire := s.wire + [Frame(call, InvokeTool(info.tool, info.tokens), 0)])
      case Deliver(at) =>
        var line := s.wire[0];
        s.(wire := s.wire[1..], read := s.read + [if line.Frame? then line.(at := at) else line])
  }

  function Run(s: System, actions: seq<Action>): (r: System)
    decreases |actions|
  {
    if actions == [] then s else Run(Next(s, actions[0]), actions[1..])
  }

  // ---------------------------------------------------------------------------
  // What every step keeps
  // ---------------------------------------------------------------------------

  predicate DaemonInv(s: System)
  {
    && HandlesIssued(s.daemon)
    && s.revoked <= s.usedIds
    && (forall h :: h in s.daemon.entries ==> s.daemon.entries[h].token.id in s.usedIds)
    && (forall h :: h in s.daemon.entries && s.daemon.entries[h].token.id in s.revoked ==>
          IsRevoked(s.daemon.entries[h].token))
  }

  predicate CleanTokens(tokens: seq<Token>, revokedThen: set<TokenId>)
  {
    forall i :: 0 <= i < |tokens| ==> !IsRevoked(tokens[i]) && tokens[i].id !in revokedThen
  }

  predicate CallsInv(s: System)
  {
    forall c :: c in s.calls ==> CleanTokens(s.calls[c].tokens, s.calls[c].revokedThen)
  }

  /** A call's frame carries what the call resolved. */
  predicate LineInv(s: System, line: Line)
  {
    line.Frame? && line.request.InvokeTool? ==>
      && line.id in s.calls
      && line.request == InvokeTool(s.calls[line.id].tool, s.calls[line.id].tokens)
  }

  predicate WireInv(s: System)
  {
    && (forall i :: 0 <= i < |s.wire| ==> LineInv(s, s.wire[i]))
    && (forall i :: 0 <= i < |s.read| ==> LineInv(s, s.read[i]))
  }

  predicate Inv(s: System)
  {
    DaemonInv(s) && CallsInv(s) && WireInv(s)
  }

  lemma {:induction false} DaemonStep(s: System, a: Action)
    requires DaemonInv(s)
    ensures DaemonInv(Next(s, a))
  {
  }

  lemma {:induction false} CallsStep(s: System, a: Action)
    requires DaemonInv(s) && CallsInv(s)
    ensures CallsInv(Next(s, a))
  {
    if a.Resolve? && Enabled(s, a) {
      var tokens := ResolveTokens(s.daemon, a.handles, a.agent, a.now);
      forall i | 0 <= i < |tokens|
        ensures !IsRevoked(tokens[i]) && tokens[i].id !in s.revoked
      {
        ResolvedTokens(s.daemon, a.handles, a.agent, a.now, tokens[i]);
      }
    }
  }

  lemma {:induction false} WireStep(s: System, a: Action)
    requires WireInv(s)
    ensures WireInv(Next(s, a))
  {
  }

  lemma {:induction false} RunKeepsInv(s: System, actions: seq<Action>)
    requires Inv(s)
    ensures Inv(Run(s, actions))
    decreases |actions|
  {
    if actions != [] {
      DaemonStep(s, actions[0]);
      CallsStep(s, actions[0]);
      WireStep(s, actions[0]);
      RunKeepsInv(Next(s, actions[0]), actions[1..]);
    }
  }

  // ---------------------------------------------------------------------------
  // The protocol's promises
  // ---------------------------------------------------------------------------

  /** In every interleaving: a call whose tokens were resolved after the revocation of `t` took effect
      is never authorised through `t` at the worker, whatever became of the push frame. */
  lemma {:induction false} NoAuthorityAfterRevoke(c: Config, actions: seq<Action>, k: nat, t: TokenId,
                                                  requested: Capability, now: Instant)
    requires k < |Run(INITIAL, actions).read|
    requires var s := Run(INITIAL, actions);
             s.read[k].Frame? && s.read[k].id in s.calls && t in s.calls[s.read[k].id].revokedThen
    ensures !AuthorisedThrough(c, Run(INITIAL, actions).read, k, t, requested, now)
  {
    RunKeepsInv(INITIAL, actions);
    var s := Run(INITIAL, actions);
    assert LineInv(s, s.read[k]);
    assert CleanTokens(s.calls[s.read[k].id].tokens, s.calls[s.read[k].id].revokedThen);
  }

  /** Only live tokens cross the stream, so the worker's own guarantees hold in every run. */
  lemma {:induction false} ReadForwardsLive(actions: seq<Action>)
    ensures ForwardsLive(Run(INITIAL, actions).read)
  {
    RunKeepsInv(INITIAL, actions);
    var s := Run(INITIAL, actions);
    forall i | 0 <= i < |s.read| && s.read[i].Frame? && s.read[i].request.InvokeTool?
      ensures AllLive(s.read[i].request.tokens)
    {
      assert LineInv(s, s.read[i]);
      assert CleanTokens(s.calls[s.read[i].id].tokens, s.calls[s.read[i].id].revokedThen);
    }
  }

  /** In every interleaving: once the worker has read a revocation of `t` while holding `t`, no later
      call is authorised by it, even one whose frame was resolved before the revocation. */
  lemma {:induction false} PushedRevocationIsFinal(c: Config, actions: seq<Action>, j: nat, k: nat, t: TokenId,
                                requested: Capability, now: Instant)
    requires j < k < |Run(INITIAL, actions).read|
    requires Revokes(Run(INITIAL, actions).read[j], t) && Holds(After(c, Run(INITIAL, actions).read[..j]), t)
    ensures !AuthorisedThrough(c, Run(INITIAL, actions).read, k, t, requested, now)
  {
    RevocationIsFinal(c, Run(INITIAL, actions).read, j, k, t, requested, now);
  }

  /** The remaining race, in one run: a call resolves `t`, then `t` is revoked and the push frame
      reaches the worker first. The worker does not hold `t` yet, so the push changes nothing and
      the call still runs with `t` live. */
  function OvertakenRevocation(agent: AgentId, token: Token, tool: string): (r: seq<Action>)
  {
    [Connect, Issue(agent, token), Resolve(0, tool, [0], agent, 0), Revoke(token.id, 0), Push(0), Send(0),
     Deliver(0), Deliver(0)]
  }

  lemma {:induction false} OvertakenRevocationDelivers(agent: AgentId, token: Token, tool: string)
    requires !IsRevoked(token) && !IsExpired(token, 0)
    ensures Run(INITIAL, OvertakenRevocation(agent, token, tool)).read
            == [Frame(0, RevokeToken(token.id), 0), Frame(0, InvokeTool(tool, [token]), 0)]
  {
    var actions := OvertakenRevocation(agent, token, tool);
    var revoke, invoke := Frame(0, RevokeToken(token.id), 0), Frame(0, InvokeTool(tool, [token]), 0);
    var issued := InsertInto(INITIAL.daemon, agent, token);
    var s2 := INITIAL.(connected := true, daemon := issued, usedIds := {token.id});
    var handles: seq<Handle> := [0];
    assert ResolveTokens(issued, handles, agent, 0) == [token] by {
      var none: seq<Handle> := [];
      assert handles[..|handles| - 1] == none;
      assert ResolveTokens(issued, none, agent, 0) == [];
      assert Resolves(issued, 0, agent, 0);
    }
    var s3 := s2.(calls := map[0 := ToolCall(tool, [token], {}, false)]);
    assert HoldsLive(issued, 0, token.id);
    var s4 := s3.(daemon := RevokeId(issued, token.id, 0), revoked := {token.id}, pushes := [token.id]);
    assert Next(s3, actions[3]) == s4;
    var s5 := s4.(pushes := [], wire := [revoke]);
    var s6 := s5.(calls := map[0 := ToolCall(tool, [token], {}, true)], wire := [revoke, invoke]);
    var s7 := s6.(wire := [invoke], read := [revoke]);
    var s8 := s7.(wire := [], read := [revoke, invoke]);
    RunUnfolds(actions, [INITIAL, INITIAL.(connected := true), s2, s3, s4, s5, s6, s7, s8]);
  }

  lemma {:induction false} OvertakenRevocationIsLost(c: Config, token: Token, tool: string, requested: Capability)
    requires tool in c.tools && Permits(token, requested, 0)
    ensures var read := Run(INITIAL, OvertakenRevocation(c.agent, token, tool)).read;
            |read| == 2 && Revokes(read[0], token.id) && AuthorisedThrough(c, read, 1, token.id, requested, 0)
  {
    OvertakenRevocationDelivers(c.agent, token, tool);
    var revoke, invoke := Frame(0, RevokeToken(token.id), 0), Frame(0, InvokeTool(tool, [token]), 0);
    var read := [revoke, invoke];
    var none: seq<Line> := [];
    assert read[..2] == read && read[..1] == [revoke] && [revoke][..0] == none;
    assert After(c, [revoke]) == FRESH;
    var noTokens: seq<Token> := [];
    assert [token][..0] == noTokens;
    assert Merge(FRESH, c.agent, [token]) == MergeOne(FRESH, c.agent, token);
    assert invoke.request.tokens[0].id == token.id;
  }

  predicate LeadsTo(states: seq<System>, actions: seq<Action>, i: nat)
    requires |states| == |actions| + 1 && i < |actions|
  {
    states[i + 1] == Next(states[i], actions[i])
  }

  lemma {:induction false} RunUnfolds(actions: seq<Action>, states: seq<System>)
    requires |states| == |actions| + 1
    requires forall i :: 0 <= i < |actions| ==> LeadsTo(states, actions, i)
    ensures Run(states[0], actions) == states[|actions|]
    decreases |actions|
  {
    if actions != [] {
      assert LeadsTo(states, actions, 0);
      forall i | 0 <= i < |actions| - 1
        ensures LeadsTo(states[1..], actions[1..], i)
      {
        assert LeadsTo(states, actions, i + 1);
      }
      RunUnfolds(actions[1..], states[1..]);
    }
  }
}
