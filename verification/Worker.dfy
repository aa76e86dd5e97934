/** The worker's dispatch loop and the token table it keeps for a session. */
module Workers {
  import opened Options
  import opened Capabilities
  import opened CapabilityRegistries

  datatype Request =
    | Ping(nonce: nat)
    | Poke(op: string)
    | InvokeTool(tool: string, tokens: seq<Token>)
    | RevokeToken(id: TokenId)
    | Handshake

  /** One line read from the broker, and when. */
  datatype Line = Malformed | Frame(id: nat, request: Request, at: Instant)

  datatype ToolOutcome = Success(value: string) | Failed(message: string) | Panicked(message: string) | TimedOut

  datatype Body =
    | Pong(nonce: nat)
    | Poked(op: string)
    | NotAvailable(tool: string)
    | Outcome(result: ToolOutcome)
    | Unsupported

  datatype Reply = Reply(id: nat, body: Body)

  /** What stays fixed for a worker: its agent, its whitelisted tools, and what each call returns. */
  datatype Config = Config(agent: AgentId, tools: set<string>, outcome: nat -> ToolOutcome)

  datatype Session = Session(table: Table, handles: map<TokenId, Handle>)

  const FRESH: Session := Session(Table(map[], 0), map[])

  function MergeOne(s: Session, agent: AgentId, t: Token): (r: Session)
  {
    if t.id in s.handles then s
    else Session(InsertInto(s.table, agent, t), s.handles[t.id := s.table.nextId])
  }

  function Merge(s: Session, agent: AgentId, tokens: seq<Token>): (r: Session)
  {
    if tokens == [] then s
    else MergeOne(Merge(s, agent, tokens[..|tokens| - 1]), agent, tokens[|tokens| - 1])
  }

  function HandleLine(c: Config, s: Session, line: Line): (r: Session)
  {
    if line.Malformed? then s
    else
      match line.request
      case InvokeTool(tool, tokens) => if tool in c.tools then Merge(s, c.agent, tokens) else s
      case RevokeToken(id) => s.(table := RevokeId(s.table, id, line.at))
      case _ => s
  }

  function After(c: Config, lines: seq<Line>): (s: Session)
  {
    if lines == [] then FRESH else HandleLine(c, After(c, lines[..|lines| - 1]), lines[|lines| - 1])
  }

  /** Every frame is answered under its own id, except that revocations and garbage are not. */
  function ReplyTo(c: Config, line: Line, index: nat): (r: seq<Reply>)
  {
    if line.Malformed? then []
    else
      match line.request
      case Ping(nonce) => [Reply(line.id, Pong(nonce))]
      case Poke(op) => [Reply(line.id, Poked(op))]
      case InvokeTool(tool, _) =>
        [Reply(line.id, if tool in c.tools then Outcome(c.outcome(index)) else NotAvailable(tool))]
      case RevokeToken(_) => []
      case Handshake => [Reply(line.id, Unsupported)]
  }

  function Replies(c: Config, lines: seq<Line>): (r: seq<Reply>)
  {
    if lines == [] then []
    else Replies(c, lines[..|lines| - 1]) + ReplyTo(c, lines[|lines| - 1], |lines| - 1)
  }

  /** The ids of the lines that are owed an answer. */
  function Owed(lines: seq<Line>): (ids: seq<nat>)
  {
    if lines == [] then []
    else
      var last := lines[|lines| - 1];
      Owed(lines[..|lines| - 1]) + if last.Frame? && !last.request.RevokeToken? then [last.id] else []
  }

  function IdsAnswered(replies: seq<Reply>): (ids: seq<nat>)
  {
    seq(|replies|, i requires 0 <= i < |replies| => replies[i].id)
  }

  /** One reply per frame, under the frame's id and in the order of the frames; none for a revocation. */
  lemma {:induction false} RepliesEchoIds(c: Config, lines: seq<Line>)
    ensures IdsAnswered(Replies(c, lines)) == Owed(lines)
  {
    if lines != [] {
      RepliesEchoIds(c, lines[..|lines| - 1]);
    }
  }

  lemma {:induction false} RepliesGrow(c: Config, lines: seq<Line>, n: nat)
    requires n <= |lines|
    ensures Replies(c, lines[..n]) <= Replies(c, lines)
    decreases |lines| - n
  {
    if n == |lines| {
      assert lines[..n] == lines;
    } else {
      RepliesGrow(c, lines, n + 1);
      assert lines[..n + 1][..n] == lines[..n];
    }
  }

  /** The reply to a frame says what was asked: a ping gets its nonce back, a poke its operation, a call of a
      whitelisted tool that call's own outcome and any other call a refusal that names the tool. */
  lemma {:induction false} RepliesCarryOutcomes(c: Config, lines: seq<Line>, i: nat)
    requires i < |lines| && lines[i].Frame? && !lines[i].request.RevokeToken?
    ensures var k := |Owed(lines[..i])|;
            && k < |Replies(c, lines)|
            && var reply, request := Replies(c, lines)[k], lines[i].request;
               && reply.id == lines[i].id
               && (request.Ping? ==> reply.body == Pong(request.nonce))
               && (request.Poke? ==> reply.body == Poked(request.op))
               && (request.InvokeTool? && request.tool in c.tools ==> reply.body == Outcome(c.outcome(i)))
               && (request.InvokeTool? && request.tool !in c.tools ==> reply.body == NotAvailable(request.tool))
               && (request.Handshake? ==> reply.body == Unsupported)
  {
    RepliesEchoIds(c, lines[..i]);
    RepliesGrow(c, lines, i + 1);
    assert lines[..i + 1][..i] == lines[..i];
    assert |Replies(c, lines[..i])| == |Owed(lines[..i])|;
  }

  // ---------------------------------------------------------------------------
  // The loop
  // ---------------------------------------------------------------------------

  method MergeTokens(registry: CapabilityRegistry, handleMap: map<TokenId, Handle>, agent: AgentId, tokens: seq<Token>)
    returns (merged: map<TokenId, Handle>, ctx: seq<Handle>)
    requires registry.Valid()
    modifies registry
    ensures registry.Valid()
    ensures Session(registry.View(), merged) == Merge(Session(old(registry.View()), handleMap), agent, tokens)
    ensures |ctx| == |tokens|
    ensures forall i :: 0 <= i < |tokens| ==> tokens[i].id in merged && ctx[i] == merged[tokens[i].id]
  {
    merged, ctx := handleMap, [];
    for i := 0 to |tokens|
      invariant registry.Valid()
      invariant Session(registry.View(), merged) == Merge(Session(old(registry.View()), handleMap), agent, tokens[..i])
      invariant |ctx| == i
      invariant forall k :: 0 <= k < i ==> tokens[k].id in merged && ctx[k] == merged[tokens[k].id]
    {
      assert tokens[..i + 1][..i] == tokens[..i];
      var t := tokens[i];
      if t.id !in merged {
        var h := registry.Insert(agent, t);
        merged := merged[t.id := h];
      }
      ctx := ctx + [merged[t.id]];
    }
    assert tokens[..|tokens|] == tokens;
  }

  /** Reads every line in turn and answers it before the next is read. */
  method AgentLoop(c: Config, lines: seq<Line>) returns (replies: seq<Reply>, final: Session)
    ensures replies == Replies(c, lines)
    ensures final == After(c, lines)
  {
    var registry := new CapabilityRegistry(false);
    var handleMap: map<TokenId, Handle> := map[];
    replies := [];
    for i := 0 to |lines|
      invariant fresh(registry) && registry.Valid()
      invariant Session(registry.View(), handleMap) == After(c, lines[..i])
      invariant replies == Replies(c, lines[..i])
    {
      assert lines[..i + 1][..i] == lines[..i];
      if lines[i].Frame? {
        var id := lines[i].id;
        match lines[i].request {
          case Ping(nonce) =>
            replies := replies + [Reply(id, Pong(nonce))];
          case Poke(op) =>
            replies := replies + [Reply(id, Poked(op))];
          case RevokeToken(token) =>
            var _ := registry.Revoke(token, lines[i].at);
          case InvokeTool(tool, tokens) =>
            if tool in c.tools {
              var merged, _ := MergeTokens(registry, handleMap, c.agent, tokens);
              handleMap := merged;
              replies := replies + [Reply(id, Outcome(c.outcome(i)))];
            } else {
              replies := replies + [Reply(id, NotAvailable(tool))];
            }
          case Handshake =>
            replies := replies + [Reply(id, Unsupported)];
        }
      }
    }
    assert lines[..|lines|] == lines;
    final := Session(registry.View(), handleMap);
  }

  // ---------------------------------------------------------------------------
  // One entry per token id
  // ---------------------------------------------------------------------------

  /** The handle map and the table are inverse to each other. */
  predicate Indexed(s: Session)
  {
    && HandlesIssued(s.table)
    && (forall t :: t in s.handles ==> s.handles[t] in s.table.entries && s.table.entries[s.handles[t]].token.id == t)
    && (forall h :: h in s.table.entries ==>
          s.table.entries[h].token.id in s.handles && s.handles[s.table.entries[h].token.id] == h)
  }

  lemma {:induction false} MergeKeepsIndexed(s: Session, agent: AgentId, tokens: seq<Token>)
    requires Indexed(s)
    ensures Indexed(Merge(s, agent, tokens))
  {
    if tokens != [] {
      MergeKeepsIndexed(s, agent, tokens[..|tokens| - 1]);
    }
  }

  /** In every run the session holds exactly one entry per token id, at the recorded handle. */
  lemma {:induction false} SessionIsIndexed(c: Config, lines: seq<Line>)
    ensures Indexed(After(c, lines))
  {
    if lines != [] {
      var last := lines[|lines| - 1];
      SessionIsIndexed(c, lines[..|lines| - 1]);
      if last.Frame? && last.request.InvokeTool? {
        MergeKeepsIndexed(After(c, lines[..|lines| - 1]), c.agent, last.request.tokens);
      }
    }
  }

  // ---------------------------------------------------------------------------
  // When a token still counts
  // ---------------------------------------------------------------------------

  predicate HasId(tokens: seq<Token>, t: TokenId)
  {
    exists i :: 0 <= i < |tokens| && tokens[i].id == t
  }

  /** The line is a call of an available tool that forwards `t`. */
  predicate Carries(c: Config, line: Line, t: TokenId)
  {
    line.Frame? && line.request.InvokeTool? && line.request.tool in c.tools && HasId(line.request.tokens, t)
  }

  predicate Revokes(line: Line, t: TokenId)
  {
    line.Frame? && line.request == RevokeToken(t)
  }

  predicate CarriedBefore(c: Config, lines: seq<Line>, t: TokenId, k: nat)
  {
    exists i :: 0 <= i < k && i < |lines| && Carries(c, lines[i], t)
  }

  /** Some revocation of `t` was read after `t` had first been forwarded. */
  predicate RevokedOnceCarried(c: Config, lines: seq<Line>, t: TokenId, k: nat)
  {
    exists j :: 0 <= j < k && j < |lines| && Revokes(lines[j], t) && CarriedBefore(c, lines, t, j)
  }

  predicate AllLive(tokens: seq<Token>)
  {
    forall k :: 0 <= k < |tokens| ==> !IsRevoked(tokens[k])
  }

  /** The daemon forwards only live tokens. */
  predicate ForwardsLive(lines: seq<Line>)
  {
    forall i :: 0 <= i < |lines| && lines[i].Frame? && lines[i].request.InvokeTool? ==> AllLive(lines[i].request.tokens)
  }

  lemma {:induction false} PrefixForwardsLive(lines: seq<Line>, n: nat)
    requires ForwardsLive(lines) && n <= |lines|
    ensures ForwardsLive(lines[..n])
  {
  }

  predicate Holds(s: Session, t: TokenId)
  {
    t in s.handles && s.handles[t] in s.table.entries
  }

  predicate HoldsRevoked(s: Session, t: TokenId)
  {
    Holds(s, t) && IsRevoked(s.table.entries[s.handles[t]].token)
  }

  lemma {:induction false} HasIdExtends(tokens: seq<Token>, t: TokenId)
    requires tokens != []
    ensures HasId(tokens, t) <==> HasId(tokens[..|tokens| - 1], t) || tokens[|tokens| - 1].id == t
  {
    var init, last := tokens[..|tokens| - 1], tokens[|tokens| - 1];
    if HasId(tokens, t) && last.id != t {
      var i :| 0 <= i < |tokens| && tokens[i].id == t;
      assert init[i].id == t;
    }
    if HasId(init, t) {
      var i :| 0 <= i < |init| && init[i].id == t;
      assert tokens[i].id == t;
    }
  }

  /** Merging adds the tokens it is given, and leaves a token that is held and revoked as it is. */
  lemma {:induction false} MergeAdds(s: Session, agent: AgentId, tokens: seq<Token>, t: TokenId)
    requires Indexed(s)
    ensures Holds(Merge(s, agent, tokens), t) <==> Holds(s, t) || HasId(tokens, t)
    ensures HoldsRevoked(s, t) ==> HoldsRevoked(Merge(s, agent, tokens), t)
    ensures AllLive(tokens) ==> (HoldsRevoked(Merge(s, agent, tokens), t) <==> HoldsRevoked(s, t))
  {
    if tokens != [] {
      var init := tokens[..|tokens| - 1];
      MergeAdds(s, agent, init, t);
      MergeKeepsIndexed(s, agent, init);
      HasIdExtends(tokens, t);
      assert AllLive(tokens) ==> AllLive(init);
    }
  }

  lemma {:induction false} CarriedExtends(c: Config, lines: seq<Line>, t: TokenId)
    requires lines != []
    ensures CarriedBefore(c, lines, t, |lines|) <==>
            CarriedBefore(c, lines[..|lines| - 1], t, |lines| - 1) || Carries(c, lines[|lines| - 1], t)
  {
    var init := lines[..|lines| - 1];
    if CarriedBefore(c, init, t, |init|) {
      var i :| 0 <= i < |init| && Carries(c, init[i], t);
      assert Carries(c, lines[i], t);
    }
    if CarriedBefore(c, lines, t, |lines|) && !Carries(c, lines[|lines| - 1], t) {
      var i :| 0 <= i < |lines| && Carries(c, lines[i], t);
      assert Carries(c, init[i], t);
    }
  }

  lemma {:induction false} CarriedInPrefix(c: Config, lines: seq<Line>, t: TokenId, n: nat, k: nat)
    requires k <= n <= |lines|
    ensures CarriedBefore(c, lines[..n], t, k) <==> CarriedBefore(c, lines, t, k)
  {
    if CarriedBefore(c, lines, t, k) {
      var i :| 0 <= i < k && i < |lines| && Carries(c, lines[i], t);
      assert Carries(c, lines[..n][i], t);
    }
  }

  lemma {:induction false} RevokedInPrefix(c: Config, lines: seq<Line>, t: TokenId, n: nat, k: nat)
    requires k <= n <= |lines|
    ensures RevokedOnceCarried(c, lines[..n], t, k) <==> RevokedOnceCarried(c, lines, t, k)
  {
    if RevokedOnceCarried(c, lines, t, k) {
      var j :| 0 <= j < k && j < |lines| && Revokes(lines[j], t) && CarriedBefore(c, lines, t, j);
      CarriedInPrefix(c, lines, t, n, j);
      assert Revokes(lines[..n][j], t);
    }
    if RevokedOnceCarried(c, lines[..n], t, k) {
      var j :| 0 <= j < k && j < n && Revokes(lines[..n][j], t) && CarriedBefore(c, lines[..n], t, j);
      CarriedInPrefix(c, lines, t, n, j);
      assert Revokes(lines[j], t);
    }
  }

  lemma {:induction false} RevokedExtends(c: Config, lines: seq<Line>, t: TokenId)
    requires lines != []
    ensures RevokedOnceCarried(c, lines, t, |lines|) <==>
            || RevokedOnceCarried(c, lines[..|lines| - 1], t, |lines| - 1)
            || (Revokes(lines[|lines| - 1], t) && CarriedBefore(c, lines[..|lines| - 1], t, |lines| - 1))
  {
    var n := |lines| - 1;
    RevokedInPrefix(c, lines, t, n, n);
    CarriedInPrefix(c, lines, t, n, n);
  }

  /** The table holds `t` exactly when some call forwarded it. */
  lemma {:induction false} SessionHoldsCarried(c: Config, lines: seq<Line>, t: TokenId)
    ensures Holds(After(c, lines), t) <==> CarriedBefore(c, lines, t, |lines|)
  {
    if lines != [] {
      var init, last := lines[..|lines| - 1], lines[|lines| - 1];
      SessionHoldsCarried(c, init, t);
      SessionIsIndexed(c, init);
      CarriedExtends(c, lines, t);
      if last.Frame? && last.request.InvokeTool? {
        MergeAdds(After(c, init), c.agent, last.request.tokens, t);
      }
    }
  }

  /** Of live tokens it holds one revoked exactly when a revocation was read after a call forwarded it. */
  lemma {:induction false} SessionTracksToken(c: Config, lines: seq<Line>, t: TokenId)
    requires ForwardsLive(lines)
    ensures HoldsRevoked(After(c, lines), t) <==> RevokedOnceCarried(c, lines, t, |lines|)
  {
    if lines != [] {
      var init, last := lines[..|lines| - 1], lines[|lines| - 1];
      PrefixForwardsLive(lines, |lines| - 1);
      SessionTracksToken(c, init, t);
      SessionHoldsCarried(c, init, t);
      SessionIsIndexed(c, init);
      RevokedExtends(c, lines, t);
      LineTracksToken(c, After(c, init), last, t);
    }
  }

  /** What one line does to a token: a revocation marks it if it is held, and nothing clears the mark. */
  lemma {:induction false} LineTracksToken(c: Config, s: Session, line: Line, t: TokenId)
    requires Indexed(s)
    ensures HoldsRevoked(s, t) ==> HoldsRevoked(HandleLine(c, s, line), t)
    ensures Revokes(line, t) && Holds(s, t) ==> HoldsRevoked(HandleLine(c, s, line), t)
    ensures (line.Frame? && line.request.InvokeTool? ==> AllLive(line.request.tokens)) ==>
              (HoldsRevoked(HandleLine(c, s, line), t) <==> HoldsRevoked(s, t) || (Revokes(line, t) && Holds(s, t)))
  {
    if line.Frame? && line.request.InvokeTool? {
      MergeAdds(s, c.agent, line.request.tokens, t);
    }
  }

  lemma {:induction false} RevokedStays(c: Config, lines: seq<Line>, j: nat, k: nat, t: TokenId)
    requires j <= k <= |lines| && HoldsRevoked(After(c, lines[..j]), t)
    ensures HoldsRevoked(After(c, lines[..k]), t)
    decreases k - j
  {
    if j < k {
      assert lines[..j + 1][..j] == lines[..j];
      SessionIsIndexed(c, lines[..j]);
      LineTracksToken(c, After(c, lines[..j]), lines[j], t);
      RevokedStays(c, lines, j + 1, k, t);
    }
  }

  /** Would the tool run by this line find `requested` permitted through `t`? */
  predicate AuthorisedThrough(c: Config, lines: seq<Line>, k: nat, t: TokenId, requested: Capability, now: Instant)
    requires k < |lines|
  {
    && Carries(c, lines[k], t)
    && var s := After(c, lines[..k + 1]);
       t in s.handles && HandlePermits(s.table, s.handles[t], c.agent, requested, now)
  }

  /** Once a revocation of `t` is read while the session holds `t`, no later call is authorised by it,
      even if that call's frame forwards `t` again. */
  lemma {:induction false} RevocationIsFinal(c: Config, lines: seq<Line>, j: nat, k: nat, t: TokenId,
                                             requested: Capability, now: Instant)
    requires j < k < |lines|
    requires Revokes(lines[j], t) && Holds(After(c, lines[..j]), t)
    ensures !AuthorisedThrough(c, lines, k, t, requested, now)
  {
    assert lines[..j + 1][..j] == lines[..j];
    SessionIsIndexed(c, lines[..j]);
    LineTracksToken(c, After(c, lines[..j]), lines[j], t);
    RevokedStays(c, lines, j + 1, k + 1, t);
  }

  /** The exact condition: a call that forwards `t` runs with `t` live if and only if no revocation
      of `t` was read between the first call that forwarded it and this one. In particular a
      revocation that overtakes every frame carrying the token is lost. */
  lemma {:induction false} LiveExactlyWhenNotRevokedSinceFirstUse(c: Config, lines: seq<Line>, k: nat, t: TokenId)
    requires ForwardsLive(lines) && k < |lines| && Carries(c, lines[k], t)
    ensures Holds(After(c, lines[..k + 1]), t)
    ensures HoldsRevoked(After(c, lines[..k + 1]), t) <==> RevokedOnceCarried(c, lines, t, k)
  {
    var read := lines[..k + 1];
    PrefixForwardsLive(lines, k + 1);
    assert read[..k] == lines[..k] && read[k] == lines[k];
    SessionHoldsCarried(c, read, t);
    SessionTracksToken(c, read, t);
    CarriedExtends(c, read, t);
    RevokedExtends(c, read, t);
    RevokedInPrefix(c, lines, t, k, k);
  }

  // ---------------------------------------------------------------------------
  // Which token counts
  // ---------------------------------------------------------------------------

  /** The first token of the list with this id. */
  function FirstWith(tokens: seq<Token>, t: TokenId): (r: Option<Token>)
  {
    if tokens == [] then None else if tokens[0].id == t then Some(tokens[0]) else FirstWith(tokens[1..], t)
  }

  /** The token with this id in the first call of an available tool that forwarded one. */
  function FirstForwarded(c: Config, lines: seq<Line>, t: TokenId): (r: Option<Token>)
  {
    if lines == [] then None
    else
      var earlier := FirstForwarded(c, lines[..|lines| - 1], t);
      var last := lines[|lines| - 1];
      if earlier.Some? then earlier
      else if last.Frame? && last.request.InvokeTool? && last.request.tool in c.tools
      then FirstWith(last.request.tokens, t)
      else None
  }

  lemma {:induction false} FirstWithAppend(a: seq<Token>, b: seq<Token>, t: TokenId)
    ensures FirstWith(a + b, t) == if FirstWith(a, t).Some? then FirstWith(a, t) else FirstWith(b, t)
  {
    if a == [] {
      assert a + b == b;
    } else {
      assert (a + b)[1..] == a[1..] + b;
      FirstWithAppend(a[1..], b, t);
    }
  }

  /** The session's entry for `t` is the agent's and holds `token`, but for the mark of a revocation. */
  predicate HoldsAs(s: Session, agent: AgentId, t: TokenId, token: Token)
  {
    && Holds(s, t)
    && var e := s.table.entries[s.handles[t]];
       e.owner == agent && e.token == token.(revokedAt := e.token.revokedAt)
       && (token.revokedAt.Some? ==> e.token.revokedAt == token.revokedAt)
  }

  lemma {:induction false} MergeHoldsFirst(s: Session, agent: AgentId, tokens: seq<Token>, t: TokenId, token: Token)
    requires Indexed(s)
    ensures HoldsAs(s, agent, t, token) ==> HoldsAs(Merge(s, agent, tokens), agent, t, token)
    ensures !Holds(s, t) && FirstWith(tokens, t) == Some(token) ==> HoldsAs(Merge(s, agent, tokens), agent, t, token)
  {
    if tokens != [] {
      var init, last := tokens[..|tokens| - 1], tokens[|tokens| - 1];
      MergeHoldsFirst(s, agent, init, t, token);
      MergeKeepsIndexed(s, agent, init);
      MergeAdds(s, agent, init, t);
      FirstWithIs(init, t);
      assert tokens == init + [last];
      FirstWithAppend(init, [last], t);
    }
  }

  lemma {:induction false} FirstWithIs(tokens: seq<Token>, t: TokenId)
    ensures FirstWith(tokens, t).Some? <==> HasId(tokens, t)
    ensures FirstWith(tokens, t).Some? ==> FirstWith(tokens, t).value in tokens && FirstWith(tokens, t).value.id == t
  {
    if tokens != [] {
      FirstWithIs(tokens[1..], t);
      if HasId(tokens, t) && tokens[0].id != t {
        var i :| 0 <= i < |tokens| && tokens[i].id == t;
        assert tokens[1..][i - 1].id == t;
      }
      if HasId(tokens[1..], t) {
        var i :| 0 <= i < |tokens[1..]| && tokens[1..][i].id == t;
        assert tokens[i + 1].id == t;
      }
    }
  }

  lemma {:induction false} RevokeHoldsAs(s: Session, agent: AgentId, id: TokenId, at: Instant, t: TokenId, token: Token)
    requires HoldsAs(s, agent, t, token)
    ensures HoldsAs(s.(table := RevokeId(s.table, id, at)), agent, t, token)
  {
  }

  /** A session holds, for every id, the token that was forwarded first, with that call's capability, limits and
      lifetime; later tokens with the same id change nothing. */
  lemma {:induction false} SessionHoldsFirst(c: Config, lines: seq<Line>, t: TokenId)
    ensures Holds(After(c, lines), t) <==> FirstForwarded(c, lines, t).Some?
    ensures FirstForwarded(c, lines, t).Some? ==>
              HoldsAs(After(c, lines), c.agent, t, FirstForwarded(c, lines, t).value)
  {
    if lines != [] {
      var init, last := lines[..|lines| - 1], lines[|lines| - 1];
      SessionHoldsFirst(c, init, t);
      SessionIsIndexed(c, init);
      if last.Frame? && last.request.InvokeTool? && last.request.tool in c.tools {
        FirstWithIs(last.request.tokens, t);
        MergeAdds(After(c, init), c.agent, last.request.tokens, t);
        if FirstForwarded(c, lines, t).Some? {
          MergeHoldsFirst(After(c, init), c.agent, last.request.tokens, t, FirstForwarded(c, lines, t).value);
        }
      } else if last.Frame? && last.request.RevokeToken? && FirstForwarded(c, init, t).Some? {
        RevokeHoldsAs(After(c, init), c.agent, last.request.id, last.at, t, FirstForwarded(c, init, t).value);
      }
    }
  }

  lemma {:induction false} FirstForwardedIsLive(c: Config, lines: seq<Line>, t: TokenId)
    requires ForwardsLive(lines) && FirstForwarded(c, lines, t).Some?
    ensures FirstForwarded(c, lines, t).value.revokedAt == None
  {
    var init, last := lines[..|lines| - 1], lines[|lines| - 1];
    PrefixForwardsLive(lines, |lines| - 1);
    if FirstForwarded(c, init, t).Some? {
      FirstForwardedIsLive(c, init, t);
    } else {
      FirstWithIs(last.request.tokens, t);
      var k :| 0 <= k < |last.request.tokens| && last.request.tokens[k] == FirstForwarded(c, lines, t).value;
      assert !IsRevoked(last.request.tokens[k]);
    }
  }

  /** A call that forwards `t` is authorised through it exactly when no revocation of `t` was read since it was first
      forwarded, and the token forwarded then permits the request. */
  lemma {:induction false} AuthorisedExactly(c: Config, lines: seq<Line>, k: nat, t: TokenId, requested: Capability,
                                             now: Instant)
    requires ForwardsLive(lines) && k < |lines| && Carries(c, lines[k], t)
    ensures FirstForwarded(c, lines[..k + 1], t).Some?
    ensures AuthorisedThrough(c, lines, k, t, requested, now) <==>
            && !RevokedOnceCarried(c, lines, t, k)
            && Permits(FirstForwarded(c, lines[..k + 1], t).value, requested, now)
  {
    var read := lines[..k + 1];
    LiveExactlyWhenNotRevokedSinceFirstUse(c, lines, k, t);
    SessionHoldsFirst(c, read, t);
    PrefixForwardsLive(lines, k + 1);
    FirstForwardedIsLive(c, read, t);
    var e := After(c, read).table.entries[After(c, read).handles[t]];
    PermitsExactly(e.token, requested, now);
    PermitsExactly(FirstForwarded(c, read, t).value, requested, now);
  }
}
