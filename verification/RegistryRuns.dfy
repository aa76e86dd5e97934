/** Every interleaving of registry operations by any number of threads.

    A single entry is the unit of atomicity: `revoke` and `revoke_all_for_agent` visit entries one at
    a time, in any order, and publish afterwards, so other operations run in between.
 */
module RegistryRuns {
  import opened Options
  import opened Capabilities
  import opened CapabilityRegistries

  type ThreadId = nat

  datatype Target = ById(id: TokenId) | ByAgent(agent: AgentId)

  /** A revocation in progress and the ids it has still to publish. */
  datatype Call =
    | Scanning(target: Target, owed: seq<TokenId>)
    | Publishing(owed: seq<TokenId>)

  /** A narrowing that has read the parent's token and not yet inserted the child's; `root` as below. */
  datatype Draft = Draft(child: AgentId, token: Token, root: Token)

  /** The rest records history: ids ever inserted, ids some revocation flipped, tokens that were issued rather than
      narrowed, and for every handle the issued token its own was narrowed from, in any number of steps. */
  datatype State = State(
    table: Table,
    calls: map<ThreadId, Call>,
    published: seq<TokenId>,
    drafts: map<ThreadId, Draft>,
    usedIds: set<TokenId>,
    flipped: set<TokenId>,
    issued: set<Token>,
    roots: map<Handle, Token>)

  datatype Action =
    | Insert(agent: AgentId, token: Token)
    | ReadParent(thread: ThreadId, parent: Handle, parentAgent: AgentId, child: AgentId, delegation: Delegation)
    | InsertChild(thread: ThreadId)
    | Authorize(handle: Handle, agent: AgentId, requested: Capability, now: Instant)
    | Begin(thread: ThreadId, target: Target)
    | Visit(thread: ThreadId, handle: Handle, now: Instant)
    | EndScan(thread: ThreadId)
    | Publish(thread: ThreadId)
    | Return(thread: ThreadId)
    | Remove(handle: Handle)

  const INITIAL: State := State(Table(map[], 0), map[], [], map[], {}, {}, {}, map[])

  predicate Selects(target: Target, e: Entry)
  {
    !IsRevoked(e.token) && match target case ById(id) => e.token.id == id case ByAgent(a) => e.owner == a
  }

  /** Token ids are fresh when a token enters the table, whether issued or narrowed. A narrowing reads its parent and
      inserts the child at two moments. */
  predicate Enabled(s: State, a: Action)
  {
    match a
    case Insert(_, token) => token.id !in s.usedIds
    case ReadParent(t, _, _, _, _) => t !in s.drafts
    case InsertChild(t) => t in s.drafts && s.drafts[t].token.id !in s.usedIds
    case Authorize(_, _, _, _) => true
    case Begin(t, _) => t !in s.calls
    case Visit(t, h, _) => t in s.calls && s.calls[t].Scanning? && h in s.table.entries
    case EndScan(t) => t in s.calls && s.calls[t].Scanning?
    case Publish(t) => t in s.calls && s.calls[t].Publishing? && s.calls[t].owed != []
    case Return(t) => t in s.calls && s.calls[t].Publishing? && s.calls[t].owed == []
    case Remove(h) => h in s.table.entries
  }

  function VisitEntry(s: State, t: ThreadId, h: Handle, now: Instant): (r: State)
    requires Enabled(s, Visit(t, h, now))
  {
    var call := s.calls[t];
    var e := s.table.entries[h];
    if !Selects(call.target, e) then s
    else
      var owed := if call.target.ById? && call.owed != [] then call.owed else call.owed + [e.token.id];
      s.(table := RevokeEntry(s.table, h, now),
         calls := s.calls[t := call.(owed := owed)],
         flipped := s.flipped + {e.token.id})
  }

  /** Only the owner narrows, and only to what the token's own check admits. */
  function Drafted(s: State, t: ThreadId, parent: Handle, parentAgent: AgentId, child: AgentId,
                   d: Delegation): (r: State)
  {
    if parent !in s.table.entries || s.table.entries[parent].owner != parentAgent || parent !in s.roots then s
    else
      var narrowed := Delegate(s.table.entries[parent].token, d);
      if narrowed.None? then s
      else s.(drafts := s.drafts[t := Draft(child, narrowed.value, s.roots[parent])])
  }

  function Next(s: State, a: Action): (r: State)
  {
    if !Enabled(s, a) then s
    else
      match a
      case Insert(agent, token) =>
        s.(table := InsertInto(s.table, agent, token), usedIds := s.usedIds + {token.id},
           issued := s.issued + {token}, roots := s.roots[s.table.nextId := token])
      case ReadParent(t, parent, parentAgent, child, d) => Drafted(s, t, parent, parentAgent, child, d)
      case InsertChild(t) =>
        var draft := s.drafts[t];
        s.(table := InsertInto(s.table, draft.child, draft.token), usedIds := s.usedIds + {draft.token.id},
           drafts := s.drafts - {t}, roots := s.roots[s.table.nextId := draft.root])
      case Authorize(h, agent, requested, now) => s.(table := Charge(s.table, h, agent, requested, now))
      case Begin(t, target) => s.(calls := s.calls[t := Scanning(target, [])])
      case Visit(t, h, now) => VisitEntry(s, t, h, now)
      case EndScan(t) => s.(calls := s.calls[t := Publishing(s.calls[t].owed)])
      case Publish(t) =>
        var owed := s.calls[t].owed;
        s.(calls := s.calls[t := Publishing(owed[1..])], published := s.published + [owed[0]])
      case Return(t) => s.(calls := s.calls - {t})
      case Remove(h) => s.(table := s.table.(entries := s.table.entries - {h}))
  }

  function Run(s: State, actions: seq<Action>): (r: State)
    decreases |actions|
  {
    if actions == [] then s else Run(Next(s, actions[0]), actions[1..])
  }

  // ---------------------------------------------------------------------------
  // Metered authorisation
  // ---------------------------------------------------------------------------

  predicate Allows(s: State, a: Action, h: Handle)
  {
    a.Authorize? && a.handle == h && Decide(s.table, h, a.agent, a.requested, a.now).Allowed?
  }

  /** How many calls on `h` succeed along the run. */
  function Allowances(s: State, actions: seq<Action>, h: Handle): (n: nat)
    decreases |actions|
  {
    if actions == [] then 0
    else (if Allows(s, actions[0], h) then 1 else 0) + Allowances(Next(s, actions[0]), actions[1..], h)
  }

  /** Invocations left on a handle: none once its entry is gone or revoked. */
  function Remaining(t: Table, h: Handle): (n: Option<nat>)
  {
    if h !in t.entries || IsRevoked(t.entries[h].token) then Some(0)
    else
      var token := t.entries[h].token;
      match token.constraints.maxInvocations
      case None => None
      case Some(max) => Some(if token.invocationCount < max then max - token.invocationCount else 0)
  }

  lemma {:induction false} StepSpendsRemaining(s: State, a: Action, h: Handle)
    requires HandlesIssued(s.table) && h < s.table.nextId
    ensures HandlesIssued(Next(s, a).table) && h < Next(s, a).table.nextId
    ensures Remaining(s.table, h).Some? ==>
              && Remaining(Next(s, a).table, h).Some?
              && Remaining(Next(s, a).table, h).value + (if Allows(s, a, h) then 1 else 0)
                 <= Remaining(s.table, h).value
  {
  }

  /** In every interleaving, successes on a handle never exceed what its token had left: the limit
      minus the count at insertion, and nothing after revocation or removal. */
  lemma {:induction false} AllowancesAreMetered(s: State, actions: seq<Action>, h: Handle)
    requires HandlesIssued(s.table) && h < s.table.nextId && Remaining(s.table, h).Some?
    ensures Allowances(s, actions, h) <= Remaining(s.table, h).value
    decreases |actions|
  {
    if actions != [] {
      StepSpendsRemaining(s, actions[0], h);
      AllowancesAreMetered(Next(s, actions[0]), actions[1..], h);
    }
  }

  /** The same call again and again. */
  function Repeated(a: Action, n: nat): (r: seq<Action>)
  {
    if n == 0 then [] else [a] + Repeated(a, n - 1)
  }

  /** How many of `n` calls find an allowance left. */
  function Served(left: Option<nat>, n: nat): (r: nat)
  {
    if left.None? || n <= left.value then n else left.value
  }

  lemma {:induction false} AllowancesOfFirst(s: State, a: Action, rest: seq<Action>, h: Handle)
    ensures Allowances(s, [a] + rest, h) == (if Allows(s, a, h) then 1 else 0) + Allowances(Next(s, a), rest, h)
  {
    assert ([a] + rest)[1..] == rest;
  }

  /** The owner of `h` asks for something its token grants, while it is live. */
  predicate Asks(s: State, a: Action, h: Handle)
  {
    && a.Authorize? && a.handle == h && h in s.table.entries && s.table.entries[h].owner == a.agent
    && var token := s.table.entries[h].token;
       Matches(token.capability, a.requested) && InLifetime(token, a.now) && token.revokedAt == None
  }

  lemma {:induction false} ServeOne(s: State, a: Action, h: Handle)
    requires Asks(s, a, h)
    ensures Allows(s, a, h) <==> Remaining(s.table, h) != Some(0)
    ensures Asks(Next(s, a), a, h)
    ensures forall n: nat ::
              Served(Remaining(s.table, h), n + 1)
              == (if Allows(s, a, h) then 1 else 0) + Served(Remaining(Next(s, a).table, h), n)
  {
  }

  /** The metering is tight: its owner, asking again and again for what the token grants, is served until the limit is
      reached, and always without one. */
  lemma {:induction false} AllowanceIsServedInFull(s: State, a: Action, h: Handle, n: nat)
    requires Asks(s, a, h)
    ensures Allowances(s, Repeated(a, n), h) == Served(Remaining(s.table, h), n)
    decreases n
  {
    if n > 0 {
      AllowancesOfFirst(s, a, Repeated(a, n - 1), h);
      ServeOne(s, a, h);
      AllowanceIsServedInFull(Next(s, a), a, h, n - 1);
    }
  }

  // ---------------------------------------------------------------------------
  // Handles and owners are forever
  // ---------------------------------------------------------------------------

  /** What an entry may become: its count may rise and it may be revoked, nothing else. */
  predicate Evolves(e: Entry, f: Entry)
  {
    && f.owner == e.owner
    && f.token == e.token.(invocationCount := f.token.invocationCount, revokedAt := f.token.revokedAt)
    && e.token.invocationCount <= f.token.invocationCount
    && (IsRevoked(e.token) ==>
          f.token.revokedAt == e.token.revokedAt && f.token.invocationCount == e.token.invocationCount)
  }

  predicate TableEvolves(t: Table, u: Table)
  {
    && t.nextId <= u.nextId && HandlesIssued(u)
    && (forall h :: h in u.entries && h < t.nextId ==> h in t.entries && Evolves(t.entries[h], u.entries[h]))
  }

  /** No run reuses a handle, changes an owner or revives a revoked token. */
  lemma {:induction false} RunEvolves(s: State, actions: seq<Action>)
    requires HandlesIssued(s.table)
    ensures TableEvolves(s.table, Run(s, actions).table)
    decreases |actions|
  {
    if actions != [] {
      var next := Next(s, actions[0]);
      StepEvolves(s, actions[0]);
      RunEvolves(next, actions[1..]);
      EvolutionIsTransitive(s.table, next.table, Run(next, actions[1..]).table);
    }
  }

  /** A step that adds no entry changes some in place, or removes some. */
  predicate ChangesInPlace(t: Table, u: Table)
  {
    && u.nextId == t.nextId
    && forall h :: h in u.entries ==> h in t.entries && Evolves(t.entries[h], u.entries[h])
  }

  predicate Adds(a: Action)
  {
    a.Insert? || a.InsertChild?
  }

  lemma {:induction false} RevokeEvolves(t: Table, h: Handle, now: Instant)
    requires h in t.entries && !IsRevoked(t.entries[h].token)
    ensures ChangesInPlace(t, RevokeEntry(t, h, now))
  {
  }

  lemma {:induction false} StepChangesInPlace(s: State, a: Action)
    requires !Adds(a)
    ensures ChangesInPlace(s.table, Next(s, a).table)
  {
    if Enabled(s, a) && a.Visit? && Selects(s.calls[a.thread].target, s.table.entries[a.handle]) {
      RevokeEvolves(s.table, a.handle, a.now);
    }
  }

  lemma {:induction false} StepEvolves(s: State, a: Action)
    requires HandlesIssued(s.table)
    ensures TableEvolves(s.table, Next(s, a).table)
  {
    if !Adds(a) {
      StepChangesInPlace(s, a);
    }
  }

  lemma {:induction false} EvolutionIsTransitive(t: Table, u: Table, v: Table)
    requires TableEvolves(t, u) && TableEvolves(u, v)
    ensures TableEvolves(t, v)
  {
    forall h | h in v.entries && h < t.nextId
      ensures h in t.entries && Evolves(t.entries[h], v.entries[h])
    {
      assert h in u.entries;
    }
  }

  /** Whatever happened in between, a call by an agent that never owned the handle is refused and
      changes nothing. */
  lemma {:induction false} ForeignCallsChangeNothing(s: State, actions: seq<Action>, a: Action)
    requires HandlesIssued(s.table) && a.Authorize?
    requires a.handle in s.table.entries && s.table.entries[a.handle].owner != a.agent
    ensures !Allows(Run(s, actions), a, a.handle) && Next(Run(s, actions), a) == Run(s, actions)
  {
    RunEvolves(s, actions);
  }

  /** What a revocation is after. */
  predicate IsMeant(target: Target, e: Entry)
  {
    target == ById(e.token.id) || target == ByAgent(e.owner)
  }

  /** A scan revokes an entry it visits exactly when it is after that entry and the entry is live; it then owes the
      id's publication. No other entry changes. */
  lemma {:induction false} VisitRevokesExactly(s: State, t: ThreadId, h: Handle, now: Instant)
    requires Enabled(s, Visit(t, h, now))
    ensures var r, e := Next(s, Visit(t, h, now)), s.table.entries[h];
            var meant := IsMeant(s.calls[t].target, e) && e.token.revokedAt == None;
            && r.table.entries
               == (if meant then s.table.entries[h := e.(token := e.token.(revokedAt := Some(now)))]
                   else s.table.entries)
            && r.flipped == s.flipped + (if meant then {e.token.id} else {})
            && (meant && (s.calls[t].target.ById? ==> s.calls[t].owed == []) ==>
                  r.calls[t].owed == s.calls[t].owed + [e.token.id])
  {
  }

  /** Whatever happens afterwards, an entry that a scan was after and visited authorises nothing any more. */
  lemma {:induction false} VisitedIsSpent(s: State, t: ThreadId, h: Handle, now: Instant, actions: seq<Action>)
    requires HandlesIssued(s.table) && Enabled(s, Visit(t, h, now)) && IsMeant(s.calls[t].target, s.table.entries[h])
    ensures Allowances(Next(s, Visit(t, h, now)), actions, h) == 0
  {
    VisitRevokesExactly(s, t, h, now);
    AllowancesAreMetered(Next(s, Visit(t, h, now)), actions, h);
  }

  /** The same for an entry that was removed. */
  lemma {:induction false} RemovedIsSpent(s: State, h: Handle, actions: seq<Action>)
    requires HandlesIssued(s.table) && h in s.table.entries
    ensures Allowances(Next(s, Remove(h)), actions, h) == 0
  {
    AllowancesAreMetered(Next(s, Remove(h)), actions, h);
  }

  /** Only the owner of a handle narrows it. */
  lemma {:induction false} OthersDoNotNarrow(s: State, t: ThreadId, parent: Handle, parentAgent: AgentId,
                                             child: AgentId, d: Delegation)
    requires parent !in s.table.entries || s.table.entries[parent].owner != parentAgent
    ensures Next(s, ReadParent(t, parent, parentAgent, child, d)) == s
  {
  }

  /** The owner's narrowing, undisturbed, gives the child a handle of its own for the narrowed token, exactly when the
      parent's token admits it. */
  lemma {:induction false} OwnerNarrows(s: State, t: ThreadId, parent: Handle, child: AgentId, d: Delegation)
    requires HandlesIssued(s.table) && t !in s.drafts && d.freshId !in s.usedIds
    requires parent in s.table.entries && parent in s.roots
    ensures var e := s.table.entries[parent];
            var r := Next(Next(s, ReadParent(t, parent, e.owner, child, d)), InsertChild(t));
            r.table == if d.Plain? || Matches(e.token.capability, d.capability)
                       then InsertInto(s.table, child, Delegate(e.token, d).value) else s.table
  {
    var e := s.table.entries[parent];
    if Delegate(e.token, d).Some? {
      assert Delegate(e.token, d).value.id == d.freshId;
    }
  }

  // ---------------------------------------------------------------------------
  // Publication exactly once
  // ---------------------------------------------------------------------------

  predicate Distinct(xs: seq<TokenId>)
  {
    forall i, j :: 0 <= i < j < |xs| ==> xs[i] != xs[j]
  }

  predicate IdsUnique(s: State)
  {
    && HandlesIssued(s.table)
    && (forall h :: h in s.table.entries ==> s.table.entries[h].token.id in s.usedIds)
    && (forall h, k | h in s.table.entries && k in s.table.entries ::
          s.table.entries[h].token.id == s.table.entries[k].token.id ==> h == k)
  }

  predicate FlippedAreRevoked(s: State)
  {
    && s.flipped <= s.usedIds
    && (forall h :: h in s.table.entries && s.table.entries[h].token.id in s.flipped ==>
          IsRevoked(s.table.entries[h].token))
  }

  predicate DebtsDisjoint(calls: map<ThreadId, Call>)
  {
    && (forall t :: t in calls ==> Distinct(calls[t].owed))
    && (forall t, u, x :: t in calls && u in calls && x in calls[t].owed && x in calls[u].owed ==> t == u)
  }

  predicate DebtsOpen(calls: map<ThreadId, Call>, published: seq<TokenId>, flipped: set<TokenId>)
  {
    forall t, x :: t in calls && x in calls[t].owed ==> x in flipped && x !in published
  }

  predicate AllPlaced(calls: map<ThreadId, Call>, published: seq<TokenId>, flipped: set<TokenId>)
  {
    && (forall x :: x in published ==> x in flipped)
    && (forall x :: x in flipped ==> x in published || OwedBySome(calls, x))
  }

  /** Every flipped id is in exactly one place: published, or owed by one call. */
  predicate OnePlacePerId(calls: map<ThreadId, Call>, published: seq<TokenId>, flipped: set<TokenId>)
  {
    && Distinct(published) && DebtsDisjoint(calls)
    && DebtsOpen(calls, published, flipped) && AllPlaced(calls, published, flipped)
  }

  predicate OwedBySome(calls: map<ThreadId, Call>, x: TokenId)
  {
    exists t :: t in calls && x in calls[t].owed
  }

  predicate OwedByIdIsTarget(calls: map<ThreadId, Call>)
  {
    forall t, x | t in calls && x in calls[t].owed ::
      calls[t].Scanning? && calls[t].target.ById? ==> x == calls[t].target.id
  }

  predicate Inv(s: State)
  {
    IdsUnique(s) && FlippedAreRevoked(s) && OnePlacePerId(s.calls, s.published, s.flipped) && OwedByIdIsTarget(s.calls)
  }

  lemma {:induction false} OweOneMore(calls: map<ThreadId, Call>, published: seq<TokenId>, flipped: set<TokenId>,
                                      t: ThreadId, id: TokenId)
    requires OnePlacePerId(calls, published, flipped) && t in calls && id !in flipped
    ensures OnePlacePerId(calls[t := calls[t].(owed := calls[t].owed + [id])], published, flipped + {id})
  {
    var after := calls[t := calls[t].(owed := calls[t].owed + [id])];
    assert id in after[t].owed;
    forall x | x in flipped && x !in published
      ensures OwedBySome(after, x)
    {
      var u :| u in calls && x in calls[u].owed;
      assert x in after[u].owed;
    }
  }

  lemma {:induction false} PayFirst(calls: map<ThreadId, Call>, t: ThreadId)
    requires DebtsDisjoint(calls) && t in calls && calls[t].owed != []
    ensures DebtsDisjoint(calls[t := Publishing(calls[t].owed[1..])])
    ensures forall u, x :: u in calls && x in calls[t := Publishing(calls[t].owed[1..])][u].owed ==>
                             x in calls[u].owed && x != calls[t].owed[0]
    ensures forall u, x :: u in calls && x in calls[u].owed && x != calls[t].owed[0] ==>
                             x in calls[t := Publishing(calls[t].owed[1..])][u].owed
  {
    var owed := calls[t].owed;
    assert owed[0] in owed;
    assert forall x :: x in owed[1..] ==> x in owed && x != owed[0];
    assert forall x :: x in owed ==> x == owed[0] || x in owed[1..];
  }

  lemma {:induction false} PublishOne(calls: map<ThreadId, Call>, published: seq<TokenId>, flipped: set<TokenId>,
                                      t: ThreadId)
    requires OnePlacePerId(calls, published, flipped) && t in calls && calls[t].owed != []
    ensures OnePlacePerId(calls[t := Publishing(calls[t].owed[1..])], published + [calls[t].owed[0]], flipped)
  {
    var id := calls[t].owed[0];
    var after := calls[t := Publishing(calls[t].owed[1..])];
    PayFirst(calls, t);
    assert id in calls[t].owed;
    assert forall i :: 0 <= i < |published| ==> published[i] in published;
    forall x | x in flipped && x !in published && x != id
      ensures OwedBySome(after, x)
    {
      var u :| u in calls && x in calls[u].owed;
      assert x in after[u].owed;
    }
  }

  lemma {:induction false} SameDebts(calls: map<ThreadId, Call>, after: map<ThreadId, Call>, published: seq<TokenId>,
                                     flipped: set<TokenId>)
    requires OnePlacePerId(calls, published, flipped)
    requires forall t :: t in after ==> after[t].owed == if t in calls then calls[t].owed else []
    requires forall t :: t in calls && calls[t].owed != [] ==> t in after
    ensures OnePlacePerId(after, published, flipped)
  {
    forall x | x in flipped && x !in published
      ensures OwedBySome(after, x)
    {
      var u :| u in calls && x in calls[u].owed;
      assert x in after[u].owed;
    }
  }

  /** Ids stay unique and flipped ids revoked while entries only change in place. */
  lemma {:induction false} IdsStay(s: State, r: State)
    requires IdsUnique(s) && FlippedAreRevoked(s) && ChangesInPlace(s.table, r.table) && r.usedIds == s.usedIds
    requires r.flipped <= s.usedIds
    requires forall h :: h in r.table.entries && r.table.entries[h].token.id in r.flipped ==>
               IsRevoked(r.table.entries[h].token)
    ensures IdsUnique(r) && FlippedAreRevoked(r)
  {
  }

  lemma {:induction false} InsertKeepsIds(s: State, r: State, agent: AgentId, token: Token)
    requires IdsUnique(s) && FlippedAreRevoked(s) && token.id !in s.usedIds
    requires r.table == InsertInto(s.table, agent, token)
    requires r.usedIds == s.usedIds + {token.id} && r.flipped == s.flipped
    ensures IdsUnique(r) && FlippedAreRevoked(r)
  {
  }

  lemma {:induction false} VisitKeepsIds(s: State, t: ThreadId, h: Handle, now: Instant)
    requires IdsUnique(s) && FlippedAreRevoked(s) && Enabled(s, Visit(t, h, now))
    ensures IdsUnique(VisitEntry(s, t, h, now)) && FlippedAreRevoked(VisitEntry(s, t, h, now))
  {
    if Selects(s.calls[t].target, s.table.entries[h]) {
      RevokeEvolves(s.table, h, now);
      IdsStay(s, VisitEntry(s, t, h, now));
    }
  }

  lemma {:induction false} VisitKeepsInv(s: State, t: ThreadId, h: Handle, now: Instant)
    requires Inv(s) && Enabled(s, Visit(t, h, now))
    ensures Inv(VisitEntry(s, t, h, now))
  {
    var call, e := s.calls[t], s.table.entries[h];
    VisitKeepsIds(s, t, h, now);
    if Selects(call.target, e) {
      var id := e.token.id;
      assert call.owed == [] || call.owed[0] in call.owed;
      assert id !in s.flipped;
      assert call.target.ById? ==> call.owed == [];
      OweOneMore(s.calls, s.published, s.flipped, t, id);
    }
  }

  lemma {:induction false} StepKeepsIds(s: State, a: Action)
    requires IdsUnique(s) && FlippedAreRevoked(s)
    ensures IdsUnique(Next(s, a)) && FlippedAreRevoked(Next(s, a))
  {
    if Enabled(s, a) {
      match a
      case Insert(agent, token) => InsertKeepsIds(s, Next(s, a), agent, token);
      case InsertChild(t) => InsertKeepsIds(s, Next(s, a), s.drafts[t].child, s.drafts[t].token);
      case Visit(t, h, now) => VisitKeepsIds(s, t, h, now);
      case _ =>
        StepChangesInPlace(s, a);
        IdsStay(s, Next(s, a));
    }
  }

  lemma {:induction false} StepKeepsInv(s: State, a: Action)
    requires Inv(s)
    ensures Inv(Next(s, a))
  {
    StepKeepsIds(s, a);
    if Enabled(s, a) {
      match a
      case Visit(t, h, now) => VisitKeepsInv(s, t, h, now);
      case Publish(t) => PublishOne(s.calls, s.published, s.flipped, t);
      case Begin(_, _) => SameDebts(s.calls, Next(s, a).calls, s.published, s.flipped);
      case EndScan(_) => SameDebts(s.calls, Next(s, a).calls, s.published, s.flipped);
      case Return(_) => SameDebts(s.calls, Next(s, a).calls, s.published, s.flipped);
      case _ =>
    }
  }

  lemma {:induction false} RunKeepsInv(s: State, actions: seq<Action>)
    requires Inv(s)
    ensures Inv(Run(s, actions))
    decreases |actions|
  {
    if actions != [] {
      StepKeepsInv(s, actions[0]);
      RunKeepsInv(Next(s, actions[0]), actions[1..]);
    }
  }

  /** In every run no id is published twice, and once no revocation is in progress the published
      ids are exactly those that were revoked. */
  lemma {:induction false} PublishedExactlyOnce(actions: seq<Action>)
    ensures Distinct(Run(INITIAL, actions).published)
    ensures Run(INITIAL, actions).calls == map[] ==>
              forall x :: x in Run(INITIAL, actions).published <==> x in Run(INITIAL, actions).flipped
  {
    RunKeepsInv(INITIAL, actions);
  }

  // ---------------------------------------------------------------------------
  // Delegation under interleaving
  // ---------------------------------------------------------------------------

  /** The token grants at most what the issued one grants, under at most its limits, for its lifetime. */
  ghost predicate WithinRoot(root: Token, token: Token)
  {
    && Attenuates(root.capability, token.capability) && WellFormed(token.capability)
    && AtMost(token.constraints.maxInvocations, root.constraints.maxInvocations)
    && AtMost(token.constraints.rateLimit, root.constraints.rateLimit)
    && token.expiresAt == root.expiresAt
  }

  ghost predicate EntryRooted(s: State, h: Handle)
    requires h in s.table.entries
  {
    h in s.roots && s.roots[h] in s.issued && WithinRoot(s.roots[h], s.table.entries[h].token)
  }

  ghost predicate DraftRooted(s: State, t: ThreadId)
    requires t in s.drafts
  {
    s.drafts[t].root in s.issued && WithinRoot(s.drafts[t].root, s.drafts[t].token)
  }

  ghost predicate Rooted(s: State)
  {
    && HandlesIssued(s.table)
    && (forall h :: h in s.table.entries ==> EntryRooted(s, h))
    && (forall t :: t in s.drafts ==> DraftRooted(s, t))
  }

  predicate WellFormedAction(a: Action)
  {
    match a
    case Insert(_, token) => WellFormed(token.capability)
    case ReadParent(_, _, _, _, d) => d.Specific? ==> WellFormed(d.capability)
    case _ => true
  }

  lemma {:induction false} DelegateWithinRoot(root: Token, token: Token, d: Delegation)
    requires WithinRoot(root, token) && (d.Specific? ==> WellFormed(d.capability)) && Delegate(token, d).Some?
    ensures WithinRoot(root, Delegate(token, d).value)
  {
    var child := Delegate(token, d).value;
    if d.Specific? {
      MatchImpliesAttenuation(token.capability, child.capability);
    }
    var a, b, c := child.constraints, token.constraints, root.constraints;
    AtMostIsTransitive(a.maxInvocations, b.maxInvocations, c.maxInvocations);
    AtMostIsTransitive(a.rateLimit, b.rateLimit, c.rateLimit);
  }

  lemma {:induction false} AtMostIsTransitive(a: Option<nat>, b: Option<nat>, c: Option<nat>)
    requires AtMost(a, b) && AtMost(b, c)
    ensures AtMost(a, c)
  {
  }

  lemma {:induction false} EvolvedWithinRoot(root: Token, e: Entry, f: Entry)
    requires WithinRoot(root, e.token) && Evolves(e, f)
    ensures WithinRoot(root, f.token)
  {
  }

  /** Steps that only change entries in place, or remove them. */
  lemma {:induction false} StayRooted(s: State, r: State)
    requires Rooted(s) && r.roots == s.roots && r.issued == s.issued && r.drafts == s.drafts
    requires ChangesInPlace(s.table, r.table)
    ensures Rooted(r)
  {
    forall h | h in r.table.entries
      ensures EntryRooted(r, h)
    {
      assert EntryRooted(s, h);
      EvolvedWithinRoot(s.roots[h], s.table.entries[h], r.table.entries[h]);
    }
    forall t | t in r.drafts
      ensures DraftRooted(r, t)
    {
      assert DraftRooted(s, t);
    }
  }

  /** Steps that add one entry with its root. */
  lemma {:induction false} NewEntryRooted(s: State, r: State, agent: AgentId, token: Token, root: Token)
    requires Rooted(s) && WithinRoot(root, token) && root in r.issued && s.issued <= r.issued
    requires r.table == InsertInto(s.table, agent, token) && r.roots == s.roots[s.table.nextId := root]
    requires forall t :: t in r.drafts ==> t in s.drafts && r.drafts[t] == s.drafts[t]
    ensures Rooted(r)
  {
    forall h | h in r.table.entries
      ensures EntryRooted(r, h)
    {
      assert h in s.table.entries ==> EntryRooted(s, h);
    }
    forall t | t in r.drafts
      ensures DraftRooted(r, t)
    {
      assert DraftRooted(s, t);
    }
  }

  lemma {:induction false} DraftKeepsRooted(s: State, t: ThreadId, parent: Handle, parentAgent: AgentId, child: AgentId,
                                            d: Delegation)
    requires Rooted(s) && (d.Specific? ==> WellFormed(d.capability))
    ensures Rooted(Drafted(s, t, parent, parentAgent, child, d))
  {
    var r := Drafted(s, t, parent, parentAgent, child, d);
    if r != s {
      assert EntryRooted(s, parent);
      DelegateWithinRoot(s.roots[parent], s.table.entries[parent].token, d);
      forall h | h in r.table.entries
        ensures EntryRooted(r, h)
      {
        assert EntryRooted(s, h);
      }
      forall u | u in r.drafts
        ensures DraftRooted(r, u)
      {
        assert u in s.drafts ==> DraftRooted(s, u);
      }
    }
  }

  lemma {:induction false} StepKeepsRooted(s: State, a: Action)
    requires Rooted(s) && WellFormedAction(a)
    ensures Rooted(Next(s, a))
  {
    if Enabled(s, a) {
      match a
      case Insert(agent, token) => NewEntryRooted(s, Next(s, a), agent, token, token);
      case InsertChild(t) =>
        assert DraftRooted(s, t);
        NewEntryRooted(s, Next(s, a), s.drafts[t].child, s.drafts[t].token, s.drafts[t].root);
      case ReadParent(t, parent, parentAgent, child, d) => DraftKeepsRooted(s, t, parent, parentAgent, child, d);
      case _ =>
        StepChangesInPlace(s, a);
        StayRooted(s, Next(s, a));
    }
  }

  lemma {:induction false} RunKeepsRooted(s: State, actions: seq<Action>)
    requires Rooted(s) && forall i :: 0 <= i < |actions| ==> WellFormedAction(actions[i])
    ensures Rooted(Run(s, actions))
    decreases |actions|
  {
    if actions != [] {
      StepKeepsRooted(s, actions[0]);
      RunKeepsRooted(Next(s, actions[0]), actions[1..]);
    }
  }

  /** In every interleaving of issuing, narrowing, using, revoking and removing: every entry goes back to an issued
      token and stays within it, so what a handle permits, the issued token's grant and lifetime allowed. */
  lemma {:induction false} DelegationOnlyAttenuatesInRuns(actions: seq<Action>, h: Handle, requested: Capability,
                                                          now: Instant)
    requires forall i :: 0 <= i < |actions| ==> WellFormedAction(actions[i])
    ensures var s := Run(INITIAL, actions);
            h in s.table.entries ==>
              && h in s.roots && s.roots[h] in s.issued && WithinRoot(s.roots[h], s.table.entries[h].token)
              && (Permits(s.table.entries[h].token, requested, now) ==>
                    Matches(s.roots[h].capability, requested) && InLifetime(s.roots[h], now))
  {
    RunKeepsRooted(INITIAL, actions);
    var s := Run(INITIAL, actions);
    if h in s.table.entries {
      assert EntryRooted(s, h);
    }
  }
}
