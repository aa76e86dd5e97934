/** The runtime-owned table of issued tokens. Agents hold handles; only the registry sees tokens. */
module CapabilityRegistries {
  import opened Options
  import opened Capabilities

  type Handle = nat

  datatype Entry = Entry(owner: AgentId, token: Token)

  /** The value of a registry: what its methods are specified against. */
  datatype Table = Table(entries: map<Handle, Entry>, nextId: nat)

  datatype Denied = UnknownHandle | WrongAgent | NotPermitted | Exhausted | Revoked

  datatype Decision = Allowed | Refused(reason: Denied)

  /** Handles are indices into the table, issued in order. */
  predicate HandlesIssued(t: Table)
  {
    forall h :: h in t.entries ==> h < t.nextId
  }

  function InsertInto(t: Table, agent: AgentId, token: Token): (r: Table)
  {
    Table(t.entries[t.nextId := Entry(agent, token)], t.nextId + 1)
  }

  predicate HandlePermits(t: Table, h: Handle, agent: AgentId, requested: Capability, now: Instant)
  {
    h in t.entries && t.entries[h].owner == agent && Permits(t.entries[h].token, requested, now)
  }

  function Decide(t: Table, h: Handle, agent: AgentId, requested: Capability, now: Instant): (d: Decision)
    ensures d.Allowed? <==> HandlePermits(t, h, agent, requested, now)
  {
    if h !in t.entries then Refused(UnknownHandle)
    else if t.entries[h].owner != agent then Refused(WrongAgent)
    else
      var token := t.entries[h].token;
      if Permits(token, requested, now) then Allowed
      else if IsRevoked(token) then Refused(Revoked)
      else if IsExhausted(token) then Refused(Exhausted)
      else Refused(NotPermitted)
  }

  /** Why a request is refused, in the order in which the reasons are looked at. */
  lemma {:induction false} DenialReasons(t: Table, h: Handle, agent: AgentId, requested: Capability, now: Instant)
    ensures var d := Decide(t, h, agent, requested, now);
            && (d == Refused(UnknownHandle) <==> h !in t.entries)
            && (h in t.entries ==>
                  var e := t.entries[h];
                  var spent := e.token.constraints.maxInvocations.Some?
                               && e.token.invocationCount >= e.token.constraints.maxInvocations.value;
                  && (d == Refused(WrongAgent) <==> e.owner != agent)
                  && (d == Refused(Revoked) <==> e.owner == agent && e.token.revokedAt.Some?)
                  && (d == Refused(Exhausted) <==> e.owner == agent && e.token.revokedAt.None? && spent)
                  && (d == Refused(NotPermitted) <==>
                        && e.owner == agent && e.token.revokedAt.None? && !spent
                        && !(Matches(e.token.capability, requested) && InLifetime(e.token, now))))
  {
  }

  function Charge(t: Table, h: Handle, agent: AgentId, requested: Capability, now: Instant): (r: Table)
  {
    if Decide(t, h, agent, requested, now).Allowed?
    then t.(entries := t.entries[h := t.entries[h].(token := RecordUse(t.entries[h].token))])
    else t
  }

  predicate HoldsLive(t: Table, h: Handle, id: TokenId)
  {
    h in t.entries && t.entries[h].token.id == id && !IsRevoked(t.entries[h].token)
  }

  predicate OwnsLive(t: Table, h: Handle, agent: AgentId)
  {
    h in t.entries && t.entries[h].owner == agent && !IsRevoked(t.entries[h].token)
  }

  function RevokeEntry(t: Table, h: Handle, now: Instant): (r: Table)
    requires h in t.entries
  {
    t.(entries := t.entries[h := t.entries[h].(token := Capabilities.Revoke(t.entries[h].token, now))])
  }

  function RevokeWhere(t: Table, hs: set<Handle>, now: Instant): (r: Table)
  {
    t.(entries := map h | h in t.entries ::
         if h in hs then t.entries[h].(token := Capabilities.Revoke(t.entries[h].token, now)) else t.entries[h])
  }

  lemma {:induction false} RevokeOneMore(t: Table, hs: set<Handle>, h: Handle, now: Instant)
    requires h in t.entries && h !in hs
    ensures RevokeEntry(RevokeWhere(t, hs, now), h, now) == RevokeWhere(t, hs + {h}, now)
  {
  }

  function RevokeId(t: Table, id: TokenId, now: Instant): (r: Table)
  {
    RevokeWhere(t, (set h | h in t.entries && HoldsLive(t, h, id)), now)
  }

  function LiveHandlesOf(t: Table, agent: AgentId): (hs: set<Handle>)
    ensures forall h :: h in hs <==> OwnsLive(t, h, agent)
  {
    set h | h in t.entries && OwnsLive(t, h, agent)
  }

  function IdsOf(t: Table, hs: seq<Handle>): (ids: seq<TokenId>)
    ensures |ids| == |hs|
  {
    seq(|hs|, i requires 0 <= i < |hs| => if hs[i] in t.entries then t.entries[hs[i]].token.id else 0)
  }

  lemma {:induction false} IdsOfAppend(t: Table, hs: seq<Handle>, h: Handle)
    requires h in t.entries
    ensures IdsOf(t, hs + [h]) == IdsOf(t, hs) + [t.entries[h].token.id]
  {
  }

  function WithoutAgent(t: Table, agent: AgentId): (r: Table)
  {
    t.(entries := map h | h in t.entries && t.entries[h].owner != agent :: t.entries[h])
  }

  /** A handle resolves to a token only for its owner, and only while the token is live. */
  predicate Resolves(t: Table, h: Handle, agent: AgentId, now: Instant)
  {
    h in t.entries && t.entries[h].owner == agent
    && !IsRevoked(t.entries[h].token) && !IsExpired(t.entries[h].token, now)
  }

  function ResolveTokens(t: Table, handles: seq<Handle>, agent: AgentId, now: Instant): (r: seq<Token>)
    ensures forall i :: 0 <= i < |r| ==> !IsRevoked(r[i]) && !IsExpired(r[i], now)
  {
    if handles == [] then []
    else
      var last := handles[|handles| - 1];
      var init := ResolveTokens(t, handles[..|handles| - 1], agent, now);
      if Resolves(t, last, agent, now) then init + [t.entries[last].token] else init
  }

  /** A token is forwarded exactly when one of the handles is the agent's and stands for it, unrevoked and in its
      lifetime. */
  lemma {:induction false} ResolvedTokens(t: Table, handles: seq<Handle>, agent: AgentId, now: Instant, token: Token)
    ensures token in ResolveTokens(t, handles, agent, now) <==>
            && token.revokedAt == None && InLifetime(token, now)
            && exists h :: h in handles && h in t.entries && t.entries[h] == Entry(agent, token)
  {
    if handles != [] {
      ResolvedTokens(t, handles[..|handles| - 1], agent, now, token);
      assert forall h :: h in handles <==> h in handles[..|handles| - 1] || h == handles[|handles| - 1];
    }
  }

  /** Tokens are forwarded in the order of the handles. */
  lemma {:induction false} ResolvedInOrder(t: Table, a: seq<Handle>, b: seq<Handle>, agent: AgentId, now: Instant)
    ensures ResolveTokens(t, a + b, agent, now) == ResolveTokens(t, a, agent, now) + ResolveTokens(t, b, agent, now)
  {
    if b == [] {
      assert a + b == a;
    } else {
      var n := |b| - 1;
      ResolvedInOrder(t, a, b[..n], agent, now);
      assert (a + b)[..|a + b| - 1] == a + b[..n];
    }
  }

  class CapabilityRegistry {
    var entries: map<Handle, Entry>
    var nextId: nat
    const hasNotifier: bool
    /** Token ids published to the revocation hook, oldest first. */
    var published: seq<TokenId>

    ghost predicate Valid()
      reads this
    {
      HandlesIssued(View())
    }

    function View(): (t: Table)
      reads this
    {
      Table(entries, nextId)
    }

    constructor (hasNotifier: bool)
      ensures Valid() && View() == Table(map[], 0) && published == [] && this.hasNotifier == hasNotifier
    {
      entries, nextId, published := map[], 0, [];
      this.hasNotifier := hasNotifier;
    }

    method Insert(agent: AgentId, token: Token) returns (h: Handle)
      requires Valid()
      modifies this
      ensures Valid() && View() == InsertInto(old(View()), agent, token) && published == old(published)
      ensures h == old(nextId) && h !in old(entries)
    {
      h := nextId;
      nextId := nextId + 1;
      entries := entries[h := Entry(agent, token)];
    }

    /** The child's handle carries a narrowed copy of the parent's token; nobody else's handle does. */
    method Narrow(parent: Handle, parentAgent: AgentId, child: AgentId, freshId: TokenId, additional: Constraints)
      returns (h: Option<Handle>)
      requires Valid()
      modifies this
      ensures Valid() && published == old(published)
      ensures h.Some? <==> parent in old(entries) && old(entries)[parent].owner == parentAgent
      ensures h.Some? ==> View() == InsertInto(old(View()), child,
                                               Capabilities.Narrow(old(entries)[parent].token, freshId, additional))
                          && h.value == old(nextId)
      ensures h.None? ==> View() == old(View())
    {
      if parent !in entries || entries[parent].owner != parentAgent {
        return None;
      }
      var inserted := Insert(child, Capabilities.Narrow(entries[parent].token, freshId, additional));
      h := Some(inserted);
    }

    method NarrowWithCapability(parent: Handle, parentAgent: AgentId, child: AgentId, freshId: TokenId,
                                capability: Capability, additional: Constraints)
      returns (h: Option<Handle>)
      requires Valid()
      modifies this
      ensures Valid() && published == old(published)
      ensures h.Some? <==> parent in old(entries) && old(entries)[parent].owner == parentAgent
                           && Matches(old(entries)[parent].token.capability, capability)
      ensures h.Some? ==>
                var token := old(entries)[parent].token;
                var narrowed := Capabilities.NarrowWithCapability(token, freshId, child, capability, additional);
                View() == InsertInto(old(View()), child, narrowed.value) && h.value == old(nextId)
      ensures h.None? ==> View() == old(View())
    {
      if parent !in entries || entries[parent].owner != parentAgent {
        return None;
      }
      var narrowed := Capabilities.NarrowWithCapability(entries[parent].token, freshId, child, capability, additional);
      if narrowed.None? {
        return None;
      }
      var inserted := Insert(child, narrowed.value);
      h := Some(inserted);
    }

    method AuthorizeAndRecord(h: Handle, agent: AgentId, requested: Capability, now: Instant) returns (d: Decision)
      requires Valid()
      modifies this
      ensures Valid() && published == old(published)
      ensures d == Decide(old(View()), h, agent, requested, now)
      ensures View() == Charge(old(View()), h, agent, requested, now)
      ensures d.Allowed? ==> entries[h].token.invocationCount == old(entries)[h].token.invocationCount + 1
      ensures d.Refused? ==> View() == old(View())
    {
      if h !in entries {
        return Refused(UnknownHandle);
      }
      var entry := entries[h];
      if entry.owner != agent {
        return Refused(WrongAgent);
      }
      if !Permits(entry.token, requested, now) {
        if IsRevoked(entry.token) {
          return Refused(Revoked);
        }
        if IsExhausted(entry.token) {
          return Refused(Exhausted);
        }
        return Refused(NotPermitted);
      }
      entries := entries[h := entry.(token := RecordUse(entry.token))];
      d := Allowed;
    }

    /** Revokes every live entry of the token and publishes its id once, if there was any. */
    method Revoke(id: TokenId, now: Instant) returns (revoked: bool)
      requires Valid()
      modifies this
      ensures Valid() && View() == RevokeId(old(View()), id, now)
      ensures revoked <==> exists h :: HoldsLive(old(View()), h, id)
      ensures published == old(published) + if revoked && hasNotifier then [id] else []
      ensures forall h :: !HoldsLive(View(), h, id)
      ensures entries.Keys == old(entries).Keys && nextId == old(nextId)
      ensures forall h :: h in entries ==>
                var e := old(entries)[h];
                entries[h] == if e.token.id == id && e.token.revokedAt == None
                              then e.(token := e.token.(revokedAt := Some(now))) else e
    {
      revoked := false;
      ghost var before := View();
      var todo := entries.Keys;
      ghost var flipped: set<Handle> := {};
      while todo != {}
        invariant todo <= before.entries.Keys
        invariant flipped == set h | h in before.entries.Keys - todo && HoldsLive(before, h, id)
        invariant View() == RevokeWhere(before, flipped, now)
        invariant revoked <==> flipped != {}
        invariant published == old(published)
        decreases todo
      {
        var h :| h in todo;
        var entry := entries[h];
        assert entry == before.entries[h];
        if entry.token.id == id && !IsRevoked(entry.token) {
          RevokeOneMore(before, flipped, h, now);
          entries := entries[h := entry.(token := Capabilities.Revoke(entry.token, now))];
          revoked := true;
          flipped := flipped + {h};
        }
        todo := todo - {h};
      }
      assert flipped == set h | h in before.entries && HoldsLive(before, h, id);
      if revoked && hasNotifier {
        published := published + [id];
      }
    }

    /** Revokes every live entry of the agent and publishes the id of each. */
    method RevokeAllForAgent(agent: AgentId, now: Instant) returns (count: nat)
      requires Valid()
      modifies this
      ensures Valid()
      ensures View() == RevokeWhere(old(View()), LiveHandlesOf(old(View()), agent), now)
      ensures count == |LiveHandlesOf(old(View()), agent)|
      ensures entries.Keys == old(entries).Keys && nextId == old(nextId)
      ensures forall h :: h in entries ==>
                var e := old(entries)[h];
                entries[h] == if e.owner == agent && e.token.revokedAt == None
                              then e.(token := e.token.(revokedAt := Some(now))) else e
      ensures !hasNotifier ==> published == old(published)
      ensures hasNotifier ==>
                exists order: seq<Handle> ::
                  && |order| == count && (forall h :: h in order <==> OwnsLive(old(View()), h, agent))
                  && published == old(published) + IdsOf(old(View()), order)
    {
      ghost var before := View();
      var revokedIds: seq<TokenId> := [];
      var todo := entries.Keys;
      ghost var order: seq<Handle> := [];
      ghost var flipped: set<Handle> := {};
      while todo != {}
        invariant todo <= before.entries.Keys
        invariant flipped == set h | h in before.entries.Keys - todo && OwnsLive(before, h, agent)
        invariant View() == RevokeWhere(before, flipped, now)
        invariant |order| == |flipped|
        invariant forall h :: h in order <==> h in flipped
        invariant revokedIds == IdsOf(before, order)
        invariant published == old(published)
        decreases todo
      {
        var h :| h in todo;
        var entry := entries[h];
        assert entry == before.entries[h];
        if entry.owner == agent && !IsRevoked(entry.token) {
          RevokeOneMore(before, flipped, h, now);
          entries := entries[h := entry.(token := Capabilities.Revoke(entry.token, now))];
          revokedIds := revokedIds + [entry.token.id];
          flipped := flipped + {h};
          IdsOfAppend(before, order, h);
          order := order + [h];
        }
        todo := todo - {h};
      }
      assert flipped == LiveHandlesOf(before, agent);
      if hasNotifier {
        published := published + revokedIds;
      }
      count := |revokedIds|;
    }

    method RemoveAgent(agent: AgentId)
      requires Valid()
      modifies this
      ensures Valid() && View() == WithoutAgent(old(View()), agent) && published == old(published)
      ensures forall h :: h in entries <==> h in old(entries) && old(entries)[h].owner != agent
      ensures forall h :: h in entries ==> entries[h] == old(entries)[h]
    {
      entries := map h | h in entries && entries[h].owner != agent :: entries[h];
    }

    method Resolve(handles: seq<Handle>, agent: AgentId, now: Instant) returns (tokens: seq<Token>)
      ensures tokens == ResolveTokens(View(), handles, agent, now)
    {
      tokens := [];
      for i := 0 to |handles|
        invariant tokens == ResolveTokens(View(), handles[..i], agent, now)
      {
        assert handles[..i + 1][..i] == handles[..i];
        var h := handles[i];
        if h in entries && entries[h].owner == agent
           && !IsRevoked(entries[h].token) && !IsExpired(entries[h].token, now) {
          tokens := tokens + [entries[h].token];
        }
      }
      assert handles[..|handles|] == handles;
    }
  }
}
