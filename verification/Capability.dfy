/** Capability tokens: what they grant and how they are narrowed. */
module Capabilities {
  import opened Options
  import opened Paths

  type AgentId = nat
  type TokenId = nat
  type Instant = int

  datatype Capability =
    | FileRead(pathGlob: string)
    | FileWrite(pathGlob: string)
    | WebSearch
    | NetworkAccess(hosts: seq<string>)
    | SpawnChild(allowedAgents: seq<string>)
    | ToolInvoke(toolName: string)
    | MessageSend(targetAgents: seq<string>)
    | CargoRun(workspace: string)
    | GitCommit(workspace: string)
    | Custom(name: string, params: string)

  /** Does a grant of `granted` answer a request for `requested`? */
  predicate Matches(granted: Capability, requested: Capability)
  {
    match (granted, requested)
    case (FileRead(g), FileRead(r)) => GlobMatches(g, r)
    case (FileWrite(g), FileWrite(r)) => GlobMatches(g, r)
    case (WebSearch, WebSearch) => true
    case (NetworkAccess(g), NetworkAccess(r)) => "*" in g || forall h :: h in r ==> h in g
    case (SpawnChild(g), SpawnChild(r)) => "*" in g || forall a :: a in r ==> a in g
    case (ToolInvoke(g), ToolInvoke(r)) => g == r || g == "*"
    case (MessageSend(g), MessageSend(r)) => forall a :: a in r ==> "*" in g || a in g
    case (CargoRun(g), CargoRun(r)) => GlobMatches(g, r)
    case (GitCommit(g), GitCommit(r)) => GlobMatches(g, r)
    case (Custom(g, _), Custom(r, _)) => g == r
    case _ => false
  }

  // ---------------------------------------------------------------------------
  // Delegation never widens
  // ---------------------------------------------------------------------------

  /** The glob of a path-based capability. */
  function PathOf(c: Capability): (g: Option<string>)
  {
    match c
    case FileRead(g) => Some(g)
    case FileWrite(g) => Some(g)
    case CargoRun(g) => Some(g)
    case GitCommit(g) => Some(g)
    case _ => None
  }

  predicate SameKind(a: Capability, b: Capability)
  {
    match (a, b)
    case (FileRead(_), FileRead(_)) => true
    case (FileWrite(_), FileWrite(_)) => true
    case (WebSearch, WebSearch) => true
    case (NetworkAccess(_), NetworkAccess(_)) => true
    case (SpawnChild(_), SpawnChild(_)) => true
    case (ToolInvoke(_), ToolInvoke(_)) => true
    case (MessageSend(_), MessageSend(_)) => true
    case (CargoRun(_), CargoRun(_)) => true
    case (GitCommit(_), GitCommit(_)) => true
    case (Custom(_, _), Custom(_, _)) => true
    case _ => false
  }

  /** The capability of `c`'s kind whose glob is `path`. */
  function AtPath(c: Capability, path: string): (r: Capability)
    requires PathOf(c).Some?
    ensures SameKind(c, r) && PathOf(r) == Some(path)
  {
    match c
    case FileRead(_) => FileRead(path)
    case FileWrite(_) => FileWrite(path)
    case CargoRun(_) => CargoRun(path)
    case GitCommit(_) => GitCommit(path)
  }

  /** Every request that `child` answers is answered by `granted` too. */
  ghost predicate Attenuates(granted: Capability, child: Capability)
  {
    forall requested :: Matches(child, requested) ==> Matches(granted, requested)
  }

  /** The names a capability without a path is about: hosts, agents, one tool, or its own name. */
  function Names(c: Capability): (r: set<string>)
  {
    match c
    case NetworkAccess(hosts) => set h | h in hosts
    case SpawnChild(agents) => set a | a in agents
    case ToolInvoke(tool) => {tool}
    case MessageSend(agents) => set a | a in agents
    case Custom(name, _) => {name}
    case _ => {}
  }

  /** A star among the names stands for every name, except in a custom capability. */
  predicate AnyName(c: Capability)
  {
    !c.Custom? && "*" in Names(c)
  }

  lemma {:induction false} ListedIn(granted: seq<string>, requested: seq<string>)
    ensures (forall x :: x in requested ==> x in granted)
       <==> (set x | x in requested) <= (set x | x in granted)
  {
    var names := set x | x in requested;
    assert forall x :: x in requested ==> x in names;
  }

  /** A grant without a path answers exactly the requests of its kind whose names it lists, or all of them. */
  lemma {:induction false} NamesDecide(granted: Capability, requested: Capability)
    requires PathOf(granted).None?
    ensures Matches(granted, requested) <==>
            SameKind(granted, requested) && (AnyName(granted) || Names(requested) <= Names(granted))
  {
    match (granted, requested)
    case (NetworkAccess(g), NetworkAccess(r)) => ListedIn(g, r);
    case (SpawnChild(g), SpawnChild(r)) => ListedIn(g, r);
    case (MessageSend(g), MessageSend(r)) => ListedIn(g, r);
    case (ToolInvoke(_), ToolInvoke(r)) => assert r in Names(requested);
    case (Custom(_, _), Custom(r, _)) => assert r in Names(requested);
    case _ =>
  }

  predicate CoversCapability(granted: Capability, child: Capability)
  {
    SameKind(granted, child) &&
    match PathOf(child)
    case Some(g) => ScopeCovers(ScopeOf(PathOf(granted).value), ScopeOf(g))
    case None => AnyName(granted) || Names(child) <= Names(granted)
  }

  lemma {:induction false} SomePathMatches(pattern: string) returns (path: string)
    ensures GlobMatches(pattern, path)
  {
    var s := ScopeOf(pattern);
    ScopeIsClean(pattern);
    var cs := match s case Exactly(_, p) => p case Beneath(_, r) => r case _ => [];
    var absolute := match s case Exactly(a, _) => a case Beneath(a, _) => a case _ => true;
    path := Render(absolute, cs);
    ComponentsOfRender(absolute, cs);
    GlobRefinesScope(pattern, path);
  }

  lemma {:induction false} SomeRequestMatches(c: Capability) returns (requested: Capability)
    ensures Matches(c, requested)
  {
    if PathOf(c).Some? {
      var path := SomePathMatches(PathOf(c).value);
      requested := AtPath(c, path);
    } else {
      requested := c;
    }
  }

  lemma {:induction false} PathAttenuation(granted: Capability, child: Capability)
    requires SameKind(granted, child) && PathOf(child).Some?
    ensures Attenuates(granted, child) <==> GrantsAllOf(PathOf(granted).value, PathOf(child).value)
  {
    var a, b := PathOf(granted).value, PathOf(child).value;
    if Attenuates(granted, child) {
      forall path: string | GlobMatches(b, path)
        ensures GlobMatches(a, path)
      {
        assert Matches(child, AtPath(child, path)) ==> Matches(granted, AtPath(child, path));
      }
    }
  }

  lemma {:induction false} NameAttenuation(granted: Capability, child: Capability)
    requires SameKind(granted, child) && PathOf(child).None?
    ensures Attenuates(granted, child) <==> AnyName(granted) || Names(child) <= Names(granted)
  {
    NamesDecide(granted, child);
    NamesDecide(child, child);
    if AnyName(granted) || Names(child) <= Names(granted) {
      forall requested | Matches(child, requested)
        ensures Matches(granted, requested)
      {
        NamesDecide(child, requested);
        NamesDecide(granted, requested);
      }
    } else {
      assert Matches(child, child) && !Matches(granted, child);
    }
  }

  /** For all pairs of capabilities of any kind: the exact condition under which handing
      `child` to another agent hands over nothing that `granted` did not include. */
  lemma {:induction false} AttenuationIsDecidable(granted: Capability, child: Capability)
    ensures Attenuates(granted, child) <==> CoversCapability(granted, child)
  {
    if !SameKind(granted, child) {
      var requested := SomeRequestMatches(child);
      assert !Matches(granted, requested);
    } else if PathOf(child).Some? {
      PathAttenuation(granted, child);
      CoverageIsDecidable(PathOf(granted).value, PathOf(child).value);
    } else {
      NameAttenuation(granted, child);
    }
  }

  /** A tool grant may be handed on for its own tool only, unless it is for every tool. */
  lemma {:induction false} ToolAttenuation(granted: string, child: string)
    ensures Attenuates(ToolInvoke(granted), ToolInvoke(child)) <==> granted == "*" || granted == child
  {
    NameAttenuation(ToolInvoke(granted), ToolInvoke(child));
    assert child in Names(ToolInvoke(child));
  }

  predicate WellFormed(c: Capability)
  {
    PathOf(c).Some? ==> WellFormedGlob(PathOf(c).value)
  }

  lemma {:induction false} MatchesIsReflexive(c: Capability)
    requires WellFormed(c)
    ensures Matches(c, c)
  {
    if PathOf(c).Some? {
      WellFormedReflexive(PathOf(c).value);
    }
  }

  /** The check made when a capability is delegated implies that it attenuates. */
  lemma {:induction false} MatchImpliesAttenuation(granted: Capability, child: Capability)
    requires WellFormed(granted) && WellFormed(child) && Matches(granted, child)
    ensures Attenuates(granted, child)
  {
    AttenuationIsDecidable(granted, child);
    if PathOf(child).Some? {
      WellFormedMatchCovers(PathOf(granted).value, PathOf(child).value);
    } else {
      NamesDecide(granted, child);
    }
  }

  lemma {:induction false} MatchesIsTransitive(a: Capability, b: Capability, c: Capability)
    requires WellFormed(a) && WellFormed(b)
    requires Matches(a, b) && Matches(b, c)
    ensures Matches(a, c)
  {
    MatchImpliesAttenuation(a, b);
  }

  // ---------------------------------------------------------------------------
  // Tokens
  // ---------------------------------------------------------------------------

  datatype Constraints = Constraints(maxInvocations: Option<nat>, rateLimit: Option<nat>)

  datatype Token = Token(
    id: TokenId,
    agentId: AgentId,
    capability: Capability,
    constraints: Constraints,
    issuedAt: Instant,
    expiresAt: Option<Instant>,
    revokedAt: Option<Instant>,
    invocationCount: nat)

  predicate IsExpired(t: Token, now: Instant)
  {
    t.expiresAt.Some? && now > t.expiresAt.value
  }

  predicate IsRevoked(t: Token)
  {
    t.revokedAt.Some?
  }

  predicate IsExhausted(t: Token)
  {
    t.constraints.maxInvocations.Some? && t.invocationCount >= t.constraints.maxInvocations.value
  }

  predicate Permits(t: Token, requested: Capability, now: Instant)
  {
    !IsExpired(t, now) && !IsRevoked(t) && !IsExhausted(t) && Matches(t.capability, requested)
  }

  /** Is `now` no later than the expiry, if there is one? */
  predicate InLifetime(t: Token, now: Instant)
  {
    t.expiresAt.None? || now <= t.expiresAt.value
  }

  /** A token permits exactly what its capability answers, in its lifetime, unrevoked and with uses left. In
      particular nothing is permitted later than the expiry. */
  lemma {:induction false} PermitsExactly(t: Token, requested: Capability, now: Instant)
    ensures Permits(t, requested, now) <==>
            && Matches(t.capability, requested) && InLifetime(t, now) && t.revokedAt == None
            && (t.constraints.maxInvocations.None? || t.invocationCount < t.constraints.maxInvocations.value)
  {
  }

  datatype FileAccess = Read | Write

  /** The variant for a path the kernel has already resolved. */
  predicate PermitsCanonicalFile(t: Token, kind: FileAccess, canonical: string, now: Instant)
  {
    !IsExpired(t, now) && !IsRevoked(t) && !IsExhausted(t) &&
    match (kind, t.capability)
    case (Read, FileRead(g)) => GlobMatchesCanonical(g, canonical)
    case (Write, FileWrite(g)) => GlobMatchesCanonical(g, canonical)
    case _ => false
  }

  function FileRequest(kind: FileAccess, path: string): (c: Capability)
  {
    match kind case Read => FileRead(path) case Write => FileWrite(path)
  }

  /** The two file checks decide alike on every spelling of a path, once it is resolved. */
  lemma {:induction false} CanonicalCheckAgrees(t: Token, kind: FileAccess, path: string, now: Instant)
    ensures PermitsCanonicalFile(t, kind, Normalize(path), now) <==> Permits(t, FileRequest(kind, path), now)
    ensures Permits(t, FileRequest(kind, Normalize(path)), now) <==> Permits(t, FileRequest(kind, path), now)
  {
    if PathOf(t.capability).Some? {
      GlobIgnoresSpelling(PathOf(t.capability).value, path);
    }
  }

  function RecordUse(t: Token): (r: Token)
  {
    t.(invocationCount := t.invocationCount + 1)
  }

  function Revoke(t: Token, now: Instant): (r: Token)
  {
    t.(revokedAt := Some(now))
  }

  // ---------------------------------------------------------------------------
  // Narrowing
  // ---------------------------------------------------------------------------

  function Lower(existing: Option<nat>, extra: Option<nat>): (r: Option<nat>)
    ensures AtMost(r, existing) && AtMost(r, extra)
    ensures r == existing || r == extra
  {
    match (existing, extra)
    case (_, None) => existing
    case (None, Some(_)) => extra
    case (Some(a), Some(b)) => Some(if a <= b then a else b)
  }

  function Tighten(c: Constraints, additional: Constraints): (r: Constraints)
    ensures AtMost(r.maxInvocations, c.maxInvocations) && AtMost(r.maxInvocations, additional.maxInvocations)
    ensures AtMost(r.rateLimit, c.rateLimit) && AtMost(r.rateLimit, additional.rateLimit)
    ensures r.maxInvocations in {c.maxInvocations, additional.maxInvocations}
    ensures r.rateLimit in {c.rateLimit, additional.rateLimit}
  {
    Constraints(Lower(c.maxInvocations, additional.maxInvocations), Lower(c.rateLimit, additional.rateLimit))
  }

  /** Keeps everything, the use count and the named agent included, except id and constraints. */
  function Narrow(t: Token, freshId: TokenId, additional: Constraints): (r: Token)
  {
    t.(id := freshId, constraints := Tighten(t.constraints, additional))
  }

  /** What a child's token owes to its parent's: at most its limits and the additional ones, its expiry and its
      revocation; a count of its own. */
  predicate Inherits(t: Token, child: Token, additional: Constraints)
  {
    && AtMost(child.constraints.maxInvocations, t.constraints.maxInvocations)
    && AtMost(child.constraints.maxInvocations, additional.maxInvocations)
    && AtMost(child.constraints.rateLimit, t.constraints.rateLimit)
    && AtMost(child.constraints.rateLimit, additional.rateLimit)
    && child.constraints.maxInvocations in {t.constraints.maxInvocations, additional.maxInvocations}
    && child.constraints.rateLimit in {t.constraints.rateLimit, additional.rateLimit}
    && child.expiresAt == t.expiresAt && child.revokedAt == t.revokedAt
    && (IsExhausted(child) <==> child.constraints.maxInvocations == Some(0))
  }

  function ChildToken(t: Token, freshId: TokenId, child: AgentId, capability: Capability, additional: Constraints)
    : (r: Token)
    ensures Inherits(t, r, additional)
  {
    t.(id := freshId, agentId := child, capability := capability, invocationCount := 0,
       constraints := Tighten(t.constraints, additional))
  }

  function NarrowWithCapability(t: Token, freshId: TokenId, child: AgentId, capability: Capability,
                                additional: Constraints): (r: Option<Token>)
    ensures r.Some? <==> Matches(t.capability, capability)
    ensures r.Some? ==> Inherits(t, r.value, additional) && r.value.agentId == child && r.value.capability == capability
  {
    if !Matches(t.capability, capability) then None
    else Some(ChildToken(t, freshId, child, capability, additional))
  }

  datatype Delegation =
    | Plain(freshId: TokenId, additional: Constraints)
    | Specific(freshId: TokenId, child: AgentId, capability: Capability, additional: Constraints)

  function Delegate(t: Token, d: Delegation): (r: Option<Token>)
    ensures r.Some? <==> d.Plain? || Matches(t.capability, d.capability)
    ensures d.Plain? ==> r.value == t.(id := d.freshId, constraints := r.value.constraints)
    ensures r.Some? && d.Specific? ==>
              r.value == t.(id := d.freshId, agentId := d.child, capability := d.capability, invocationCount := 0,
                            constraints := r.value.constraints)
  {
    match d
    case Plain(id, additional) => Some(Narrow(t, id, additional))
    case Specific(id, child, capability, additional) => NarrowWithCapability(t, id, child, capability, additional)
  }

  function DelegateAll(t: Token, ds: seq<Delegation>): (r: Option<Token>)
    decreases ds
  {
    if ds == [] then Some(t)
    else
      match Delegate(t, ds[0])
      case None => None
      case Some(u) => DelegateAll(u, ds[1..])
  }

  predicate WellFormedDelegations(ds: seq<Delegation>)
  {
    forall i :: 0 <= i < |ds| && ds[i].Specific? ==> WellFormed(ds[i].capability)
  }

  /** `child` grants at most what `parent` grants, under at most its limits, for at most its lifetime. */
  ghost predicate WithinToken(parent: Token, child: Token)
  {
    && Attenuates(parent.capability, child.capability)
    && AtMost(child.constraints.maxInvocations, parent.constraints.maxInvocations)
    && AtMost(child.constraints.rateLimit, parent.constraints.rateLimit)
    && child.expiresAt == parent.expiresAt
    && child.revokedAt == parent.revokedAt
  }

  /** Along any chain of delegations, of any length, authority only shrinks. */
  lemma {:induction false} DelegationOnlyAttenuates(t: Token, ds: seq<Delegation>)
    requires WellFormed(t.capability) && WellFormedDelegations(ds) && DelegateAll(t, ds).Some?
    ensures WithinToken(t, DelegateAll(t, ds).value)
    ensures WellFormed(DelegateAll(t, ds).value.capability)
    decreases ds
  {
    if ds != [] {
      var u := Delegate(t, ds[0]).value;
      if ds[0].Specific? {
        MatchImpliesAttenuation(t.capability, u.capability);
      }
      assert WellFormed(u.capability);
      assert WellFormedDelegations(ds[1..]);
      DelegationOnlyAttenuates(u, ds[1..]);
      var last := DelegateAll(u, ds[1..]).value;
      assert Attenuates(u.capability, last.capability);
    }
  }

  /** What the last holder may do, the first token's grant, lifetime and state already allowed. */
  lemma {:induction false} LastPermitIsAuthorisedByFirst(t: Token, ds: seq<Delegation>, requested: Capability,
                                                         now: Instant)
    requires WellFormed(t.capability) && WellFormedDelegations(ds) && DelegateAll(t, ds).Some?
    requires Permits(DelegateAll(t, ds).value, requested, now)
    ensures Matches(t.capability, requested) && InLifetime(t, now) && t.revokedAt == None
  {
    DelegationOnlyAttenuates(t, ds);
  }

  /** Does the added limit still leave a token that was used this often a use? */
  predicate LeavesUses(count: nat, d: Delegation)
  {
    d.additional.maxInvocations.None? || count < d.additional.maxInvocations.value
  }

  lemma {:induction false} NarrowedPermits(t: Token, d: Delegation, requested: Capability, now: Instant)
    requires d.Plain?
    ensures Delegate(t, d).Some? && Delegate(t, d).value.invocationCount == t.invocationCount
    ensures Permits(Delegate(t, d).value, requested, now) <==>
            Permits(t, requested, now) && LeavesUses(t.invocationCount, d)
  {
  }

  /** Narrowing by constraints alone keeps the use count, so no chain of it revives a spent token: what the last
      token permits is exactly what the first one permits, as long as every added limit leaves a use. */
  lemma {:induction false} PlainNarrowingNeverRevives(t: Token, ds: seq<Delegation>, requested: Capability,
                                                      now: Instant)
    requires forall i :: 0 <= i < |ds| ==> ds[i].Plain?
    ensures DelegateAll(t, ds).Some?
    ensures Permits(DelegateAll(t, ds).value, requested, now) <==>
            Permits(t, requested, now) && forall i :: 0 <= i < |ds| ==> LeavesUses(t.invocationCount, ds[i])
    decreases ds
  {
    if ds != [] {
      NarrowedPermits(t, ds[0], requested, now);
      PlainNarrowingNeverRevives(Delegate(t, ds[0]).value, ds[1..], requested, now);
      assert forall i :: 0 < i < |ds| ==> ds[i] == ds[1..][i - 1];
    }
  }
}
