# aaOS: a verified model of the agent runtime's stateful core

aaOS runs language-model agents as confined processes. Agents hold handles to capability tokens, a registry
decides every use, a broker forwards live tokens to a sandboxed worker and pushes revocations after them, and a
persistent loop keeps a long conversation within the model's context by summarising and archiving its oldest part.
This project models those parts in Dafny and proves what they promise together.

- `Paths`, `Capabilities`: what a glob and a token grant; delegation only attenuates.
- `CapabilityRegistries`, `RegistryRuns`: the table of tokens, as a class and under every interleaving of threads.
- `Workers`, `Revocation`: the worker's session table and the push-revocation protocol over a first-in-first-out stream.
- `Transcripts`, `Contexts`, `Executors`, `SessionStores`, `PersistentLoops`: the conversation, from boundary choice to
  files replaced call by call, and the laws of whole runs of the loop against any model, any tools and any failures.
- `NextTurns`, `Restarts`: what trimming and unanswered calls do to the following turn, and sessions that stop at any
  point of a turn and start again, any number of times.
- `Admission`, `Budgets`: compare-exchange loops around shared counters.
- `Demux`, `PendingTable`: two request/response tables whose callers must get their own answer, once.
- `Handshake`, `Visibility`: confinement before work, and directories visible wherever a grant reaches.

Code that runs in one task is modelled by methods with the source's loops, each proved equal to a specification
function about which the laws are then proved. Code shared by several tasks is modelled as a state machine: a
function `Next` over atomic steps, and lemmas about `Run` for every sequence of steps, where a step that is not
enabled does nothing. The language model and the tools are arbitrary functions; clocks, the summarising model's
answer, faults of the file system and of the socket are parameters; token ids and trace ids are fresh by the guard
of the step that draws them.

Automatic induction is off in every lemma, so each induction is written out where it is used.
`dafny verify dfyconfig.toml` checks everything.

## Where a promise holds only conditionally

Each of these is stated as an equivalence, with the failing family shown to fail.

- A delegated path grant stays within its parent exactly when the parent's scope covers the child's
  (`Capabilities.AttenuationIsDecidable`). For well-formed globs the code's own check implies it; `/d/..*` passes the
  check against `/d/*` and denotes the root (`Paths.OddTailEscapes`). `/*` matches only `/`, and a relative pattern
  whose stripped prefix is empty matches every absolute path (`Paths.GlobRefinesScope`).
- A revocation read by the worker takes effect exactly when the worker already holds the token
  (`Workers.LiveExactlyWhenNotRevokedSinceFirstUse`); one that overtakes the first frame carrying the token is lost
  (`Revocation.OvertakenRevocationIsLost`).
- Replies are routed to their own callers in all runs exactly up to 900 ids drawn by pings, pokes and pushes
  (`Demux.SafeExactlyUpTo`).
- The budget counter is exact in all runs exactly when the limit plus one call fits in 64 bits
  (`Budgets.ExactExactlyWhenSumsFit`).
- A replacement of the session file is safe against the process stopping at any point. Against the machine stopping it
  is safe exactly when the old history was settled on stable storage (`SessionStores.OldOrNewExactlyWhenSettled`).
  Appends are never synced, so a replacement after an append may lose both histories
  (`SessionStores.ReplaceAfterAppendMayLoseBoth`).
- What the model is sent reflects what it is shown (`PersistentLoops.RequestsReflectShown`), so a loop without a context
  manager sends the summaries it loads.
- After a successful turn from a grouped memory, the next turn's requests keep results behind their calls exactly when
  trimming did not cut in front of a result, or the next turn makes a summary
  (`NextTurns.NextRequestsAreGroupedExactly`); `NextTurns.TrimmingOrphansAResult` is the run in which it does.
- Every call in what a run adds has its result exactly unless the final answer held calls that nobody ran
  (`Executors.DeltaIsAnsweredExactly`, `Executors.OpenCallStays`). The next turn then sends them unanswered exactly unless
  nothing was kept or a summary covers all of memory (`NextTurns.NextRequestsAreAnsweredExactly`).
- A granted path outside the scratch and library directories is visible, for one grant and no workspace, exactly when
  the directory the grant stands for is neither `/` nor missing (`Visibility.VisibleExactlyWhenRootIsKept`). A path
  component that begins with a dot and a brace costs one more directory (`Visibility.RootIsDirectory`).

## Where code and comments differ

The model follows the code.

- When archiving fails, the comment in the persistent loop says that the original history goes to the model
  (crates/aaos-runtime/src/persistent.rs:125-127). The code sends the summarised messages, and keeps the original
  history in memory and on disk (crates/aaos-runtime/src/persistent.rs:190). `PersistentLoops.Shown` does the same.
- The worker's documentation says that an invocation in progress sees a revocation
  (crates/aaos-backend-linux/src/worker.rs:179-184). The loop reads no frame while a tool runs, so only later
  invocations see it.
- The nudge tells the model that it ended its turn without calling a tool
  (crates/aaos-llm/src/executor.rs:261-275). The code sends it after every answer that stops with the end of a turn,
  also one that holds tool calls, which then stay unanswered. `Executors.EndsTurn` follows the code.

## Model

| member | source | states |
|---|---|---|
| `Paths.NormalizePath` | crates/aaos-core/src/capability.rs:580-596 | the loop over components computes `Normalize`: rendering of the components with `.` dropped and `..` undoing its predecessor |
| `Paths.DotDotUndoes` | crates/aaos-core/src/capability.rs:580-596 | for every path and clean component: appending the component adds it, `..` behind it gives back the components before, whatever the spelling; a repeated slash or `.` changes nothing, and above a path without components there is nothing |
| `Paths.DetoursNormalizeAway` | crates/aaos-core/src/capability.rs:580-596 | the same on strings: a descent followed by `..`, a `.` and a trailing slash leave the normal form as it was |
| `Paths.NormalizeIsIdempotent` | crates/aaos-core/src/capability.rs:580-596 | normalising twice changes nothing; the output has no empty, `.` or `..` component and keeps kind and components |
| `Paths.NormalizeDecides` | crates/aaos-core/src/capability.rs:580-596 | normal forms are equal exactly when the paths agree on being absolute and on their components |
| `Paths.GlobIgnoresSpelling` | crates/aaos-core/src/capability.rs:488-520 | every spelling of a path is decided as its normal form is |
| `Paths.GlobRefinesScope` | crates/aaos-core/src/capability.rs:488-520 | for all patterns and paths, string matching is membership in the pattern's set of component lists |
| `Paths.StarPatternIsComponentPrefix` | crates/aaos-core/src/capability.rs:499-520 | a star pattern whose prefix is not the root matches a normalised absolute path exactly when the prefix's components are a prefix of the path's |
| `Paths.LiteralPatternIsComponentEquality` | crates/aaos-core/src/capability.rs:516-519 | a pattern without a trailing star matches exactly the paths with its components |
| `Paths.CoverageIsDecidable` | crates/aaos-core/src/capability.rs:488-520 | one pattern matches all paths another matches exactly when a comparison of two component lists says so; both directions, all patterns |
| `Paths.WellFormedMatchCovers` | crates/aaos-core/src/capability.rs:488-520 | for well-formed globs, matching the child's glob as a path implies covering everything the child's glob matches |
| `Paths.WellFormedReflexive` | crates/aaos-core/src/capability.rs:488-520 | a well-formed glob matches itself |
| `Paths.WellFormedTransitive` | crates/aaos-core/src/capability.rs:488-520 | matching is transitive along well-formed globs |
| `Paths.OddTailEscapes` | crates/aaos-core/src/capability.rs:499-520 | outside well-formed globs the delegation check does not imply coverage: a family of counterexamples |
| `Capabilities.AttenuationIsDecidable` | crates/aaos-core/src/capability.rs:246-310 | for every pair of capabilities of any kind, the exact condition under which the second grants nothing the first does not, in terms of component lists and sets of names |
| `Capabilities.NamesDecide` | crates/aaos-core/src/capability.rs:256-308 | a grant of hosts, agents, a tool or a custom name answers exactly the requests of its kind whose names it lists, or all of them if it lists a star and is not custom |
| `Capabilities.ToolAttenuation` | crates/aaos-core/src/capability.rs:288-291 | a tool grant covers another exactly when it is for every tool or for the same one |
| `Capabilities.MatchesIsReflexive` | crates/aaos-core/src/capability.rs:246-310 | every well-formed capability matches itself |
| `Capabilities.MatchImpliesAttenuation` | crates/aaos-core/src/capability.rs:246-310 | the check made at delegation implies that every request the child answers, the parent answers |
| `Capabilities.MatchesIsTransitive` | crates/aaos-core/src/capability.rs:246-310 | matching is transitive for all kinds |
| `Capabilities.PermitsExactly` | crates/aaos-core/src/capability.rs:187-199 | a token permits exactly what its capability answers, no later than its expiry, unrevoked, with a use left |
| `Capabilities.CanonicalCheckAgrees` | crates/aaos-core/src/capability.rs:187-225 | the check on a resolved path and the check on any spelling of it decide alike |
| `Capabilities.Tighten` | crates/aaos-core/src/capability.rs:339-380 | narrowed limits are at most the parent's and at most the additional ones, and each is one of the two |
| `Capabilities.NarrowWithCapability` | crates/aaos-core/src/capability.rs:328-359 | a narrowed token exists exactly when the parent matches the child's capability; its limits are the lower of the parent's and the additional ones, it has the parent's expiry and revocation, and starts unspent |
| `Capabilities.DelegationOnlyAttenuates` | crates/aaos-core/src/capability.rs:328-382 | along any chain of narrowings the last token grants at most what the first grants, under at most its limits, with its expiry and revocation state |
| `Capabilities.LastPermitIsAuthorisedByFirst` | crates/aaos-core/src/capability.rs:187-382 | a request permitted by the last token of a chain is matched by the first, unrevoked and no later than its expiry |
| `Capabilities.PlainNarrowingNeverRevives` | crates/aaos-core/src/capability.rs:362-382 | narrowing by constraints alone keeps the use count: the last token of a chain permits exactly what the first permits, as long as every added limit leaves a use |
| `CapabilityRegistries.CapabilityRegistry.constructor` | crates/aaos-core/src/capability_registry.rs:51-72 | an empty table with its notifier |
| `CapabilityRegistries.CapabilityRegistry.Insert` | crates/aaos-core/src/capability_registry.rs:98-102 | the token is stored under a handle never issued before |
| `CapabilityRegistries.CapabilityRegistry.Narrow` | crates/aaos-core/src/capability_registry.rs:108-123 | only the owner narrows; the child's new handle holds the narrowed copy and nothing else changes |
| `CapabilityRegistries.CapabilityRegistry.NarrowWithCapability` | crates/aaos-core/src/capability_registry.rs:138-156 | as above, exactly when the parent's capability matches the requested one |
| `CapabilityRegistries.Decide` | crates/aaos-core/src/capability_registry.rs:205-230 | allowed exactly when the handle is the caller's and its token permits the request |
| `CapabilityRegistries.DenialReasons` | crates/aaos-core/src/capability_registry.rs:205-230 | which of the five reasons a refusal carries, each in terms of the entry |
| `CapabilityRegistries.CapabilityRegistry.AuthorizeAndRecord` | crates/aaos-core/src/capability_registry.rs:205-230 | the decision with its reason; one use is charged if allowed, and the table is untouched otherwise |
| `CapabilityRegistries.CapabilityRegistry.Revoke` | crates/aaos-core/src/capability_registry.rs:242-256 | the loop marks exactly the unrevoked entries of the id and leaves every other entry as it was; true and one notification exactly when there was one |
| `CapabilityRegistries.CapabilityRegistry.RevokeAllForAgent` | crates/aaos-core/src/capability_registry.rs:264-279 | the loop marks exactly the agent's unrevoked entries and leaves every other entry as it was, counts them and notifies each id |
| `CapabilityRegistries.CapabilityRegistry.RemoveAgent` | crates/aaos-core/src/capability_registry.rs:284-286 | exactly the agent's entries go |
| `CapabilityRegistries.CapabilityRegistry.Resolve` | crates/aaos-core/src/capability_registry.rs:341-361 | the loop computes the tokens of the handles that resolve, in order |
| `CapabilityRegistries.ResolvedTokens` | crates/aaos-core/src/capability_registry.rs:341-361 | a token is forwarded exactly when one of the handles is the agent's and holds it, neither revoked nor expired |
| `CapabilityRegistries.ResolvedInOrder` | crates/aaos-core/src/capability_registry.rs:341-361 | tokens are forwarded in the order of the handles |
| `RegistryRuns.AllowancesAreMetered` | crates/aaos-core/src/capability_registry.rs:205-230 | in every interleaving the successes on a handle never exceed what its token had left, and none follow revocation or removal |
| `RegistryRuns.AllowanceIsServedInFull` | crates/aaos-core/src/capability_registry.rs:205-230 | the bound is tight: an owner asking again and again for what the live token grants is served exactly as often as the limit leaves, and always without one |
| `RegistryRuns.RunEvolves` | crates/aaos-core/src/capability_registry.rs:98-286 | no run reuses a handle, changes an owner, lowers a count or revives a revoked token |
| `RegistryRuns.ForeignCallsChangeNothing` | crates/aaos-core/src/capability_registry.rs:205-230 | whatever happened in between, another agent's call on a handle is refused and changes nothing |
| `RegistryRuns.PublishedExactlyOnce` | crates/aaos-core/src/capability_registry.rs:242-279 | with revocations scanning entry by entry and interleaving, no id is notified twice, and when all have returned the notified ids are the revoked ones |
| `RegistryRuns.VisitRevokesExactly` | crates/aaos-core/src/capability_registry.rs:242-279 | a scan marks a visited entry exactly when it is unrevoked and of the id, or the agent, it is after; it then owes that id's notification, and no other entry changes |
| `RegistryRuns.VisitedIsSpent` | crates/aaos-core/src/capability_registry.rs:242-279 | whatever follows in any interleaving, an entry a scan was after and visited authorises nothing any more |
| `RegistryRuns.RemovedIsSpent` | crates/aaos-core/src/capability_registry.rs:284-286 | whatever follows, the handle of a removed entry authorises nothing any more |
| `RegistryRuns.DelegationOnlyAttenuatesInRuns` | crates/aaos-core/src/capability_registry.rs:98-156 | in every interleaving of issuing, narrowing (parent read and child inserted at two moments), using, revoking and removing, every entry goes back to an issued token and stays within its grant, limits and lifetime |
| `RegistryRuns.OthersDoNotNarrow` | crates/aaos-core/src/capability_registry.rs:108-156 | a narrowing by anyone but the handle's owner changes nothing |
| `RegistryRuns.OwnerNarrows` | crates/aaos-core/src/capability_registry.rs:108-156 | the owner's narrowing gives the child a new handle with the narrowed token exactly when the parent's token admits it |
| `Workers.MergeTokens` | crates/aaos-backend-linux/src/worker.rs:268-275 | the loop merges forwarded tokens into the session: one entry per id, an old id keeps its handle |
| `Workers.AgentLoop` | crates/aaos-backend-linux/src/worker.rs:185-317 | the dispatch loop computes the session and the replies of the lines read |
| `Workers.RepliesEchoIds` | crates/aaos-backend-linux/src/worker.rs:228-315 | one reply per frame, under its id and in order, none for a revocation or a malformed line |
| `Workers.RepliesCarryOutcomes` | crates/aaos-backend-linux/src/worker.rs:228-315 | in every run the reply to a frame carries the ping's nonce, the poke's operation, the call's own outcome exactly when its tool is whitelisted, and else a refusal that names the tool |
| `Workers.SessionIsIndexed` | crates/aaos-backend-linux/src/worker.rs:209-275 | in every run the session holds exactly one entry per token id ever inserted, at the recorded handle |
| `Workers.SessionHoldsCarried` | crates/aaos-backend-linux/src/worker.rs:268-275 | for every stream, the session holds a token exactly when a call of an available tool forwarded it |
| `Workers.SessionTracksToken` | crates/aaos-backend-linux/src/worker.rs:233-275 | when only live tokens are forwarded, the session holds one revoked exactly when a revocation was read after a call forwarded it |
| `Workers.RevocationIsFinal` | crates/aaos-backend-linux/src/worker.rs:233-275 | for every stream, after a revocation is read while the token is held, no later call is authorised by it even if forwarded again |
| `Workers.LiveExactlyWhenNotRevokedSinceFirstUse` | crates/aaos-backend-linux/src/worker.rs:233-275 | the exact condition under which a call runs with a forwarded token live |
| `Workers.SessionHoldsFirst` | crates/aaos-backend-linux/src/worker.rs:268-275 | for every stream, the session holds for each id the token that was forwarded first, unchanged but for a revocation's mark |
| `Workers.AuthorisedExactly` | crates/aaos-backend-linux/src/worker.rs:233-281 | a call is authorised through a token it forwards exactly when no revocation of it was read since it was first forwarded, and the token forwarded then permits the request |
| `Revocation.NoAuthorityAfterRevoke` | crates/aaos-core/src/capability_registry.rs:242-361 | in every interleaving a call that resolved its tokens after a revocation took effect is never authorised through that token, even if the push was lost |
| `Revocation.ReadForwardsLive` | crates/aaos-core/src/capability_registry.rs:341-361 | only live tokens cross the stream, in every run |
| `Revocation.PushedRevocationIsFinal` | crates/aaos-backend-linux/src/broker_session.rs:461-650 | in every interleaving, once the worker has read a push while holding the token, frames resolved earlier are not authorised by it either |
| `Revocation.OvertakenRevocationIsLost` | crates/aaos-backend-linux/src/broker_session.rs:461-473 | the remaining race: a push that reaches the worker before the first frame carrying the token changes nothing |
| `Transcripts.GroupedCut` | crates/aaos-runtime/src/context.rs:299-337 | a grouped conversation may be cut exactly where the next message is not a tool result |
| `Transcripts.ToolUsesAreTheCalls` | crates/aaos-llm/src/executor.rs:617-620 | the calls of a response are all its call blocks, in order |
| `Contexts.AdjustBoundaryForToolPairs` | crates/aaos-runtime/src/context.rs:303-337 | the loops compute `Adjusted` |
| `Contexts.AdjustedStaysInGroup` | crates/aaos-runtime/src/context.rs:303-337 | the boundary moves exactly when it stands in front of a tool result: forward over results if the message before it calls tools, else backward to the nearest assistant message or the start |
| `Contexts.SelectSummarizationBoundary` | crates/aaos-runtime/src/context.rs:267-297 | the loop computes `Selected`, with the running estimate in 32 bits |
| `Contexts.FirstReachingIsFirst` | crates/aaos-runtime/src/context.rs:271-279 | the 32-bit running estimate is below the target before the chosen message and reaches it there |
| `Contexts.BoundaryReachesTarget` | crates/aaos-runtime/src/context.rs:267-285 | the boundary follows the message that reaches the target, moved off tool results, and falls back to the middle when that leaves nothing in front |
| `Contexts.BoundaryFallsBack` | crates/aaos-runtime/src/context.rs:281-285 | when no message reaches the target the boundary is the middle, moved off tool results |
| `Contexts.BoundaryExists` | crates/aaos-runtime/src/context.rs:267-285 | two or more messages without tool results always have a boundary |
| `Contexts.BoundaryNeverCutsAGroup` | crates/aaos-runtime/src/context.rs:267-337 | for all histories, size estimates and targets the boundary is in range, never strictly inside in front of a tool result, and leaves a grouped rest |
| `Contexts.FoldSummariesIntoPrompt` | crates/aaos-runtime/src/context.rs:233-262 | the loop drops the leading summaries and puts their texts before the prompt |
| `Contexts.PromptHoldsSummaries` | crates/aaos-runtime/src/context.rs:233-262 | the prompt sent ends with the configured one, in front of it the text of every leading summary in order, and it is unchanged when there is none |
| `Contexts.FoldRemovesLeadingOnly` | crates/aaos-runtime/src/context.rs:233-262 | no summary is left among the messages exactly when all summaries stood at the front |
| `Contexts.FoldKeepsConversation` | crates/aaos-runtime/src/context.rs:233-262 | folding loses nothing but summaries |
| `Contexts.CutPoint` | crates/aaos-runtime/src/context.rs:149-179 | the guarded choice of how much to summarise is nothing or a cut that separates no result from its call |
| `Contexts.TotalCharsAddUp` | crates/aaos-runtime/src/context.rs:60-64 | the size of a list of messages is the sum of theirs |
| `Contexts.CutFitsModel` | crates/aaos-runtime/src/context.rs:149-173 | the boundary for the target is used unless the text in front of it is estimated above nine tenths of the summarising model's window; then the boundary for seven tenths of it |
| `Contexts.CutExists` | crates/aaos-runtime/src/context.rs:149-179 | two or more messages without tool results always have a cut |
| `Contexts.SummaryExactlyWhenDue` | crates/aaos-runtime/src/context.rs:143-203 | a summary is made exactly when the history is over the threshold, there is a cut and the summarising model wrote a text; it then has that text and stands for exactly the messages in front of the cut |
| `Contexts.SummaryOf` | crates/aaos-runtime/src/context.rs:143-203 | a summary stands for exactly the archived prefix, ends at a safe cut and records its range |
| `Contexts.PrepareContext` | crates/aaos-runtime/src/context.rs:138-229 | a summary is returned exactly when one is due, with the model's text and the cut's prefix; otherwise the messages are the history without leading summaries; when summarising counts as failed, and what messages and prompt the model is shown |
| `Executors.RunTools` | crates/aaos-llm/src/executor.rs:617-649 | one result per call, in order, each with the call's id, the text its tool returned and whether that is an error |
| `Executors.RunWithHistory` | crates/aaos-llm/src/executor.rs:461-668 | the loop computes the run `Finish`, and its requests |
| `Executors.EveryRunIsDone` | crates/aaos-llm/src/executor.rs:506-666 | for every model: at most max(max_iterations, 1) calls, exact usage within the limit before every call; each request is the one before it, the answer, which stopped for tools, and at each index behind it what that call's tool returned; how each stop reason leaves the delta, the last round included |
| `Executors.RequestsAreGrouped` | crates/aaos-llm/src/executor.rs:620-653 | in every request, results stand behind their calls, calls have their results and summaries are absent, each exactly when that is so in the prior messages |
| `Executors.DeltaIsGrouped` | crates/aaos-llm/src/executor.rs:620-653 | what a run adds starts with the user's message, keeps results behind their calls and holds no summary |
| `Executors.DeltaIsAnsweredExactly` | crates/aaos-llm/src/executor.rs:563-653 | every call in what a run adds has its result exactly unless the run kept a final answer that holds calls; only that answer can lack results |
| `Executors.OpenCallStays` | crates/aaos-llm/src/executor.rs:563-598 | the failing family: an answer that holds a call and stops for any reason but tools leaves the call unanswered in the delta |
| `Executors.Run` | crates/aaos-llm/src/executor.rs:105-414 | the loop with nudges computes the run `Play`, and its requests |
| `Executors.EveryRunIsPlayed` | crates/aaos-llm/src/executor.rs:156-413 | for every model: at most max(max_iterations, 1) + commit_nudges calls, exact usage within the limit before every call, grouped growing requests, each continued by what the tool of each call returned or else by the nudge, completion only once all nudges are spent |
| `Executors.NudgedRequestIsAnsweredExactly` | crates/aaos-llm/src/executor.rs:247-385 | every call in a request of a run with nudges has its result exactly when no earlier response ended the turn with calls open |
| `SessionStores.DiskDuringReplace` | crates/aaos-runtime/src/session.rs:140-176 | both files and the directory entry after every call of a replacement |
| `SessionStores.ProcessStopDuringReplace` | crates/aaos-runtime/src/session.rs:140-176 | wherever the process stops, a restart loads the old history until the rename and the new one after it, synced or not |
| `SessionStores.MachineStopDuringReplace` | crates/aaos-runtime/src/session.rs:140-176 | for every disk and every point: after the machine stops a restart may load exactly what it might have loaded before the replacement began and, once the rename was made, the new history |
| `SessionStores.OldOrNewExactlyWhenSettled` | crates/aaos-runtime/src/session.rs:133-176 | a restart loads the old or the new history at every point, for every new history, exactly when the old one was settled: every line synced, in every file the name may denote |
| `SessionStores.OldOrNewExactlyWhenSynced` | crates/aaos-runtime/src/session.rs:133-176 | for a settled name and a non-empty new history it takes exactly that all lines of the old file were synced |
| `SessionStores.AppendUnsettles` | crates/aaos-runtime/src/session.rs:98-114 | an append syncs nothing: after it the machine may leave any number of the new lines, or no readable session |
| `SessionStores.ReplaceAfterAppendMayLoseBoth` | crates/aaos-runtime/src/session.rs:98-176 | the failing family: after an append, from the start of a replacement a restart may load neither history |
| `SessionStores.JsonlSessionStore.Load` | crates/aaos-runtime/src/session.rs:77-96 | no file is an empty history, an unreadable one an error |
| `SessionStores.JsonlSessionStore.Append` | crates/aaos-runtime/src/session.rs:98-114 | all lines are added, or those before the fault, none of them synced; the stored lines at every point |
| `SessionStores.JsonlSessionStore.Replace` | crates/aaos-runtime/src/session.rs:140-176 | the stored history is the new one, fully synced, or after a fault at any call the old one as it was; the disk at every point; a failed rename removes the temporary file; no demand on the old file |
| `SessionStores.JsonlSessionStore.ArchiveSegment` | crates/aaos-runtime/src/session.rs:178-189 | a segment is added, or none is and a part of a file may be left behind |
| `PersistentLoops.CompactionLaws` | crates/aaos-runtime/src/persistent.rs:130-133 | draining a prefix for a summary keeps the rest of the conversation, the groups and the summary at the front |
| `PersistentLoops.TrimLaws` | crates/aaos-runtime/src/persistent.rs:235-237 | trimming drops a prefix, keeps summaries at the front, and keeps groups whole exactly when it does not cut in front of a result |
| `NextTurns.NextRequestsAreGroupedExactly` | crates/aaos-runtime/src/persistent.rs:83-237 | the requests of the turn after a successful one keep results behind their calls exactly when trimming did not cut in front of a result or, with a context manager, the next turn makes a summary |
| `NextTurns.TrimmingOrphansAResult` | crates/aaos-runtime/src/persistent.rs:233-237 | the failing family: a memory of two messages and a model that calls a tool once make the next turn send a result without its call |
| `NextTurns.NextRequestsAreAnsweredExactly` | crates/aaos-runtime/src/persistent.rs:83-237 | the requests of the turn after a successful one answer every call exactly when the final answer left none open, nothing was kept, or the next turn summarises all of memory |
| `PersistentLoops.Compact` | crates/aaos-runtime/src/persistent.rs:83-209 | memory, shown messages and prompt, archives and disk after archive, drain and replace, and the disk at every point between, for every fault |
| `PersistentLoops.RequestsReflectShown` | crates/aaos-llm/src/executor.rs:486-515 | a summary, a result without its call, or a call without its results is in some request exactly when it is among the messages shown |
| `PersistentLoops.SpeechIsARun` | crates/aaos-runtime/src/persistent.rs:211-289 | a turn fails exactly when tools cannot be listed or the last answer is a failure, and else adds exactly what a run of the executor on the shown messages added |
| `PersistentLoops.Record` | crates/aaos-runtime/src/persistent.rs:233-247 | memory after extending and trimming, and the disk after the append or the part of it that was written |
| `PersistentLoops.HandleMessage` | crates/aaos-runtime/src/persistent.rs:70-289 | one message computes `TurnOf`, the disk and archives that go with it, and the disk at every point of the turn |
| `PersistentLoops.TurnKeepsLaws` | crates/aaos-runtime/src/persistent.rs:83-247 | every turn conserves the conversation, keeps summaries at the front, keeps results behind their calls exactly unless it trims in front of one, keeps calls with their results unless the answer left some open, and keeps the disk covering memory |
| `PersistentLoops.QuietTurn` | crates/aaos-runtime/src/persistent.rs:83-247 | a turn that is not due to summarise, or cannot archive, leaves the archives alone; memory ends as memory and the answer, trimmed, and the disk as it was followed by what was written of the answer |
| `PersistentLoops.SummarisingTurn` | crates/aaos-runtime/src/persistent.rs:91-247 | a turn that is due to summarise and can archive adds exactly the messages in front of the cut to the archives; memory ends as the summary with the model's text, the rest and the answer, trimmed; the disk likewise, if the replacement went through |
| `PersistentLoops.TurnAsksFirst` | crates/aaos-runtime/src/persistent.rs:83-215 | the first request of a turn: the rest behind the cut as soon as a summary is due, archived or not, otherwise all of memory, without leading summaries if the loop is managed, and the user's message |
| `PersistentLoops.TurnPromptHoldsSummary` | crates/aaos-runtime/src/persistent.rs:83-215 | the prompt of a turn ends with the configured one; in front of it stands the text of the summary that is due, or else the leading summaries of memory in order |
| `PersistentLoops.PersistentAgentLoop` | crates/aaos-runtime/src/persistent.rs:47-293 | the loop computes `AfterTurns` from what was loaded |
| `PersistentLoops.EveryRunKeepsLaws` | crates/aaos-runtime/src/persistent.rs:47-293 | over all runs with all failures: conservation, summaries only at index 0 of memory and disk and in no request of a managed loop, results behind their calls unless trimming parted one, calls with their results unless an answer left some open, and memory recoverable from disk unless an append failed |
| `PersistentLoops.TranscriptOfRun` | crates/aaos-runtime/src/persistent.rs:91-237 | untrimmed, the archives followed by memory are exactly the loaded conversation and every delta; trimmed, memory is still a suffix of it |
| `Restarts.EveryPointKeeps` | crates/aaos-runtime/src/persistent.rs:91-247 | wherever the process stops inside a turn, archives and disk still end with all that memory held as the turn began, perhaps followed by the beginning of what was said; the order on disk is kept |
| `Restarts.EpisodeRecovers` | crates/aaos-runtime/src/persistent.rs:47-293 | after a session whose appends went through, stopped anywhere, archives and disk end with the conversation it held |
| `Restarts.EveryLifeKeepsLaws` | crates/aaos-runtime/src/persistent.rs:47-293 | over any number of sessions in a row, each stopped anywhere and reloaded if readable, no summary reaches a managed model and no result reaches it without its call unless trimming parted them |
| `Admission.AdmissionIsExact` | crates/aaos-runtime/src/registry.rs:23-154 | in every interleaving the counter is the agents plus the reservations and removals in between, the table stays within the limit, no decrement wraps, and quiescent the counter is the table's size |
| `Admission.StopsDecrementOnce` | crates/aaos-runtime/src/registry.rs:137-263 | however many tasks stop an agent, each insertion is removed at most once and each removal decrements once |
| `Admission.RefusedExactlyWhenFull` | crates/aaos-runtime/src/registry.rs:87-112 | a spawn within the depth limit is refused exactly at a moment when every slot is owned |
| `Admission.DeepSpawnIsRefused` | crates/aaos-runtime/src/registry.rs:494-499 | a spawn deeper than five is refused whatever the state |
| `Admission.FailedExchangeTakesNothing` | crates/aaos-runtime/src/registry.rs:87-112 | an exchange that fails, spuriously or because the counter moved, takes no slot |
| `Admission.SpawnSucceedsExactly` | crates/aaos-runtime/src/registry.rs:87-154 | an undisturbed spawn adds the agent and takes a slot exactly when it is not too deep, a slot is free and the agent is not there yet; otherwise it changes neither |
| `Admission.StopSucceedsExactly` | crates/aaos-runtime/src/registry.rs:137-263 | an undisturbed stop takes the agent out and frees its slot |
| `Budgets.ExactExactlyWhenSumsFit` | crates/aaos-core/src/budget.rs:54-103 | the counter equals the tokens accepted since the last clearing and stays within the limit in all interleavings, exactly when the limit plus the largest call fits in 64 bits |
| `Budgets.SumThatWraps` | crates/aaos-core/src/budget.rs:59-66 | the run that breaks it otherwise: the call is accepted and the counter restarts from zero |
| `Budgets.FailedExchangeAcceptsNothing` | crates/aaos-core/src/budget.rs:54-77 | an exchange that fails, spuriously or because the counter moved, accepts nothing |
| `Budgets.BudgetTracker.constructor` | crates/aaos-core/src/budget.rs:43-51 | an empty counter with both clocks at the present |
| `Budgets.BudgetTracker.Reset` | crates/aaos-core/src/budget.rs:98-103 | clears the counter and moves both clocks |
| `Budgets.BudgetTracker.TryReset` | crates/aaos-core/src/budget.rs:105-140 | the gated reset, through any number of spurious exchange failures |
| `Budgets.BudgetTracker.Track` | crates/aaos-core/src/budget.rs:54-77 | a call is accepted exactly when the sum after a due reset is within the limit, and then counted |
| `Budgets.SpanIsBounded` | crates/aaos-core/src/budget.rs:54-140 | calls within any span of n seconds, whatever came before, are granted at most (n / period + 2) budgets |
| `Budgets.NoPeriodNoReset` | crates/aaos-core/src/budget.rs:105-108 | without a period all grants together are the counter and within one budget |
| `Budgets.PeriodRestoresBudget` | crates/aaos-core/src/budget.rs:105-140 | after a period, a call is accepted exactly when it fits the limit by itself |
| `Budgets.CallAddsToUse` | crates/aaos-core/src/budget.rs:54-140 | before a reset is due, a call is accepted exactly when it fits on top of what is used, and is then added to it |
| `Demux.CallersGetTheirOwnReply` | crates/aaos-backend-linux/src/broker_session.rs:206-582 | with at most 900 older ids, in every interleaving each caller is resolved at most once, by the answer to its own frame or the loss notice, and the table is exactly the waiting invocations |
| `Demux.ReplyReachesItsCaller` | crates/aaos-backend-linux/src/broker_session.rs:314-336 | the answer to an invocation goes to its caller if it still waits and to nobody otherwise |
| `Demux.AnswerReachesItsAsker` | crates/aaos-backend-linux/src/broker_session.rs:314-345 | the answer to a ping or poke goes to its caller if it still waits and to nobody otherwise |
| `Demux.WorkerAnswersFrames` | crates/aaos-backend-linux/src/worker.rs:228-315 | the worker answers the oldest frame under its id, and a push not at all |
| `Demux.WrittenFrameIsSent` | crates/aaos-backend-linux/src/broker_session.rs:475-582 | a caller has its table entry before its frame is on the wire |
| `Demux.ExitTellsEveryWaiter` | crates/aaos-backend-linux/src/broker_session.rs:355-367 | when the reader ends every waiting invocation gets the loss notice, both tables are empty and nothing is routed any more |
| `Demux.OverlapMisroutes` | crates/aaos-backend-linux/src/broker_session.rs:206-336 | after 900 older ids a ping's answer can be handed to an invocation |
| `Demux.SafeExactlyUpTo` | crates/aaos-backend-linux/src/broker_session.rs:206-582 | for every n, all runs with at most n older ids are safe exactly when n is at most 900 |
| `Handshake.ConfinementPrecedesWork` | crates/aaos-backend-linux/src/lib.rs:389-500 | in every run with failures anywhere: transport installed only with full confinement, every tool call confined, and the stream to the broker empty when its buffered reader is discarded |
| `Handshake.ConfinementInOrder` | crates/aaos-backend-linux/src/worker.rs:144-169 | no filter is in force without what it relies on, not even in a worker that gave up |
| `Handshake.NoLineIsUnexpected` | crates/aaos-backend-linux/src/lib.rs:412-489 | the broker never rejects a line of its worker |
| `Handshake.FailureIsFinal` | crates/aaos-backend-linux/src/lib.rs:389-500 | a peer with other credentials, or a launch that fails on the broker's side, is abandoned for good, and a worker that failed serves nothing any more |
| `Handshake.LaunchSucceedsWithoutFailure` | crates/aaos-backend-linux/src/worker.rs:86-142 | when nothing fails the transport is installed and a tool call is served |
| `Visibility.ExtractCapabilityRoots` | crates/aaos-backend-linux/src/lib.rs:106-152 | the loop computes the roots of the declarations that have one, in order |
| `Visibility.GrantsAreSeen` | crates/aaos-runtime/src/registry.rs:580-596 | whatever the padding, a file grant is seen by the sandbox builder with the glob it was issued for |
| `Visibility.GrantIsIssued` | crates/aaos-runtime/src/registry.rs:580-596 | a file declaration is issued for the trimmed text behind its colon |
| `Visibility.RootIsAbove` | crates/aaos-backend-linux/src/lib.rs:120-142 | the root of a well-formed glob is a component prefix of every path the glob matches |
| `Visibility.RootIsDirectory` | crates/aaos-backend-linux/src/lib.rs:120-142 | for every well-formed glob the root is the directory it stands for: the directory of a directory glob, the containing directory of a single path, and with a brace what is in front of the component with the brace |
| `Visibility.RootContainsPath` | crates/aaos-backend-linux/src/lib.rs:120-142 | for a single path without braces the root is its components but the last |
| `Visibility.RootIsLowest` | crates/aaos-backend-linux/src/lib.rs:120-142 | for a directory glob without braces the root is its directory, the lowest one above everything the glob matches |
| `Visibility.VisibilityCoversAuthority` | crates/aaos-backend-linux/src/lib.rs:106-152 | every path a well-formed grant matches is beneath the workspace or a policy root, unless the directory the grant stands for is `/` or missing |
| `Visibility.VisibleExactlyWhenRootIsKept` | crates/aaos-backend-linux/src/lib.rs:1017-1056 | with one grant and no workspace, visible exactly when the directory the grant stands for is neither `/` nor missing, or the path is in the scratch or shared library directories of the policy |
| `PendingTable.NoLeakedWaiters` | crates/aaos-runtime/src/services.rs:226-277 | in every interleaving an entry exists exactly while its call is in progress and unclaimed, so none outlives its call, and each call hears at most one reply, to its own message |
| `PendingTable.ReplyIsHeard` | crates/aaos-ipc/src/router.rs:133-154 | a responder that finds the entry of a call in progress makes that call hear exactly its reply, and the entry is gone |
| `PendingTable.SenderTaken` | crates/aaos-ipc/src/router.rs:133-154 | taking a sender out of the table keeps this, and nobody else holds that sender |

## Left out

- Real symlink resolution and pinned file descriptors: paths are matched after lexical normalisation, the fallback in the code.
- Restarts.EveryLifeKeepsLaws: the sessions in a row are stopped by the process ending; what a stop of the machine leaves is stated for the store alone.
- Cascading revocation to narrowed children and quota shared between parent and child: the code has neither.
- CapabilityRegistries.CapabilityRegistry.Insert: drawing the handle and storing the entry are one step, and the 64-bit handle counter does not wrap.
- SessionStores.JsonlSessionStore.Append: a process that stops in the middle of a line leaves a file that cannot be read, which the next load meets as an error; the line itself is not modelled.
- SessionStores.JsonlSessionStore.ArchiveSegment: archive files are taken to last; their syncing, loading and pruning are not modelled.
- Contexts.PrepareContext: the threshold verdict and the target of forty per cent are computed in floating point, and the text handed to the summarising model is a rendering of the messages; both are parameters.
- Executors.RunWithHistory: token sums and the iteration count are unbounded integers, and the response text returned beside the transcript is not modelled.
- Executors.Run: as above; a system prompt that cannot be read ends the run like tools that cannot be listed.
- PersistentLoops.HandleMessage: audit events, the reply sent to the caller and the throttling of error reports are not modelled.
- PersistentLoops.PersistentAgentLoop: stop commands and clearing the session on exit are not modelled; the run ends with the last message.
- Admission.AdmissionIsExact: a slot committed without an insert by outside batch code, and the router and capability entries left by a refused duplicate, are not modelled.
- Budgets.SpanIsBounded: forced resets and resets stalled between two tasks are excluded, as one call runs at a time there.
- Demux.CallersGetTheirOwnReply: dropped invocation futures, requests made while not connected, and the wrap of the 64-bit id counters are not modelled.
- Handshake.ConfinementPrecedesWork: namespaces, mounts, the Landlock and seccomp rule sets and the readiness timer are single steps that succeed or fail.
- Visibility.VisibilityCoversAuthority: the policy's roots are a set; their order in the list is not modelled.
- The other parsing in capability declarations, provider clients, JSON encoding, MCP, skills, the dashboard, supervision and back-off: plumbing, or easy members.
