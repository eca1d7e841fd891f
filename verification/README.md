# Verified model of the assistant's core

This project models the parts of the HIKARI assistant that are small state machines or algorithms, and
proves what they promise. Code that changes state is modelled by classes and methods proved against
specifications over values; the laws are lemmas about those specifications.

- **Conversation memory** (`ConversationContext`, `ConversationPacket`, `ConversationScopes`,
  `ConversationOutcome`, `ConversationSessions`, `ConversationMemory`, `ConversationRuns`, `ConversationLimits`,
  with `Text`, `Digest`, `Ranking`, `ToolSlots`).
  A scope's state refines its whole history: the last 256 turns whole, the 512 before them cut, and a
  digest that is the longest suffix of all evicted lines that fits in 12,000 characters. Composition picks
  the eight newest and the four best matching turns. The ledger restores 768 turns and searches the rest,
  so window and search divide the history. A run between two bindings of a session, in which anyone may speak
  and a guest may be at the microphone at either binding, is exact about both stores. The turns of one scope, and the
  packet composed from them, never depend on another's operations.
- **Grants, policy, audit and document egress** (`ActionPolicy`, `Grants`, `ActionAudit`, `PolicyService`,
  `TaskStore`, `Router`, `FlowTrace`, `FlowBooks`, `FlowAudit`, `FlowLimits`, `DocumentService`). Every grant
  store carries the log of what it issued, revoked and spent; every document flow carries the trace of its
  decisions, file reads, provider contacts and settlements. A task may be cancelled before any access to the
  task store, and any access to grants or audit may raise an error, caught by the flow or not.
- **Knowledge graph** (`Traversal`, `KnowledgeGraph`). The queue with duplicates computes shortest-path
  distances over the graph that the edge list describes.
- **Edit distance** (`EditDistance`). The two-row loop against the shortest chain of single-character edits.
- **Runtime home** (`RuntimeSetup`). Creation with undo, and a checked inverse, on a map from paths to nodes.
- **Protocol frames** (`Protocol`, `FrameSchema`, `Frames`, `Correlation`). The recursive schema interpreter
  against a conformance relation, the builders against the interpreter, and the replay window.
- **Speaker score** (`Cosine`, `SpeakerAuth`). Cosine similarity over the reals and the decision built on it.

Tokenising, whitespace compaction, case folding, hashing, scrubbing, the square root, path resolution,
Unicode classes, clocks, identifiers, file contents and provider replies are parameters. What is assumed of
them is stated where they are introduced: canonicalisation is idempotent, generated identifiers are well formed (a store
refuses one that is taken), scrubbed text starts with no whitespace and holds no NUL, nothing is left of a
blank text, and the root of a non-negative number squares to it. That these can be met is shown by
`DocumentService.ConfirmFromScratch`, `FlowLimits.CalmFlowExplains`, `ConversationMemory.StrippingIsTidy`,
`ConversationLimits.AnyAppendsMayFail`, `ConversationLimits.StrippingPasses` and `ActionAudit.FreshIdsExist`.

## Where the code does not keep its promise

Each is stated with the exact condition under which the promise holds, and where no single case is obvious
with a concrete input that breaks it.

- A turn whose ledger append failed is lost once it has left the window, and while it is in the window the
  newest turn before the window is lost instead, because the search skips the 768 newest *appended* turns.
  Nothing is lost exactly while the run is no longer than the window or every append succeeded
  (`ConversationLimits.LostExactlyWhenAppendFailed`; of appended turns alone `GapExactlyWhenAppendFailed`).
- The engine keeps what was said and the ledger keeps the scrubbed text, so a restart shows what was said
  exactly when scrubbing changes nothing shown (`ConversationRuns.ConverseAndRestart`); a credential is an
  input on which it does not (`ConversationLimits.ScrubbedCredentialShows`).
- Binding a session restores its rows into the stream of the local owner's context, and while a guest is at the
  microphone that is the guest's. The guest is then told the owner's turns, the owner's stream is empty, and the
  search still skips the 768 newest rows. When the owner's stream is empty before, the two stores are in step
  exactly when no guest is at the microphone or the ledger is empty (`ConversationMemory.InStepAfterBinding`), and
  under the same condition no guest holds a row (`ConversationMemory.GuestHoldsRowsExactlyWhen`);
  `ConversationLimits.GuestIsHandedOwnerTurn` is such an input.
- The session is bound and the previous one cleared before the rows are loaded, so when loading raises the new
  session stays bound with nothing restored (`ConversationMemory.Memory.Configure`).
- A restart shows what was said only if no row from before comes in that the first binding left out
  (`ConversationRuns.RestartShowsWhatWasSaid`).
- A packet with search results in front may exceed the 24 messages the validator reads, and then the newest
  turns are dropped (`ConversationMemory.MergedReachesProvider`).
- A grant is spent before its audit row is written. When that write raises, the use is lost without any
  record; none is lost exactly when every call that spent a grant returned
  (`PolicyService.PolicyService.IssuedUsesAreAccounted`).
- The flow catches some errors of an audit write and not the database's own. An uncaught one in the closing
  loop leaves the later decisions unsettled. With n decisions open when that loop begins, one is settled at each
  instant from there on, and each decision of the flow is settled exactly once if and only if no access at the
  first n - 1 of these instants raises (`DocumentService.DocumentService.Generate`);
  `FlowLimits.RaisedSettlementLeavesOpen` is a run that breaks it.
- An uncaught error of an audit write in the router's callback is taken for a refusal and goes unnoticed. At
  completion all settlements are written exactly when the database worked at the instant of each
  (`FlowAudit.CompletedIsWrittenUnlessRaised`); `FlowLimits.RaisedRefusalIsOverlooked` is a run that completes
  although one was not.
- A result names the providers contacted, except that it names none when a provider call raised or the task was
  not found running in the end; exactly then a contact goes unreported (`DocumentService.DocumentService.Generate`).
- A cancellation between the look and the write of another cancellation makes the second report an invalid
  state although the task is cancelled (`TaskStore.TaskStore.CancelTask`).
- Two guests at the microphone whose labels agree in their first 64 characters share one stream
  (`ConversationMemory.StreamsAreShared`).
- The digest and the numbering survive a restart exactly up to 768 turns
  (`ConversationMemory.RestartRestoresWholeState`).
- The legacy sanitiser updates by audit identifier, so a row whose identifier is NULL is never repaired
  (`ActionAudit.SecondPass`, `ActionAudit.UnkeyedRowEscapes`).
- The frame builders let tabs, line breaks and many format characters through; the validator refuses them
  (the `…IsAcceptedWhenClean` lemmas, `Frames.TabIsBuiltAndRejected`). The specification of the elapsed time
  names a minimum that the interpreter never looks at for numbers; the model follows the interpreter.

## Model

| member | source | states |
|---|---|---|
| EditDistance.EditDistance | hikari.py:1351-1364 | The two-row loop returns the length of a shortest chain of single-character insertions, deletions and substitutions from one string to the other: some chain has that length and none is shorter |
| EditDistance.DistanceIsLeastEdits | hikari.py:1351-1364 | The recurrence the loop follows is the least number of edits anywhere in the string, not only at its end |
| EditDistance.ShortestChain | hikari.py:1356-1362 | Some chain of edits reaches the distance |
| EditDistance.ChainMovesByItsLength | hikari.py:1356-1362 | No chain of edits is shorter than the distance |
| EditDistance.EditMovesByOne | hikari.py:1358-1361 | One edit anywhere changes the distance to any third string by at most one |
| EditDistance.Symmetric | hikari.py:1351-1364 | The distance is the same both ways |
| EditDistance.Triangle | hikari.py:1351-1364 | The triangle inequality |
| EditDistance.ZeroExactlyOnEqual | hikari.py:1351-1364 | Zero exactly on equal strings |
| EditDistance.BetweenLengths | hikari.py:1351-1364 | At least the difference of the lengths, at most the longer length |
| Traversal.FirstPopIsDistance | core/knowledge_graph.py:214-217 | The first time a node is taken from the queue unvisited, its depth is its shortest-path distance, duplicates at other depths notwithstanding |
| Traversal.InvAfterVisit | core/knowledge_graph.py:218-232 | Visiting a node and queueing its unvisited neighbours keeps the queue on two consecutive levels, every entry reachable at its depth, and every visited node's neighbours covered |
| Traversal.EmptyQueueIsComplete | core/knowledge_graph.py:213-234 | When the queue is empty, every node within the bound is visited at its distance |
| KnowledgeGraph.KnowledgeGraph.AddNode | core/knowledge_graph.py:100-118 | Updates or creates exactly one node; an update keeps its connections and merges its properties |
| KnowledgeGraph.KnowledgeGraph.AddEdge | core/knowledge_graph.py:120-147 | Appends one edge, creates missing ends as concepts titled after their names and without properties, changes no other node's description, and keeps every connection map an index of the edge list |
| KnowledgeGraph.KnowledgeGraph.FindRelated | core/knowledge_graph.py:202-234 | Exactly the nodes other than the start within the depth bound, each once, labelled with its shortest-path distance, nearest first; nothing for an unknown start |
| KnowledgeGraph.KnowledgeGraph.ConnectionsIndexEdges | core/knowledge_graph.py:143-145 | A node's map has a key exactly when an edge joins the two, with the weight of the last such edge |
| KnowledgeGraph.KnowledgeGraph.ConnectionsAreSymmetric | core/knowledge_graph.py:143-145 | Two nodes list each other with one weight, and every key is a node |
| KnowledgeGraph.KnowledgeGraph.ConnectionsAreEdgeGraph | core/knowledge_graph.py:229-232 | Following the maps is following the graph of the edge list, which is closed: no missing node is looked up |
| Text.BoundedTwice | core/conversation_context.py:57-61 | Bounding a bounded text again only drops trailing whitespace |
| Text.JoinedPartsAreFound | core/conversation_context.py:291-300 | Lines joined by a separator none of them holds are found again by splitting |
| Digest.LongestSuffixIsUnique | core/conversation_context.py:352-360 | A list of lines has one longest suffix within a limit |
| ConversationContext.SessionState.AppendDigest | core/conversation_context.py:352-360 | After one more line the digest is the longest suffix of all lines within 12,000 characters, its counter is its total, and trimming never empties it |
| ConversationContext.CompactTurnTells | core/conversation_context.py:362-367 | A line of the digest starts with the number of its turn, then both compacted sides, and is cut at 360 characters |
| ConversationContext.SessionState.Record | core/conversation_context.py:168-187 | One recorded turn takes the state of a history to the state of the history with that turn: window, archive, digest, counter and numbering |
| ConversationContext.FieldsAreDetermined | core/conversation_context.py:129-139 | The history determines every field of the state |
| ConversationContext.ConversationContextEngine.State | core/conversation_context.py:153-154 | A scope gets one state of its own, made on first use |
| ConversationContext.ConversationContextEngine.RecordTurn | core/conversation_context.py:156-187 | The recorded step of exactly one scope; nothing when both texts are empty |
| ConversationContext.ConversationContextEngine.NoteTool | core/conversation_context.py:189-214 | The tool step of exactly one scope, under the case-folded bounded kind; nothing when that is empty |
| ToolSlots.KeptSlotsAreLeast | core/conversation_context.py:198-208 | The slots kept are the twelve least of those whose bounded key and value are both non-empty, in order |
| ToolSlots.UsableExactlyWhen | core/conversation_context.py:198-206 | A slot is usable exactly when it is a given one whose key and value are not empty once they are bounded |
| ConversationContext.ConversationContextEngine.Clear | core/conversation_context.py:307-309 | Drops exactly one scope |
| ConversationContext.ConversationContextEngine.RestorePairs | core/conversation_context.py:311-328 | Replaces one scope by the last 768 pairs replayed, or drops it at a malformed pair |
| ConversationContext.ConversationContextEngine.ClearActorSession | core/conversation_context.py:330-338 | Drops every scope of one actor and session, and only those |
| ConversationContext.ConversationContextEngine.ClearGuestScopes | core/conversation_context.py:340-350 | Drops the guest scopes of one actor and session, and only those |
| ConversationScopes.ScopesDoNotInterfere | core/conversation_context.py:142-350 | After any run of operations over many scopes, one scope's turns and tools are those of the run restricted to the operations that touch it |
| ConversationScopes.TurnsComeFromTheirScope | core/conversation_context.py:156-187 | Every turn a scope holds was put there by a record or restore of that scope |
| ConversationScopes.GuestsNeverSeeOwnerTurns | core/conversation_context.py:340-350 | A guest scope never holds what was recorded or restored for a scope that is not a guest's |
| ConversationPacket.VisibleIsTheLastTurns | core/conversation_context.py:168-187 | Exactly the last 768 turns are visible, in order, the newest 256 of them uncut |
| ConversationPacket.Select | core/conversation_context.py:252-271 | The four best older turns under overlap then recency, merged with the recent ones without repeats and in order |
| ConversationPacket.MatchesMissNothing | core/conversation_context.py:256-261 | Every older turn that shares a token is scored |
| ConversationPacket.FillBudget | core/conversation_context.py:273-289 | The messages are the non-empty parts of the transcript, cut at the budget and ended there |
| ConversationPacket.BudgetedContents | core/conversation_context.py:273-289 | The message contents run together are exactly the first 24,000 characters of the transcript |
| ConversationPacket.Compose | core/conversation_context.py:240-305 | The packet of a scope follows from that scope's history: eight newest, four best older, budgeted messages, the last covered number, and a digest that is the last 12,000 characters of the evicted lines and then the lines, in order, of the newest twelve turns or fewer of the exact window that were not selected, none outside newer than one inside |
| ConversationPacket.TranscriptOfBoth | core/conversation_context.py:273-289 | The transcript is spoken turn by turn, what the user said before what was answered |
| ConversationPacket.UnchosenTail | core/conversation_context.py:291-299 | The unselected turns before the recent ones, cut to the last twelve, are that tail |
| ConversationPacket.ValidateConversationMessages | core/conversation_context.py:370-395 | At most 24 items are looked at; one improper item rejects all; each kept content is bounded by what remains |
| ConversationPacket.ValidatorKeepsAll | core/conversation_context.py:370-395 | Within the budget every sendable message is kept, in order, minus trailing whitespace |
| ConversationPacket.ValidatorShortens | core/conversation_context.py:370-395 | Within the budget every message that starts with no whitespace is kept in order, without trailing whitespace and cut at 8,000 characters |
| ConversationPacket.ReachesProviderExactlyWhen | core/conversation_context.py:370-395 | Such messages arrive whole exactly when there are at most 24 and none is longer than 8,000 characters; otherwise the first 24 arrive, shortened |
| ConversationPacket.PacketReachesProvider | core/conversation_context.py:273-305 | A composed packet has at most 24 messages, carries exactly the first 24,000 characters of its selection, and passes the validator whole up to trailing whitespace |
| ConversationOutcome.BestIsDetermined | core/conversation_context.py:262-267 | Two choices of the best few hold the same turns, whatever order or algorithm found them |
| ConversationOutcome.PacketIsDetermined | core/conversation_context.py:240-305 | A history and a question determine the packet: selection, messages, digest and covered number, from what each is said to be and not from how it is found |
| ConversationOutcome.PacketsDoNotInterfere | core/conversation_context.py:142-350 | After any run over many scopes a scope's packet is the packet of the run restricted to that scope |
| ConversationOutcome.SearchIsDetermined | core/conversation_sessions.py:487-490 | The rows searched and the query determine the rows found and their order |
| ConversationSessions.ConversationSessionStore.Create | core/conversation_sessions.py:245-273 | Succeeds exactly when owner and title are acceptable and one of the first four generated identifiers is unused after only well-formed ones; it then takes the first such, for that owner and nobody else, and otherwise changes nothing |
| ConversationSessions.ConversationSessionStore.AppendTurn | core/conversation_sessions.py:336-390 | Succeeds exactly when identifiers and texts are acceptable and the session is the owner's and open: one cleaned row numbered after the last, and the title taken from the first turn while it is the default; a failure changes nothing |
| ConversationSessions.ConversationSessionStore.LoadTurns | core/conversation_sessions.py:392-429 | The newest rows in conversation order; nothing for another owner |
| ConversationSessions.ConversationSessionStore.SearchRelevantTurns | core/conversation_sessions.py:431-502 | Exactly when it answers rather than raises, and the answer: the best matches of the cleaned query among the rows older than the excluded newest ones, in conversation order |
| ConversationSessions.ConversationSessionStore.SetArchived | core/conversation_sessions.py:517-549 | True exactly for the session's owner, whose call flips that one flag and touches no row |
| ConversationSessions.ConversationSessionStore.Delete | core/conversation_sessions.py:551-563 | True exactly for the session's owner, whose call removes that session with its rows |
| ConversationMemory.RecordedPairsAreSpoken | core/conversation_context.py:319-328 | Recording pairs one by one gives the history that consists of those pairs, numbered from one |
| ConversationMemory.StreamsAreShared | core/orchestrator.py:542-559 | Two callers share a stream exactly when they act for one actor in one session on the same side, and at the microphone as the owner or as guests whose labels agree in their first 64 characters |
| ConversationMemory.RestoredIsSpoken | core/conversation_context.py:311-328 | Restoring gives the history that consists of the last 768 pairs |
| ConversationMemory.RestartRestoresWholeState | core/conversation_context.py:129-139 | The whole state, digest and numbering included, agrees exactly when the history has at most 768 turns |
| ConversationMemory.InStepAfterTurn | core/orchestrator.py:491-519 | A turn that is recorded and appended keeps engine and ledger in step |
| ConversationMemory.InStepAfterBinding | core/orchestrator.py:464-486 | Binding a session whose owner has no context yet leaves engine and ledger in step exactly when no guest is at the microphone or the ledger is empty |
| ConversationMemory.GuestHoldsRowsExactlyWhen | core/orchestrator.py:464-486 | Binding a session puts rows of the ledger into a guest's stream exactly when a guest is at the microphone and there are any |
| ConversationMemory.WindowAndSearchDivideHistory | core/conversation_sessions.py:463-490 | Every row is either searchable or recalled by one visible turn, never both: the visible turns recall in order the rows after the searchable ones |
| ConversationMemory.FoundAndSelectedAreDistinct | core/orchestrator.py:588-618 | A row found by search always precedes the row of every selected turn, and neither list repeats a turn |
| ConversationMemory.MergedFits | core/orchestrator.py:600-618 | Found and composed messages together stay within 24,000 characters |
| ConversationMemory.MergedReachesProvider | core/orchestrator.py:600-618 | The merged packet reaches the provider whole, up to trailing whitespace, exactly when it has at most 24 messages and none longer than 8,000 characters |
| ConversationMemory.Memory.Configure | core/orchestrator.py:464-486 | Succeeds exactly for an open session of the owner whose rows can be loaded; then every scope is as after clearing the previous session and restoring the newest 768 rows into the stream of the local owner's context, which is a guest's while one is at the microphone. When all streams of the session are empty by then, as when it is bound again, both stores are in step and no guest holds a row exactly when no guest is there or the ledger is empty. When loading raises, the session stays bound and cleared; any other refusal changes nothing |
| ConversationMemory.Memory.ProcessTurn | core/orchestrator.py:656-666 | A turn is recorded in its own scope always, and appended exactly when it is the bound owner's and the ledger accepts it; a linked pair of stores stays linked after an appended turn and after any turn in another scope |
| ConversationMemory.Memory.PersistTurn | core/orchestrator.py:491-519 | Adds exactly one row with the scrubbed texts to the bound session, exactly when actor, scope and session are the bound owner's and the ledger accepts the turn |
| ConversationMemory.Memory.Merge | core/orchestrator.py:588-618 | Exactly what a search for this text finds goes in front of the composed packet as far as the one budget allows, and repeats none of its turns |
| ConversationMemory.Memory.ConversationPacket | core/orchestrator.py:566-618 | The composed packet, preceded by what a search for this text finds exactly for the bound owner outside profile summaries; no turn twice, within the budget |
| ConversationRuns.Converse | core/orchestrator.py:464-519 | After binding a session, with or without a guest at the microphone and whether or not its rows could be loaded, and any run of utterances by anyone: the owner's stream is what the binding left in it followed by what the owner said in the session, and the ledger holds a row, in order, for exactly those of them that were appended |
| ConversationRuns.ConverseAndRestart | core/orchestrator.py:464-519 | Binding the session again after a run all of whose turns were appended shows what was said exactly when scrubbing changed nothing shown of it and no row left out before comes in; a second binding with a guest at the microphone, or whose rows cannot be loaded, leaves the owner's stream empty |
| ConversationRuns.RestartShowsWhatWasSaid | core/conversation_sessions.py:123-133 | The same of the rows: exact and cut turns read alike before and after, in the same order, exactly under that condition |
| ConversationRuns.RestoredShows | core/conversation_context.py:311-328 | Restoring one list of pairs shows what speaking another left exactly when the last 768 read alike up to the limit at which each is shown |
| ConversationLimits.LostExactlyWhenAppendFailed | core/conversation_sessions.py:463-490 | Some turn of a run is neither visible nor searchable exactly when the run is longer than 768 turns and some append failed |
| ConversationLimits.AnyAppendsMayFail | core/orchestrator.py:491-519 | Appends may fail at any turns: every pattern of failures is that of some run |
| ConversationLimits.GapExactlyWhenAppendFailed | core/conversation_sessions.py:463-490 | Some appended turn is neither visible nor searchable exactly when a visible turn missed its append and an appended turn is no longer visible |
| ConversationLimits.GapAfterOneFailedAppend | core/conversation_sessions.py:463-490 | Of 769 turns of which only the second was not appended, the first is lost |
| ConversationLimits.NeverHeldAndSearched | core/conversation_sessions.py:463-490 | Failed appends never make a visible turn searchable as well |
| ConversationLimits.ScrubbedCredentialShows | core/conversation_sessions.py:26-133 | Under any rules that replace this credential, a run in which it was said shows something else after a restart |
| ConversationLimits.GuestIsHandedOwnerTurn | core/orchestrator.py:464-486 | A ledger with one question of the owner, bound with a guest at the microphone: every packet composed for the guest has the question and the answer, the owner's stream is empty, and the stores are out of step |
| Grants.GrantStore.Issue | core/grants.py:99-169 | Exactly the well-formed terms are issued, as one unspent row on the canonical resource |
| Grants.GrantStore.Revoke | core/grants.py:171-177 | Marks exactly the named grant; tells whether it exists |
| Grants.GrantStore.Consume | core/grants.py:179-236 | Spends exactly when actor, session, action, canonical resource, destination and task match an unexpired, unrevoked, unspent grant; every refusal names a true reason and changes nothing |
| Grants.SpentIdsAreDistinct | core/grants.py:211-236 | Over any interleaving of issue, revoke and consume no grant backs two uses |
| Grants.GrantStore.IssuedUsesAreConserved | core/grants.py:99-236 | Issued uses are the remaining ones plus the spent ones, grant by grant |
| PolicyService.PolicyService.Evaluate | core/policy_service.py:77-150 | Decides exactly as policy and a matching grant where one is needed require, spends that grant exactly when it allows, and gives a reason that is true of the request: "allowed" exactly for an allowance, "grant_required" exactly for a confirmation, and for a denial the first check that fails or what is wrong with the grant |
| PolicyService.PolicyService.Authorize | core/policy_service.py:77-158 | The outcome both ways with a true reason, the grant spent exactly with a grant-backed allowance, and one audit row describing the request, the decision and its reason; when the row cannot be written the call raises, no row is added, and a spent grant is lost |
| PolicyService.AllowedExactlyWhen | core/policy_service.py:34-157 | Action by action, with which parts and for whom a request is allowed: the help at once, everything else exactly on an unspent grant for this very use; confirmation is asked for exactly where only the naming of a grant is missing |
| PolicyService.ReasonSettlesOutcome | core/policy_service.py:77-179 | A reason that is true of a request settles its outcome: no request has a true reason for two outcomes |
| PolicyService.PolicyService.Record | core/policy_service.py:181-216 | Writes the request's actor, action, task and destination, each malformed one replaced, with resource reference, outcome and reason; fails exactly when the database refuses the row |
| PolicyService.ReasonsAreIdentifiers | core/policy_service.py:161-179 | Every reason the service gives is one the audit store accepts |
| ActionPolicy.AllowedExactlyWhen | core/action_policy.py:87-134 | Exactly what the policy allows and what it wants confirmed: a guest reads what is not private, the owner reads anything and confirms what is neither destructive nor privileged |
| PolicyService.NamesTell | core/policy_service.py:157 | In an audit row the names of outcome and reason tell an allowance, a confirmation and a denial apart |
| PolicyService.PolicyService.EachGrantBacksOneAllowance | core/policy_service.py:77-158 | Over any run of calls each grant backs at most one allowance, was spent on the very terms and at the instant of that request, and was issued earlier on these terms, unexpired and not revoked before |
| PolicyService.PolicyService.IssuedUsesAreAccounted | core/policy_service.py:120-158 | Over any run of calls the issued uses are the unspent ones, those behind returned allowances and those lost in calls that raised; none is lost exactly when every call that spent a grant returned |
| ActionAudit.ActionAuditStore.RecordDecision | core/action_audit.py:216-268 | Appends one sound row exactly when every part is well formed and the identifier is new |
| ActionAudit.ActionAuditStore.RecordResult | core/action_audit.py:270-291 | Sets the result of exactly the row with that identifier and of no other |
| ActionAudit.ActionAuditStore.WrittenRowsAreSound | core/action_audit.py:216-291 | Every row the store wrote is a fixed point of the sanitiser |
| ActionAudit.SanitizedIsSound | core/action_audit.py:134-192 | Sanitising makes a row sound, and sound rows are exactly its fixed points |
| ActionAudit.SanitizedCells | core/action_audit.py:134-192 | Each well-formed cell is kept, and each malformed one gets its own fallback: an outcome is denied, an actor unknown, an optional part dropped |
| ActionAudit.SanitizeLegacyRows | core/action_audit.py:119-206 | One pass keeps the row count and the key, rewrites each row the update reaches, and reports a change exactly when some row was unsound |
| ActionAudit.FreshIdsExist | core/action_audit.py:140-145 | The identifiers the pass needs exist, for any table of up to 73 rows that has none of the generated form |
| ActionAudit.SecondPass | core/action_audit.py:119-206 | A second pass changes nothing; all rows are then sound exactly when none lacked an identifier |
| ActionAudit.UnkeyedRowEscapes | core/action_audit.py:195-204 | A row without an identifier stays unsound through every pass |
| TaskStore.TaskStore.Transition | core/tasks/sqlite_store.py:276-350 | Updates exactly a task found in the required status (and unchanged, when asked), then looks at it; a cancellation in between shows, and other tasks are only ever cancelled |
| TaskStore.TaskStore.CompleteTask | core/tasks/service.py:266-287 | Completes with this summary exactly a task in verification that nobody cancels just before |
| TaskStore.TaskStore.InterruptTask | core/tasks/service.py:222-247 | Interrupts exactly a task that is active when looked at and still in that state when written; either way nothing is being done on a known task afterwards |
| TaskStore.TaskStore.UpdateProgress | core/tasks/service.py:190-220 | Takes exactly progress that does not go back, for a task active at the look and untouched until the write |
| TaskStore.TaskStore.StaysUnlessCancelled | core/tasks/service.py:190-247 | A task passes from look to write unharmed exactly when nobody cancels it before either |
| TaskStore.TaskStore.CancelTask | core/tasks/service.py:346-371 | Exactly when it answers, and that afterwards the task cannot be cancelled any more: it is cancelled or finished |
| Router.AIRouter.Candidates | core/router.py:1006-1015 | The allowed providers that are there, available, not cooling down and below three failures when looked at, each once, in the order asked, and no others |
| Router.RepliesReadmit | core/router.py:1036-1040 | Over any run of replies each is counted once, at the provider that gave it; nobody stops being a candidate by it, and exactly the providers that replied are readmitted after too many failures |
| FlowTrace.EveryEffectIsJustified | core/document_service.py:82-172 | In a safe trace every read, contact, success and completion is justified by the events strictly before it: a read by an allowance for that path and task, a contact by being listed, new, allowed and seen running after the allowance |
| FlowTrace.NoProviderTwice | core/router.py:1006-1043 | No provider is contacted twice |
| FlowTrace.NothingOutstanding | core/document_service.py:300-450 | With nothing outstanding, every decision has exactly one settlement and nothing else has any |
| FlowTrace.NoReadWithoutFirstDecision | core/document_service.py:224-268 | A flow that does not begin with a read decision never reads a file |
| FlowTrace.ReadsOnce | core/document_service.py:107-162 | The file is read at most once, right after the first decision, and from the selected path |
| FlowLimits.RaisedRefusalIsOverlooked | core/document_service.py:319-372 | A run of the round in a given world: the first provider's grant expires, the settlement of the refusal raises, the second provider is asked and answers, and the flow completes with its text although one settlement was never written |
| FlowLimits.RaisedSettlementLeavesOpen | core/document_service.py:387-412 | A run of the round in a given world: both providers are asked, the settlement of the first raises, and the decision on the second is never settled |
| FlowLimits.CalmFlowExplains | core/document_service.py:82-172 | The whole flow in a given calm world whose second provider has a text: it returns an explanation |
| FlowAudit.EveryDecisionHasItsResult | core/document_service.py:483-494 | When everything was settled and written, the audit table holds a result for every decision of the flow |
| FlowAudit.CompletedIsWrittenUnlessRaised | core/document_service.py:411-450 | When a flow completes, every settlement before that was written exactly when none raised, which is exactly when the database worked at the instant of each |
| FlowAudit.ReportedAfterResult | core/action_audit.py:270-291 | Writing the result of an open decision overwrites the result of no other |
| DocumentService.DocumentService.Obtain | core/document_service.py:332-353 | A decision on a fresh grant comes exactly when both accesses work, the terms are in order and both identifiers are free, and it is a caught error otherwise exactly when the terms are refused or the database raises a caught one; it allows the use exactly when the owner asked and the grant has not expired meanwhile; the grant is issued since the flow began, is no other decision's, and is spent on this very use |
| DocumentService.DocumentService.AuthorizeProvider | core/document_service.py:319-372 | A provider is approved exactly when it is listed and was not asked for, no settlement was noticed to fail, the task is running and left alone for two looks, and a decision is had that allows the use in time; the entry then stays open. A refusal is settled at once as failed, and an allowance for a task no longer running as cancelled, by one attempt. An approval counts as failed exactly when the grant was refused to a running task |
| DocumentService.DocumentService.GenerateDocument | core/router.py:989-1043 | Contacts each candidate at most once, in the order listed, and reports exactly those contacted, whose decisions are the open ones; returns a text exactly when one replied, and then that one's; raises exactly when a call did; gives up only after asking every usable provider or on a failed audit; in a calm world a text comes back exactly when some usable provider has one |
| DocumentService.DocumentService.SettleAll | core/document_service.py:387-412 | Open decisions are settled one at each instant, the one success being the provider whose text is returned; the loop is cut short exactly when one of these attempts raises, and something stays open exactly when one before the last does |
| DocumentService.DocumentService.Generate | core/document_service.py:300-450 | On every exit path each effect is justified and every allowance paid with a grant of its own; each decision has exactly one settlement attempt exactly when no attempt of the closing loop but the last raises, and the flow ends in an error exactly when one does; the task is completed exactly when an explanation is returned, with that explanation, which the named provider replied and whose settlement was written; no other task is more than cancelled; the providers contacted are reported in order but for the two cases named above. The task is explained exactly when there is a text to explain it with and nobody cancels it in time, and in a calm world exactly when some usable provider has a text. Without an explanation the result says why: a settlement was noticed to fail, a call raised, the task did not run on, nobody contacted had an answer, or nobody could be contacted; when it returns, nothing is being done on the task any more |
| DocumentService.DocumentService.Conclude | core/document_service.py:417-450 | Once every decision is settled, a text becomes an explanation exactly when the task is running and nobody cancels it before any of the seven accesses to it; without one the result names the reason, and nothing is being done on the task any more |
| DocumentService.DocumentService.Complete | core/document_service.py:428-450 | Completion goes through progress and verification, exactly when nobody cancels the task before any of the six accesses |
| DocumentService.DocumentService.StartRoot | core/document_service.py:91-106 | A root task is started exactly when actor, context and destinations are in order, it is a document task of its own with a path, queued, or failed or interrupted and retried, and nobody cancels it before any access; then it runs. A refusal names the first check that fails, and no task is completed |
| DocumentService.DocumentService.ReadUnderGrant | core/document_service.py:107-162 | The file is read exactly when a decision on a fresh grant comes in time and allows it; the flow goes on exactly when it is a document, both accesses worked and the task is still running; otherwise an error escapes exactly when the database raises an uncaught one, or the result names what failed and the task is over |
| DocumentService.DocumentService.StartChild | core/document_service.py:233-258 | A follow-up is started exactly when the call is the owner's, the destinations are in order, its parent is explained and has a path, it is queued, and nobody cancels it before any access |
| DocumentService.DocumentService.ConfirmAndExplain | core/document_service.py:82-172 | The same of the whole flow from the confirmed root task, which acts only for the owner on the confirmed path and listed providers. The file is read exactly when the task can be started and a decision on the read is had in time that allows it; the document is explained exactly when it was read and is a text, the round had an answer, and nobody cancels before the end; in a calm world, exactly when the file is a document and some usable provider has a text. An error escapes exactly while the read is decided or settled, or in the closing loop; otherwise the result says why nothing was explained, and a task that was started is never left running. Every settlement came out as the database did, and those written are in the audit table |
| DocumentService.ConfirmFromScratch | core/document_service.py:57-172 | The flow on a new installation, in any outside world: what the flows assume can be met |
| DocumentService.DocumentService.AuditResult | core/document_service.py:483-494 | One attempt at one instant: written exactly when the database works then, with this status and code, into the row of that decision only; raised exactly on an error that is not caught; otherwise refused, and then nothing changed |
| DocumentService.DocumentService.ExecuteFollowUp | core/document_service.py:224-268 | The same for a follow-up, which never opens the file and answers about the path of the explained parent: nothing happens unless the task can be followed up, the result says why nothing was explained, and in a calm world it is explained exactly when some usable provider has a text |
| DocumentService.DocumentService.Cancel | core/document_service.py:284-298 | Only the owner cancels; afterwards the task cannot be cancelled any more, and no task is changed in any other way |
| RuntimeSetup.InitializeRuntimeHome | core/runtime_setup.py:110-158 | Initializes exactly when the selection is known, nothing is in the way, no config exists and no disk operation fails, creating exactly the missing layout and the config; otherwise it gives back the very tree it started from |
| RuntimeSetup.InitializeTwice | core/runtime_setup.py:110-158 | Initialising twice: the second call changes nothing, and answers that the home is there already for the same selection and refuses any other |
| RuntimeSetup.RecognisedBySelection | core/runtime_setup.py:110-158 | A home just initialised is recognised under the mode and backend it was given and under no other |
| RuntimeSetup.Undo | core/runtime_setup.py:151-156 | Removing the created directories newest first meets only empty directories and restores the tree |
| RuntimeSetup.CreateLayout | core/runtime_setup.py:138-156 | A failure at any directory or config step restores the starting tree |
| RuntimeSetup.ParentComesFirst | core/runtime_setup.py:56-69 | In layout order every missing directory is created in one that is there by then |
| RuntimeSetup.RollbackInitialization | core/runtime_setup.py:312-342 | Succeeds exactly on a safe record whose directories hold only each other; then it removes exactly those and the config, otherwise nothing |
| RuntimeSetup.EmptyInTurn | core/runtime_setup.py:339-341 | Deepest first, every recorded directory is empty when its turn comes |
| RuntimeSetup.RollbackUndoesInitialization | core/runtime_setup.py:110-342 | Rolling back right after initialising is accepted and gives back the tree there was before |
| Protocol.FieldDecides | core/protocol.py:54-125 | For any specification, however nested, no error is reported exactly when the value conforms |
| Protocol.ObjectDecides | core/protocol.py:128-165 | The same for objects: required and optional fields, exact keys, ordered pairs and variants |
| Protocol.BlankIsAllSpace | core/protocol.py:84-85 | A text is blank exactly when all its characters are whitespace |
| Protocol.MessageDecides | core/protocol.py:172-210 | The same for messages with at-least-one groups and message variants |
| Protocol.ServerMessageDecides | core/protocol.py:221-248 | A server message is accepted exactly when its type is known and it conforms, for typed and legacy specifications |
| FrameSchema.RegistrationFindsEachSpec | core/phase6_transport.py:402-410 | Registration makes every frame's specification found under its own name and leaves the other messages alone |
| FrameSchema.FrameDecides | core/phase6_transport.py:216-399 | A frame that follows its specification carries its type, the protocol version, the request it answers and its entries, has no other key, and is accepted exactly when each entry conforms |
| Frames.IntegrationStatusIsAcceptedWhenClean | core/phase6_transport.py:519-545 | Built exactly for arguments of the right form; the frame answers that request under its own type and carries exactly the arguments given; it is accepted exactly when its texts hold no control and no format character |
| Frames.AgentRunIsAcceptedWhenClean | core/phase6_transport.py:548-576 | The same for agent runs |
| Frames.TimeSenseIsAcceptedWhenClean | core/phase6_transport.py:579-611 | The same for the sense of time, whose durations are never negative |
| Frames.BuildRepoIntel | core/phase6_transport.py:614-663 | The loop builds the frame exactly when every result is well formed and counted |
| Frames.RepoIntelIsAcceptedWhenClean | core/phase6_transport.py:614-663 | The same for search results, whose extra fields are dropped |
| Frames.BuildSkillEvolution | core/phase6_transport.py:666-699 | The loop builds the frame exactly when every permission text is safe |
| Frames.SkillEvolutionIsAcceptedWhenClean | core/phase6_transport.py:666-699 | The same for skill proposals, which never install themselves |
| Frames.HomeAssistantIsAcceptedWhenClean | core/phase6_transport.py:702-740 | The same for home proposals, which never hold a wildcard |
| Frames.EncryptedSyncIsAcceptedWhenClean | core/phase6_transport.py:743-766 | The same for sync updates, which never claim to expose plaintext |
| Frames.RemoteWorkerIsAcceptedWhenClean | core/phase6_transport.py:769-794 | The same for worker updates, which never claim local authority |
| Frames.BuildModelEval | core/phase6_transport.py:797-841 | The loop builds the frame exactly when the measures are in range and every text is safe |
| Frames.ModelEvalIsAcceptedWhenClean | core/phase6_transport.py:797-841 | The same for model evaluations |
| Frames.ErrorIsAlwaysAccepted | core/phase6_transport.py:844-856 | Every error can be reported: its fixed message always passes |
| Frames.TabIsBuiltAndRejected | core/phase6_transport.py:417-426 | A tab is built into a frame and the frame is rejected |
| Frames.SafeTextControls | core/phase6_transport.py:417-426 | The controls that get past the builders are exactly tab, line feed and carriage return |
| Correlation.Phase6CorrelationTracker.constructor | core/phase6_transport.py:477-484 | Starts with nothing accepted |
| Correlation.Phase6CorrelationTracker.TrackRequest | core/phase6_transport.py:486-496 | Accepts exactly a well-formed identifier that is not among the last accepted ones; list and set remember exactly those |
| Correlation.Phase6CorrelationTracker.TrackNonce | core/phase6_transport.py:498-508 | The same for nonces, in a stream of their own |
| Correlation.Phase6CorrelationTracker.Clear | core/phase6_transport.py:510-514 | Forgets both streams |
| Correlation.RemembersSlides | core/phase6_transport.py:491-495 | Adding to list and set and forgetting the head keeps exactly the last entries remembered |
| Correlation.RunsAreSpacedOut | core/phase6_transport.py:486-508 | Whatever is submitted, acceptances of one identifier are more than the window apart |
| Correlation.ReplayIsIgnored | core/phase6_transport.py:489-490 | Submitting again at once changes nothing |
| Cosine.CosineSimilarity | core/speaker_auth.py:37-46 | The accumulator loop computes the cosine: times the lengths of both vectors the result is their inner product, sign included, and it is zero when a length is |
| Cosine.DotIsAdditive | core/speaker_auth.py:38-41 | The inner product is additive, and with a unit vector it is that coordinate (`Cosine.DotWithUnit`): there is no other such product |
| Cosine.ExceedsWithoutDividing | core/speaker_auth.py:37-46 | The similarity exceeds a threshold exactly when the inner product exceeds the threshold times both lengths |
| Cosine.CauchySchwarz | core/speaker_auth.py:37-46 | The square of an inner product is at most the product of the squared lengths |
| Cosine.SimilarityIsBounded | core/speaker_auth.py:37-46 | A similarity lies between minus one and one |
| Cosine.SimilarityIsSymmetric | core/speaker_auth.py:37-46 | It is the same both ways |
| Cosine.SimilarityIgnoresScale | core/speaker_auth.py:37-46 | Scaling either vector by a positive number changes nothing |
| Cosine.SimilarityWithItself | core/speaker_auth.py:37-46 | A vector that is not zero has similarity one with every positive multiple of itself |
| SpeakerAuth.Mean | core/speaker_auth.py:60-76 | The centroid of uniform valid vectors, each refusal for its own reason |
| SpeakerAuth.MeanIsDetermined | core/speaker_auth.py:68-76 | There is only one mean |
| SpeakerAuth.AcceptedExactlyWhenRecognised | core/speaker_auth.py:161-183 | A verdict accepts exactly when some enrolled vector of the same dimension has an inner product with this one above the threshold times both lengths, which needs no division |
| SpeakerAuth.VerdictIsExplained | core/speaker_auth.py:139-183 | Each refusal gives its own reason exactly when it applies, and the score is the cosine of an enrolled vector that no other exceeds |
| SpeakerAuth.BestScoreIsBest | core/speaker_auth.py:164-176 | The score is attained by a candidate of that dimension and exceeded by none |
| SpeakerAuth.ScoresAreCosines | core/speaker_auth.py:174-183 | Every reported score lies between minus one and one |
| SpeakerAuth.LoudnessDoesNotMatter | core/speaker_auth.py:174-177 | Recognition does not change with volume |
| SpeakerAuth.OwnTemplateIsAccepted | core/speaker_auth.py:139-183 | An enrolled template that is not silent is accepted |
| SpeakerAuth.BestWindowDecides | core/speaker_auth.py:190-197 | With a positive threshold the best scoring window is accepted exactly when some window is |
| SpeakerAuth.SpeakerAuth.EnrollFromEmbeddings | core/speaker_auth.py:128-137 | Enrols and stores exactly the given templates with their mean, or changes nothing |
| SpeakerAuth.SpeakerAuth.Load | core/speaker_auth.py:417-446 | The stored templates, else the lone older embedding, else nobody |
| SpeakerAuth.SpeakerAuth.VerifyEmbedding | core/speaker_auth.py:139-183 | The verdict on the current enrolment: accepts exactly when the window is recognised |
| SpeakerAuth.SpeakerAuth.VerifyEmbeddings | core/speaker_auth.py:185-197 | Accepts exactly when one of the first four windows would be accepted alone, and reports the best window |
| SpeakerAuth.LoadingIsDetermined | core/speaker_auth.py:417-446 | A stored file enrols one state, so a restart enrols what was saved |

## Left out

- SQLite, threads, file permissions and VACUUM: a table is a sequence or a map and each transaction one step. Errors of the task database are not modelled: they would end a flow where it stands, outside the settling of decisions. Of the conversation ledger's, a failed append and a failed load are.
- Timestamps, and listing, fetching the latest and renaming sessions: they would only add easy members.
- Tokenising, whitespace compaction, scrubbing, title making, canonicalisation and hashing: parameters with the facts named above. The identifier grammar and the text bounds are modelled in full.
- Argument types in `record_turn` and `note_tool`: texts are texts; a malformed pair is modelled for `restore_pairs` only. `latest_tool` is not modelled.
- Grants.GrantStore.Issue: which of several malformed terms an error names is modelled and not stated; that the identifier is taken is.
- ActionAudit.ActionAuditStore.RecordDecision: which malformed part a refusal names is modelled and not stated.
- RuntimeSetup.InitializeRuntimeHome: which obstacle a refusal names is modelled and not stated.
- ActionAudit.SanitizeLegacyRows: an identifier generated twice or already in the table makes the database refuse the update and the pass roll back; the pass is modelled for identifiers that are not.
- Knowledge graph: loading and saving, extraction from conversation, keyword search, summaries and timestamps.
- Document flow: task scoping by owner, the sanitising of stored summaries, the prompt, `prepare`, `follow_up`, `prepare_follow_up` and `reconnect`. The router's callback is a direct call; token counts and response times are not kept.
- DocumentService.DocumentService.Generate: whether an approval failed is not to be seen in its trace, so of an offer in which nobody was contacted one of two error codes is stated, and `AuthorizeProvider` states when that happens. A calm world is one in which, up to a given instant, no access raises, nobody cancels, no grant expires and identifiers are free; the exact conditions without it are stated through the instants of the run. An error raised by the task database is not modelled.
- DocumentService.DocumentService.ConfirmAndExplain: a queued task that already has more than 30 on file is left running when the report of its progress is refused; the task service queues every task without progress.
- DocumentService.DocumentService.AuditResult: an error raised after the row was written counts as one before.
- Router: `generate`, `_select_provider`, cooling-down tables and HTTP.
- Runtime home: symbolic links, `resolve`, backup, migration and the printed reports. The tree is a map from paths to directories and files.
- Protocol.ServerMessageDecides: which of several missing or unknown fields an error names, comparisons of two lists within lists, and ordered pairs of objects, nothing or different kinds of values, on which the code would raise, are not modelled; a discriminator that is a list or an object counts as unknown where the code would raise.
- Frames: integers too large to be a float, and the client frame parser.
- Correlation: identifiers are accepted one at a time.
- Speaker score: floating-point rounding, overflow and audio; arithmetic is over the reals.
- Keyword classifiers, personality, schedulers, menus and the rest of the orchestrator: one branch each settles their properties.
