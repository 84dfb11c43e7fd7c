# Carry: protocols of the store and the Host

Carry keeps its truth in PostgreSQL: each `Store` method is one transaction, and
Hosts, members and browsers interleave those transactions over a network that
loses, repeats and delays. This project models the transactions, the Host loops
that call them and the pure values they exchange, and proves what holds in every
run.

Each protocol has the same parts. A specification module (`Reply`, `WorkRun`,
`Authority`, `SignIn`) holds the rows and their unique indexes as a value, and each
transaction as a function from rows to rows and an answer; a transaction that fails
leaves the rows as they were. An invariant module says what the rows always
satisfy, a `...Runs` module proves that each transaction keeps it, and a
`...Theorems` or `...Outcomes` module states the guarantees over every reachable
state and every run. What an operation answers, and exactly when it succeeds, is
also told from the rows alone, in `...Outcomes` and `...Answers` modules that do not
use the specification's own helpers. A `...Store` module holds the imperative form: a
class with one field per table, whose methods update the tables step by step as the source does,
roll back where it does, and are proved to leave exactly the rows and the answer of
the specification.

- `Text`, `Digest`, `Context`: normalization on bytes, length-prefixed digest
  preimages, the bounded reply context.
- `Reply`, `ReplyInvariant`, `ReplyRuns`, `ReplyHistory`, `ReplyTheorems`,
  `ReplyOutcomes`, `ReplyStore`: private replies, a fenced lease over an append-only
  log.
- `WorkRun`, `WorkRunInvariant`, `WorkRunRuns`, `WorkRunTheorems`, `WorkRunOutcomes`,
  `WorkRunAnswers`, `WorkRunStore`: fenced Attempts over input ranges, versions, retry
  and review.
- `AgentKeys`, `AgentName`, `ReportCommand`: keys, names and canonical reports.
- `Authority`, `AuthorityInvariant`, `AuthorityRuns`, `AuthorityTheorems`,
  `AuthorityOutcomes`, `AuthorityAnswers`, `AuthorityStore`: Spaces, members,
  invitations, Machines, Agents and the reconciliation of a report, whose unlocked
  pre-read is a step of its own.
- `ReportProtocol`, `AgentReporter`: reports over the network, and the Host's retry
  loops; `HostGate`: the Host's checks on what the server hands out; `Worker`: its
  scheduling loop.
- `SignIn`, `SignInInvariant`, `SignInTheorems`, `SignInOutcomes`, `SignInStore`:
  sign-in methods, Sessions and Email challenges.

What a transaction reads from outside its rows is a parameter: clock readings (one
for each time the source reads the clock, in no assumed order), fresh identities,
the row an ordered and lock-skipping selection returned (checked against the
query's predicate), and changes of members and Machines in the protocols that do
not own them. The guards of a query are those of its SQL text. Identities are
36-byte UUID texts and digests are their preimages. All assumptions are in the
types and preconditions; none is an axiom.

## Model

| member | source | states |
|---|---|---|
| Text.NormalizeIdempotent | internal/conversation/conversation.go:103-117 | what normalization accepts, it leaves unchanged when it is normalized again |
| Text.TrimCuts | internal/conversation/conversation.go:103-117 | trimming cuts white-space runes, and nothing else, from both ends |
| Digest.DecodePreimage | internal/conversation/conversation.go:182-197 | a length-prefixed preimage decodes back to exactly the fields it was made from |
| Digest.PreimageDecode | internal/work/work.go:179-194 | whatever decodes is the preimage of what it decodes to, so decoding is the exact inverse |
| Digest.PreimageInjective | internal/conversation/conversation.go:182-197 | field lists of any length and content never share a preimage unless they are equal |
| Digest.DigestFields | internal/conversation/conversation.go:182-190 | the growing buffer ends as a preimage that decodes to the fields given |
| ReplyTheorems.OutputDigestInjective | internal/conversation/conversation.go:133-151 | two candidates for one source share a digest exactly when reply and goal agree, an absent goal differing from every present one |
| ReplyTheorems.MessageDigestInjective | internal/conversation/conversation.go:126-128 | two messages of one member share a digest exactly when their texts are equal |
| WorkRunTheorems.ReviewDigestInjective | internal/work/work.go:171-173 | the digest a review stores identifies understanding and next step |
| Context.FixedContextSuffix | internal/conversation/conversation.go:155-180 | the backward scan with its running total computes the suffix the lemmas below are about, errors included |
| Context.LongestFittingSuffix | internal/conversation/conversation.go:155-180 | on valid messages it never fails, and a suffix is within 32 messages and 256 KiB exactly when it is no longer than the one returned |
| Context.FixedSuffixIdempotent | internal/conversation/conversation.go:155-180 | bounding a bounded context changes nothing |
| Context.KeepsSixteen | internal/conversation/conversation.go:155-180 | the sixteen newest messages, or all if there are fewer, always survive |
| Context.LastRowsSuffice | internal/postgres/dbsqlc/conversation.sql.go:387-399 | the answer on the last 32 rows is the answer on the whole log |
| Context.RefusedIff | internal/conversation/conversation.go:155-180 | a context is refused exactly when it is empty or an invalid message comes before the newest valid ones fill either limit |
| ReplyStore.Store.SendConversationMessage | internal/postgres/conversation.go:18-109 | the transaction on the tables leaves exactly the rows and answer of `Reply.Send`, whose properties are the Reply lemmas here |
| ReplyStore.Store.ClaimConversationReply | internal/postgres/conversation_reply.go:20-75 | same, for `Reply.ClaimReply` |
| ReplyStore.Store.RenewConversationReply | internal/postgres/conversation_reply.go:78-120 | same, for `Reply.Renew` |
| ReplyStore.Store.CommitConversationReply | internal/postgres/conversation_reply.go:124-237 | same, for `Reply.Commit`, with the delegated Work created or rolled back with the reply |
| ReplyHistory.InvOverRuns | internal/postgres/conversation_reply.go:20-237 | every sequence of sends, claims, renewals, commits and changes of members and Machines keeps the row invariant |
| ReplyHistory.RunEvolves | internal/postgres/dbsqlc/conversation.sql.go:28-86 | over any run messages and request keys never change, fences never fall, a fixed context range and a committed reply are final |
| ReplyTheorems.LogShape | internal/postgres/conversation.go:54-98 | in every reachable state a log is numbered exactly 1..head, odd entries are the member's and even ones Carry's answers to the entry just before |
| ReplyTheorems.PendingIsOddHead | internal/postgres/conversation.go:74-100 | the head is odd exactly when a reply is owed, and then it is owed to the newest message only |
| ReplyTheorems.GrantIff | internal/postgres/conversation_reply.go:35-75 | an active Machine is granted exactly a claim of its Space that nobody holds; the context is never the reason for a refusal, and the grant carries the next fence |
| ReplyOutcomes.ClaimIff | internal/postgres/dbsqlc/conversation.sql.go:28-72 | a grant is made exactly to an unrevoked Machine in the Space of an active member, while the uncommitted claim is unheld at both readings of the clock; it lasts five minutes, and a refusal changes nothing |
| ReplyTheorems.GrantsAreAcceptable | internal/cli/host/machine_http.go:345-360 | every claim the server can grant in a reachable state passes the Host's own gate |
| ReplyTheorems.GrantsAgree | internal/postgres/conversation_reply.go:253-304 | all grants for one source, whatever happened between them, carry the same context, and later ones a higher fence |
| ReplyTheorems.LeaseProtects | internal/postgres/conversation_reply.go:35-120 | after a grant or renewal, whatever runs in between on a clock that does not go back before it, no claim that selects before that lease ends is granted the source |
| ReplyOutcomes.RenewalIff | internal/postgres/conversation_reply.go:78-120 | exactly the serving holder of the fence renews it while its lease lasts, and only that lease moves |
| ReplyTheorems.CommitIff | internal/postgres/conversation_reply.go:154-194 | the store changes exactly for a valid candidate of the current holder with a live lease: neither head guard ever refuses one |
| ReplyOutcomes.ReplyIff | internal/postgres/conversation_reply.go:131-232 | a first reply is written exactly for the serving holder of a live lease whose reply, and goal if any, normalize; the normalized reply follows its source, the normalized goal is a Work of the member who asked, and the answer names both |
| ReplyTheorems.CommitRecords | internal/postgres/conversation_reply.go:181-231 | a first commit appends one Carry reply right after its source, makes a Work exactly when there is a goal, and changes no earlier row |
| ReplyTheorems.SupersededNeverWrites | internal/postgres/dbsqlc/conversation.sql.go:28-86 | once a source was granted again, its earlier holder can never write for it, at any later time |
| ReplyTheorems.CommitReplay | internal/postgres/conversation_reply.go:157-169 | at any later time the winner's replay returns the first result, a different output conflicts, and neither changes the store |
| ReplyTheorems.OneWorkPerGoal | internal/postgres/conversation_reply.go:306-328 | delegated Works and claims that record one correspond one to one, and only committed claims record one |
| ReplyTheorems.SendReplay | internal/postgres/conversation.go:54-70 | at any later time a request key returns its first message for the same text, conflicts for another, and never sends twice |
| ReplyOutcomes.SendIff | internal/postgres/conversation.go:41-104 | a fresh message is admitted exactly from an active member with an even head, an odd one being answered as pending; it is stored normalized right after the head, and a reply to it is owed |
| HostGate.AcceptGrant | internal/cli/host/machine_http.go:345-360 | the Host's loop accepts exactly bounded, alternating contexts that end with the member, under a positive fence |
| HostGate.GrantGateIff | internal/cli/host/machine_http.go:345-360 | the gate lets through exactly valid contexts within both limits, authors in turn and the member last, under a positive fence |
| HostGate.AcceptClaim | internal/cli/host/machine_http.go:216-248 | the Host's loop with its running total accepts exactly claims whose texts are normalized and whose messages are valid and bounded |
| HostGate.ClaimGateIff | internal/cli/host/machine_http.go:216-248 | the gate lets through exactly claims with a trimmed goal, a trimmed understanding and next step or neither, and valid messages within both limits |
| AgentKeys.CheckReportKeys | internal/cli/host/machine_http.go:138-148 | checking neighbours decides that a whole key list is valid and strictly increasing |
| AgentKeys.SortKeySet | internal/machine/agent_presence.go:105-167 | the sorted list of a set of keys is increasing and holds exactly its members |
| AgentKeys.BeforeIff | internal/cli/host/machine_http.go:138-148 | keys are ordered by their first different byte, a prefix coming first |
| ReportCommand.Canonicalize | internal/machine/agent_presence.go:105-167 | the sorting, counting and scanning method computes the canonical command the lemmas below are about |
| ReportCommand.AcceptedIff | internal/machine/agent_presence.go:105-167 | a report is accepted exactly when its header and keys are valid, no binding occurs twice anywhere, and no family exceeds its limit: the adjacent check finds every duplicate |
| ReportCommand.ReportIff | internal/machine/agent_presence.go:105-167 | the same with every form spelled out: trimmed certificate serial, non-negative base, at most 32 observations, keys of letters, digits and inner punctuation within their lengths |
| ReportCommand.PermutationInvariant | internal/machine/agent_presence.go:105-167 | two reports that list the same observations in any order get the same command, or the same refusal |
| ReportCommand.DigestIdentifies | internal/machine/agent_presence.go:177-201 | two accepted reports share a digest exactly when identity, base revision and set of observations agree |
| ReportCommand.CommandShape | internal/machine/agent_presence.go:118-160 | the command lists exactly the observations of known families, each binding once, and exactly the unknown families |
| AgentName.EveryOrdinalNames | internal/agent/agent.go:165-178 | a valid base of 96 bytes makes a valid name of at most 116 bytes with every 64-bit ordinal |
| AgentName.NameIff | internal/agent/agent.go:165-178 | exactly a positive ordinal with a well-formed base makes a name, the base alone or followed by the ordinal, if that is well-formed too |
| AgentName.KeyInjective | internal/agent/agent.go:165-178 | for a fixed base different ordinals have different keys |
| AgentName.FoldsAlike | internal/agent/agent.go:165-178 | two names have one key exactly when they differ at most in the case of ASCII letters |
| AgentName.Pigeonhole | internal/postgres/agent.go:211-226 | a search that failed at every ordinal so far has tried at most one more than there are taken keys, so the unbounded loop ends |
| AgentName.AllocateAgentName | internal/postgres/agent.go:211-226 | the loop terminates with the name its specification gives |
| AgentName.AllocatesLeastFree | internal/postgres/agent.go:211-226 | the name carries the least ordinal whose key is free in the Space, and a valid base always gets one |
| AuthorityStore.Store.CreateSpace | internal/postgres/space_creation.go:15-83 | the transaction on the tables leaves exactly the rows and answer of its specification, whose properties are the Authority lemmas here |
| AuthorityStore.Store.AcceptInvitation | internal/postgres/space_invitation.go:473-633 | same, for `Authority.AcceptInvitation`; a refusal after the insert rolls it back |
| AuthorityStore.Store.RemoveSpaceMember | internal/postgres/membership.go:88-215 | same, for `Authority.RemoveMember`, through the locked-membership map |
| AuthorityStore.Store.RevokeMachineFromBrowser | internal/postgres/machine.go:410-496 | same, for `Authority.RevokeFromBrowser` |
| AuthorityStore.Store.RevokeMachineFromHost | internal/postgres/machine.go:498-545 | same, for `Authority.RevokeFromHost` |
| AuthorityStore.Store.ChooseReportPath | internal/postgres/agent.go:32-56 | the unlocked pre-read asks for allocation locks exactly when a recognized binding is missing |
| AuthorityStore.Store.AllocateMissing | internal/postgres/agent.go:116-166 | the allocation loop gives each missing binding one Agent with the least free name, or collects its family for setup |
| AuthorityStore.Store.ReplaceMachinePresence | internal/postgres/agent.go:168-184 | the loop leaves present exactly what the complete snapshot lists |
| AuthorityStore.Store.ReconcileAgentPresence | internal/postgres/agent.go:58-209 | the locked phases leave exactly the rows and answer of `Authority.Reconcile` |
| AuthorityTheorems.RunKeepsInv | internal/postgres/agent.go:24-209 | every interleaving of the authority transactions, with reports pre-read long before they take locks, keeps the row invariant, and rows only evolve forward |
| AuthorityAnswers.CreateSpaceReplay | internal/postgres/space_creation.go:24-82 | a fresh request makes one Space with its creator as only member, manager and enroller; at any later time its key finds that Space with the same rights, or conflicts |
| AuthorityTheorems.NoInsertWithoutAllocationLocks | internal/postgres/agent.go:32-75 | a report whose pre-read asked for no allocation locks inserts no Agent, however long it waited |
| AuthorityTheorems.ActiveAgentsAreHoused | internal/postgres/agent.go:116-161 | every active Agent has an owner who is an active member of its Space and lives on that owner's unrevoked Machine, across reports, removals and revocations |
| AuthorityTheorems.PresenceIsTheLastSnapshot | internal/postgres/agent.go:168-184 | an Agent is stored present exactly when it is active and the last accepted report of its Machine lists it present |
| AuthorityTheorems.BindingsAreForever | internal/postgres/dbsqlc/agent.sql.go:399-485 | a binding never gets a second Agent, and a removed Agent stays removed and absent |
| AuthorityTheorems.NamesAreForever | internal/postgres/agent.go:211-226 | an Agent keeps its name and no other Agent of its Space ever gets the same one, removed Agents included |
| AuthorityAnswers.NamesDistinctUpToCase | internal/postgres/agent.go:211-226 | in every reachable state no two Agents of a Space have names that differ only in the case of ASCII letters |
| AuthorityAnswers.NewAgentsIntroduced | internal/postgres/agent.go:118-161 | an Agent that a report adds has an observed binding of its Machine, the enroller as owner, and the next free name of its family: every smaller ordinal is taken |
| AuthorityTheorems.EveryObservationIsAnswered | internal/postgres/agent.go:116-166 | an applied report leaves each observation with an Agent, or its approver is no longer a member and its family is returned for setup |
| AuthorityAnswers.AnswerNamesFamilies | internal/postgres/agent.go:116-208 | an applied report answers and records as unsupported exactly its families outside the vocabulary, and as needing setup exactly those with an observation still without an Agent, if the enroller is no longer a member |
| AuthorityTheorems.ResultIsAcceptable | internal/cli/host/machine_http.go:138-148 | the keys of every fresh report result pass the Host's own check |
| AuthorityOutcomes.CurrentReportApplies | internal/postgres/agent.go:77-166 | with fresh identities a report is applied exactly when its Machine is known by that certificate, unrevoked and at the base revision, and it was not the last one applied: allocation never fails it |
| AuthorityTheorems.SpacesStayGoverned | internal/postgres/membership.go:156-165 | every Space always has an active member manager and an active Machine enroller |
| AuthorityTheorems.OpenWorksStayOwned | internal/postgres/membership.go:166-184 | every Open Work is always owned by an active member of its Space |
| AuthorityTheorems.RevokedForever | internal/postgres/space_invitation.go:562-592 | a revoked membership keeps its record and never becomes active again |
| AuthorityTheorems.LastAuthorityIff | internal/postgres/membership.go:156-165 | the counts refuse exactly the removal of a Space's only manager or only enroller |
| AuthorityOutcomes.RemovalIff | internal/postgres/membership.go:142-175 | a fresh request removes a member exactly when an active manager asks, somebody else keeps each of the target's authorities, and another active member is named exactly if there are Open Works |
| AuthorityAnswers.RemovalSucceeds | internal/postgres/membership.go:107-210 | the same condition read off the membership and Work rows, and the removal records its actor, successor and key; a refusal changes nothing |
| AuthorityTheorems.RemovalConserves | internal/postgres/membership.go:176-210 | a removal keeps the set of Open Works and changes exactly the target's owner to the active successor; exactly the target's Agents end and exactly the target stops being active |
| AuthorityTheorems.RemovalReplay | internal/postgres/membership.go:107-118 | at any later time a removal key is a no-op for the same target and successor and conflicts for others |
| AuthorityTheorems.AcceptanceJoins | internal/postgres/space_invitation.go:562-592 | after an acceptance the recipient is an active member, an earlier member keeps their own rights, and nobody else's membership changes |
| AuthorityAnswers.AcceptanceStands | internal/postgres/space_invitation.go:500-632 | an open invitation is accepted exactly by the address's owner with a live Session and recent Email proof, in time, unless they were once removed; the rights and earlier membership it answers are on record at any later time |
| AuthorityTheorems.AcceptanceReplay | internal/postgres/space_invitation.go:543-606 | at any later time the exact request gets the first answer while the member is active and the Session lives; another key or User is refused, and no one is admitted twice |
| AuthorityOutcomes.RevocationEndsAgents | internal/postgres/machine.go:418-485 | whoever revokes a Machine, first or again, it ends revoked with all and only its own Agents removed |
| AuthorityAnswers.RevocationIff | internal/postgres/machine.go:418-538 | exactly an active enroller of its Space, or the Host of its certificate, revokes a Machine, first on record and again as a no-op, conflicting only for the same key with another digest; its Agents, and no others, have then ended |
| AuthorityOutcomes.RevokedForGood | internal/postgres/machine.go:515-538 | a revoked Machine keeps its revocation record, never has an active Agent again, and every later report of it changes nothing |
| ReportProtocol.HistoryKeepsInv | internal/postgres/agent.go:77-103 | every history of lost, duplicated and delayed reports and answers, restarts and other transactions keeps the protocol invariant |
| ReportProtocol.EachReportAdvancesOnce | internal/postgres/agent.go:88-103 | a Machine's revision is the number of reports applied for it, each was based on the revision it found and answered the next, and none is applied twice |
| ReportProtocol.AcceptancesAgree | internal/postgres/agent.go:88-103 | every acceptance of a report, first or replayed, is the same answer with revision base+1 and acceptable keys, and its Host is never told of a conflict |
| ReportProtocol.ReportersNeverAhead | internal/host/agent_reporting.go:55-108 | no Host process is ever ahead of the server, and each acceptance or stale answer it acts on raises its revision |
| AgentReporter.Reporter.Report | internal/host/agent_reporting.go:55-108 | the nested retry loops do exactly the sends and notices of their specification and leave its revision and result |
| AgentReporter.Reporter.Serve | internal/host/agent_reporting.go:111-132 | the cadence loop announces exactly what its specification does |
| AgentReporter.ReportingFollows | internal/host/agent_reporting.go:55-108 | between two sends the loop does what the protocol allows: the same body again while undecided, or a new report based on the revision a stale answer named |
| AgentReporter.ExactBodyRetry | internal/host/agent_reporting.go:64-106 | one report identity is never sent with two bodies, whatever is answered |
| AgentReporter.NoticesIff | internal/host/agent_reporting.go:64-106 | a notice is given at an undecided answer exactly when it is the first for its body or of another class than the one before, and names that class |
| AgentReporter.ReportEnds | internal/host/agent_reporting.go:55-108 | a call ends as its last answer says, accepted or rejected, or with its context; undecided answers never end it by themselves |
| AgentReporter.AnnouncesChanges | internal/host/agent_reporting.go:111-132 | exactly the results that differ in recovery keys from the one before are announced, each once and in order, and the first failure is returned unless the context had ended |
| WorkRunStore.Store.CreateWork | internal/postgres/work.go:17-71 | the transaction on the tables leaves exactly the rows and answer of its specification, whose properties are the WorkRun lemmas here |
| WorkRunStore.Store.AppendWorkMessage | internal/postgres/work.go:299-378 | same, for `WorkRun.Append` |
| WorkRunStore.Store.ClaimRun | internal/postgres/run.go:20-133 | same, for `WorkRun.ClaimRun`; a refusal after the rotation rolls it back |
| WorkRunStore.Store.RenewRunAttempt | internal/postgres/run.go:136-169 | same, for `WorkRun.Renew` |
| WorkRunStore.Store.CommitWorkUnderstanding | internal/postgres/run.go:171-250 | same, for `WorkRun.Commit` |
| WorkRunStore.Store.FinishUnresolvedAttempt | internal/postgres/run.go:252-297 | same, for `WorkRun.Finish` |
| WorkRunStore.Store.RequestWorkRetry | internal/postgres/run.go:300-368 | same, for `WorkRun.RequestRetry` |
| WorkRunStore.Store.AcceptWorkReview | internal/postgres/work.go:196-297 | same, for `WorkRun.AcceptReview` |
| WorkRunTheorems.HistoryKeepsInv | internal/postgres/run.go:20-368 | every history of the eight transactions, owner transfers and changes of members and Machines keeps the row and commit invariant |
| WorkRunAnswers.CreatedWork | internal/postgres/work.go:17-71 | a fresh creation of an active member makes them owner of an open Work whose only, unapplied input is the normalized goal, which it has, in that Space, at any later time |
| WorkRunAnswers.AppendIff | internal/postgres/work.go:299-378 | a fresh message of an active member of the Work's Space becomes exactly its next input, with its author and text |
| WorkRunTheorems.EachInputAppliedOnce | internal/postgres/run.go:183-245 | across expiry, fence rotation and recovery the committed Runs apply exactly the inputs 1..applied, each exactly once; applied never passes head |
| WorkRunTheorems.VersionCountsSuccesses | internal/postgres/run.go:209-214 | a Work's version is the number of its succeeded Runs |
| WorkRunTheorems.RunAccounting | internal/postgres/run.go:68-102 | the Runs of a Work are those that succeeded, those released by a retry and at most one unresolved; retry keys and released Runs are equally many |
| WorkRunTheorems.UnresolvedFreezesWork | internal/postgres/run.go:200-216 | while a Run is unresolved its Work stays at the Run's base version and first input |
| WorkRunTheorems.CommitIff | internal/postgres/run.go:193-216 | a valid update commits exactly when its Attempt is current with a live lease and echoes its claim: the guards on the Work never refuse it |
| WorkRunTheorems.CommitMovesWork | internal/postgres/run.go:209-234 | a commit moves its Work alone to the end of the range under the next version, and opens a current review exactly when one is wanted and no newer input waits |
| WorkRunAnswers.UpdateIff | internal/postgres/run.go:171-245 | exactly the unrevoked holder of the newest fence with a live lease commits, echoing its claim; the normalized texts become current, and a review names the new version and them |
| WorkRunOutcomes.RenewalProtects | internal/postgres/run.go:41-58 | after a renewal, whatever runs in between on a clock that does not go back before it, no claim that selects before that lease ends is granted the Run |
| WorkRunTheorems.OneActiveAttempt | internal/postgres/run.go:42-58 | a Run has at most one active Attempt, the one under its newest fence |
| WorkRunTheorems.LostAuthorityIsForever | internal/postgres/run.go:183-199 | an Attempt that lost its fence, its Run or its own activity never has authority again |
| WorkRunTheorems.ClaimGrants | internal/postgres/run.go:39-128 | a claim is authorized at once, at the Work's version and first unapplied input, under the next fence of a recovered Run or fence 1 of a new one |
| WorkRunAnswers.ClaimReads | internal/postgres/run.go:116-128 | a claim carries its Work's goal and understanding and exactly the messages of its range in input order, each with its row's author and text |
| WorkRunOutcomes.ClaimIff | internal/postgres/run.go:39-113 | with fresh identities a claim succeeds exactly for an expired Run, or a Work with unapplied input and no unresolved Run: no uniqueness constraint ever fails it |
| WorkRunAnswers.ClaimSucceeds | internal/postgres/queries/run.sql:7-60 | the same condition read off the Attempt, Run and Work rows; the granted Attempt is the Machine's for five minutes, and a refusal changes nothing |
| WorkRunTheorems.ClaimsAreAcceptable | internal/cli/host/machine_http.go:216-248 | every Run claim the server can grant passes the Host's own gate |
| WorkRunRuns.SelectedRange | internal/postgres/queries/run.sql:62-82 | a fresh range is never empty and is the longest one: an end up to the head keeps within 32 messages and 256 KiB exactly when it is no later than the one selected |
| WorkRunOutcomes.FinishIff | internal/postgres/run.go:252-297 | exactly a current Attempt with a live lease reports its outcome; the Work does not move, the Attempt loses authority, and the Run is the one that waits for a retry |
| WorkRunTheorems.BlockedUntilRetry | internal/postgres/run.go:90-102 | a failed or unknown Run keeps every claim away from its Work until a retry |
| WorkRunOutcomes.RetryIff | internal/postgres/run.go:315-363 | a fresh retry key is honoured exactly for an active member of a Work that has a Run waiting for one |
| WorkRunOutcomes.RetryReopens | internal/postgres/run.go:347-363 | after a retry the Work can be claimed again, from the same first input the released Run had |
| WorkRunAnswers.ReleaseIff | internal/postgres/run.go:315-363 | a fresh retry records its member and key on exactly the failed or unknown Run that nobody asked to retry |
| WorkRunTheorems.RetryReplay | internal/postgres/run.go:331-342 | at any later time a retry key is a no-op for its member and conflicts for anyone else |
| WorkRunTheorems.ReviewContentIsCurrent | internal/postgres/work.go:276-281 | a review is current exactly when its version matches and no input waits: the content digest can then not differ, and no version has two reviews |
| WorkRunOutcomes.AcceptIff | internal/postgres/work.go:240-292 | an acceptance is recorded exactly when the owner, an active member, names an open review of the current version with no input waiting |
| WorkRunAnswers.AcceptanceRecords | internal/postgres/work.go:283-292 | the acceptance on record is its owner's under their key, and nothing else changes |
| WorkRunOutcomes.AcceptReplay | internal/postgres/work.go:220-235 | at any later time an acceptance key is a no-op for its review and conflicts for another |
| WorkRunOutcomes.AppendReplay | internal/postgres/work.go:330-347 | at any later time a message key finds its first input for the same text, conflicts for another, and adds no second input |
| WorkRunOutcomes.CreateReplay | internal/postgres/work.go:17-71 | at any later time a creation key finds its Work for the same goal, conflicts for another, and makes no second Work |
| SignInStore.Store.CompleteExternalLogin | internal/postgres/external_login.go:281-334 | the transaction on the tables leaves exactly the rows and answer of its specification, whose properties are the SignIn lemmas here |
| SignInStore.Store.ResolveExternalIdentity | internal/postgres/external_login.go:365-574 | login, reauthentication and link resolve to the User and rows of the specification, or leave the tables alone |
| SignInStore.Store.ResolveEmailIdentity | internal/postgres/email_login.go:321-468 | same, for the right Email code |
| SignInStore.Store.UnlinkIdentityMethod | internal/postgres/identity_methods.go:84-202 | same, for `SignIn.UnlinkMethod` |
| SignInStore.Store.PrepareEmailChallenge | internal/postgres/email_login.go:19-148 | same, for `SignIn.Prepare` |
| SignInStore.Store.VerifyEmailChallenge | internal/postgres/email_login.go:198-319 | same, for `SignIn.Verify` |
| SignInInvariant.RunKeepsInv | internal/postgres/external_login.go:365-620 | every run of logins, reauthentications, links, unlinks, sign-outs and Email challenges keeps the identity and challenge invariants |
| SignInTheorems.SessionsStayProved | internal/postgres/identity_methods.go:143-195 | every unrevoked Session was proved with a method its User still has and nobody else has |
| SignInTheorems.UsersKeepAMethod | internal/postgres/identity_methods.go:152-158 | every User keeps at least one method, at most one of each kind, and a key's owner is the one User who has it |
| SignInTheorems.UnlinkIff | internal/postgres/identity_methods.go:126-178 | a fresh unlink succeeds exactly for a live, recently proved Session and a linked method other than the one that proves it: no other method needs counting |
| SignInTheorems.LastMethodIsTheProof | internal/postgres/identity_methods.go:152-161 | the last-method guard fires only when the method is the Session's own proof |
| SignInTheorems.UnlinkLeavesOneSession | internal/postgres/identity_methods.go:162-195 | an unlink removes just that method, leaves its replacement as the User's only live Session and other Users' Sessions as they were |
| SignInTheorems.UnlinkReplay | internal/postgres/identity_methods.go:99-121 | at any later time the exact request returns the same replacement Session, as long as that was never revoked and is within its lifetime, and conflicts for anything else |
| SignInTheorems.ExternalSignsIn | internal/postgres/external_login.go:365-620 | a completed proof signs in the one User of its key; a confirmation replaces just its Session, and a link adds a key nobody had and ends all earlier Sessions |
| SignInOutcomes.CompleteIff | internal/postgres/external_login.go:281-620 | an exchanged proof of a valid key completes exactly as a login, a confirmation of the key's owner from a live Session, or a link from a recently proved one of a User without that kind to a key nobody has; it answers the key's owner, or the linking or new User, and any refusal changes nothing |
| SignInTheorems.CodeSignsIn | internal/postgres/email_login.go:253-314 | the right code for a usable, addressed challenge does the same and consumes just that challenge |
| SignInOutcomes.VerifyIff | internal/postgres/email_login.go:216-318 | a fresh verification is refused if its challenge is not usable by it, spends just one attempt if the code is wrong, and otherwise succeeds under the condition of a completion, on the challenge's Email |
| SignInTheorems.CodeSignsInOnce | internal/postgres/email_login.go:227-258 | a consumed challenge never yields another Session, whatever happens later |
| SignInTheorems.DeadCodesNeverWork | internal/postgres/email_login.go:253-278 | a superseded code, or one whose attempts ran out, never signs anyone in again |
| SignInTheorems.VerifyReplaySpendsNothing | internal/postgres/email_login.go:227-245 | at any later time repeating an answered verification spends no attempt, creates no Session and repeats its answer, a Session only while it was never revoked and is within its lifetime |
| SignInTheorems.AttemptsAreLimited | internal/postgres/email_login.go:253-277 | a challenge has spent exactly its distinct wrong requests, and never more than five |
| SignInTheorems.PrepareSupersedes | internal/postgres/email_login.go:95-140 | a fresh request for an acceptable proof target is answered exactly within the limits; its challenge is then the Email's only usable one, and unused earlier ones are dead |
| SignInOutcomes.PrepareIff | internal/postgres/email_login.go:19-148 | a code is sent exactly to somebody who may ask, from a live Session if one is named: a repeated request finds its first challenge if it asks for the same, a fresh one is admitted within the limits |
| SignInTheorems.OneUsableChallenge | internal/postgres/email_login.go:124-126 | an Email never has two usable challenges, even judged at different times |
| SignInTheorems.ChallengesAreLimited | internal/postgres/email_login.go:95-123 | every hour, wherever it starts, holds at most 5 challenges of an Email and 20 of a source, and two of an Email are a minute apart, with no assumption on the clock |
| Worker.Serve | internal/host/worker.go:38-98 | the loop makes exactly the tries of its specification and fails exactly when that does |
| Worker.TriesAlternate | internal/host/worker.go:46-97 | in every trace the two kinds are tried strictly in turn, whatever is handled, empty or failing |
| Worker.OtherKindHadItsTurn | internal/host/worker.go:46-97 | between two consecutive handled items of one kind the other kind was tried and offered nothing or failed to be claimed |
| Worker.BusyKindsAlternate | internal/host/worker.go:46-97 | with both queues never empty the handled kinds strictly alternate, Conversation first |
| Worker.TriesAreOffers | internal/host/worker.go:46-97 | the tries take the offers one by one, none skipped and none twice |
| Worker.OnlyFatalEnds | internal/host/worker.go:46-97 | only an ended context or a fatal failure stops the worker, and only the latter is returned; stale and unavailable tries are followed by the next |

## Left out

- Reply.Send: member and Space identities that are not UUIDs are not representable, because an identity is a 36-byte text.
- Digest.PreimageInjective: is about preimages; that SHA-256 and HMAC do not collide is taken for granted by comparing preimages.
- AgentName.KeyInjective: folds ASCII only; NFKC and full case folding of Agent names are not modelled.
- AgentName.AllocatesLeastFree: finds a name while fewer than 2^63-1 keys are taken, where the source's 64-bit ordinal would overflow.
- Authority.CreateSpace: a slug collision is a flag of the command; Space names and slugs are not modelled.
- HostGate.AcceptClaim: a missing lease expiry time, which the Host refuses, is not representable; the same holds for HostGate.AcceptGrant.
- Authority.AcceptInvitation: invitations are issued, resent and revoked by a step that may write any open invitation, and the Session and address owner are parameters.
- Authority.ConnectMachine: is the last insert of the Machine connection ceremony; the ceremony itself is not modelled.
- Authority.RemoveMember: compares the identities its request digest is made of, since the source recomputes that digest before it uses it.
- SignIn.CompleteExternal: creating, claiming, rejecting and expiring external login transactions is an arbitrary change of their table.
- WorkRun.ClaimRun: which eligible row a selection returns (its ORDER BY and SKIP LOCKED) is left to the caller; so fairness between Works is not stated.
- WorkRun.CreateWork: a Work has no lifecycle but open, the only one the schema allows.
- AgentReporter.Reporter.Report: runs on finite scripts of observations and answers; a context that ends is a script that runs out.
- Worker.Serve: runs on a finite script of offers; the executor, the lease renewal beside it and the waits between polls are not modelled.
- The Works of the reply, Run, authority and sign-in models are separate; a delegated Work is a row of the reply model and not fed to the Run model.
- Locks: transactions are atomic steps, except the report's pre-read and the unlink's key lookup, which the source makes without locks. Lock order and waiting are not modelled.
- Revisions, fences and sequence numbers are unbounded, where the source has 64-bit columns.
- Database errors are no step; a violated unique constraint the source does not name is one error that changes nothing. A lost commit answer is an answer nobody receives.
- The in-place sort of observations is a function, stated by its result.
- List, pagination and inventory projections, avatars, the vocabulary's construction, HTTP, TLS, JSON, cookies, the CLI and its login, the executors' subprocesses, Email and OAuth submission, the web app and migrations: plumbing or terminal-state checks, easier than the members here.
