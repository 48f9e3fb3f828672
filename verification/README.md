# Turnwire: a verified model

Turnwire moves text messages between mailbox endpoints. Every message passes a
deterministic scanner and a model guard, may need an operator's approval, is
signed, and leaves a trail in a hash-chained audit log from which an endpoint
rebuilds its whole state when it starts. This project models that behaviour in
Dafny and proves what the design relies on. `dafny verify dfyconfig.toml` checks
all of it.

## What is modelled

**One endpoint (`internal/mailbox`).** `Endpoint.dfy` is a step machine. One step
is one atomic section of the program: a claim, one append to the audit log, one
update of the maps under their lock, a release. Steps of different operations
interleave freely. An append may be stored, refused without a trace, lost, or
reported as failed although its entry became durable; after a failure the log
handle is unusable until the process restarts. The process may crash between any
two steps, the operator may approve messages at any time, and the signing key may
be rotated, with a crash after the prepared event, after the key, or before the
completed event. `Service.dfy` is the service as an object with the fields of the
program: `Send`, `Receive`, `Confirm`, `claim`, `evaluate`, `rebuildIndex` and
`Shutdown` update its maps in place, each section takes exactly one step of the
machine, and `Yield` stands for whatever other goroutines do between two sections.
Starting a service, after the checks of its limits, rebuilds it from its log.
`Screening.dfy` is the scanner's combination loop and `IdentityRotation.dfy` the
rotation command with its stored key.

**The log as a history.** `Replay.dfy` is the fold that rebuilds the index.
`Ledger.dfy` says when an endpoint may append an event; `LogTheorems.dfy` and
`GuardTheorems.dfy` prove what every such log satisfies. `Invariant.dfy`,
`Frames.dfy`, `Steps.dfy`, `EvaluationSafety.dfy`, `SendSafety.dfy`,
`ReceiveSafety.dfy`, `ProcessSafety.dfy` and `RunSafety.dfy` carry the invariant
of the machine through every step. `Progress.dfy` gives the one form that every
section of an operation has, `Origins.dfy` says where what a step adds comes from,
`Sections.dfy` what single sections do, and `Executions.dfy` builds runs in which
operations succeed. The conclusions for every reachable state are in
`Guarantees.dfy`, `Reports.dfy`, `ReportSteps.dfy`, `ReportSafety.dfy` and
`Answers.dfy` (every answer and every released envelope states entries of the log),
`Duplicates.dfy` (envelopes that arrive again), `Recovery.dfy` (the log on disk after
a failed append), `Confirmations.dfy` (repeated confirmations), `InboxOrder.dfy` (the
order of the live inbox), `InboxReading.dfy` (paging through it) and `Lifecycle.dfy`
(shutdown).

**Several endpoints.** `Network.dfy` puts endpoints on a network that may drop,
duplicate, reorder and replay whatever was handed out, and that may carry anything
signed with keys that no endpoint owns. `Exchange.dfy` says exactly when what one
endpoint hands out is valid at another one.

**The audit file (`internal/audit`).** `AuditScan.dfy` and `AuditLog.dfy` are the
file as bytes: lines, the verified traversal, quota, failed and torn writes,
reopening, references. `AuditRefinement.dfy` shows that the outcomes of the
machine's appends are what the bytes allow.

**The edges.** `FrameReader.dfy` and `RequestLimit.dfy` (`internal/mcpserver`),
`InboxPaging.dfy`, `LogList.dfy`, `Budget.dfy`, `ApprovalStore.dfy` and
`StrictJson.dfy` are the bounded loops around the protocol, in the imperative form
of the program. `InboxEncoding.dfy` and `Utf8.dfy` define the encoded texts whose
lengths they count, and `ApprovalFlow.dfy` connects the approval store with the
actions of the mailbox.

**Symbols.** A digest is the value it was computed from, and a signature names its
key and the value it covers, so both are injective, and a signature under a key
can only come from its holder. JSON encoding of records is the identity on the
mailbox side and an abstract codec with an inverse where bytes matter. Time is an
integer. Identifiers and keys are chosen by the environment among the unused ones.

## Where the code is more subtle than its description

- The mailbox service takes a policy version of any length and whatever model its guard
  names, while a destination refuses one that is longer than 128 bytes
  (`Exchange.ReleasedIsValid` has the exact condition; the configuration file limits
  the policy version before it reaches the service).
- A receipt that is re-issued after a key rotation is a new event with a new
  signature over the unchanged acceptance (`Guarantees.ReceiptsAreStable`).
- The output of a request that is not final is stored in memory but not replayed;
  live and rebuilt state agree up to it, and no caller can see it
  (`Guarantees.ReplayAgreement`).
- Live state agrees with the entries whose append was reported. An append may report
  a failure and become durable nevertheless. Live state then agrees with the log on
  disk exactly if the event of that entry leaves the maps alone
  (`Recovery.DurableAgreement`; `Recovery.Diverges` reaches a state in which it does
  not). The process cannot append any more, and the next one serves what is on disk.
- With more than one operation at a time the live inbox equals the rebuilt one as
  a multiset only. A configuration keeps it in the order of the log in every run
  exactly if it does not start, admits one operation at a time, or has no peer that a
  valid envelope can name (`InboxOrder.AscendsExactlyIf`; `InboxOrder.Disorders` is a
  run that leaves the order). Repeated paging is then complete exactly if each page
  ends in a sequence number above all before it and below all after it
  (`InboxReading.PagesShowTheInboxIff`).
- `Confirm` does not look at `confirmed` again after its claim, so a message may
  have several `delivery_confirmed` events (`Confirmations.ConfirmedTwice`). A
  confirmed message can be confirmed again exactly if, in the process that serves
  now, a call that looked it up before is about to append or may still be admitted
  (`Confirmations.RepeatsExactlyIf`); a restart ends that. Agreement between the
  endpoints is proved for each confirmation.
- Under the limits that the program computes, reading frames does not depend on how
  the input arrives (`FrameReader.ProgramReadsOneWay`). Under an arbitrary limit there
  is one exception: the limit is one below a multiple of the buffer's 4096 bytes, every
  line is accepted, and the input breaks off in a read fault exactly one byte over the
  limit, at a CR. The error is then "too large" if the fault arrives by itself and the
  read fault if it arrives with the last bytes (`FrameReader.CuttingMatters` is the
  exact condition, `FrameReader.CuttingExample` a concrete input).
- A line of exactly 16 MiB can be scanned but is never appended and cannot be read
  through a reference (`AuditScan.ReferenceReadsBack`).

## Model

| member | source | states |
|---|---|---|
| Guarantees.ReplayAgreement | internal/mailbox/replay.go:38-116 | in every reachable state in which nothing is claimed, replaying the entries whose append was reported gives the live requests up to non-final outputs, the live sent, received, seen and confirmed maps, and the same inbox as a multiset, as a sequence if one operation runs at a time; without a failed append these entries are the log on disk |
| Recovery.DurableAgreement | internal/mailbox/replay.go:38-116 | in every such state the same agreement holds with a replay of the log on disk iff no append that reported failure is on disk, or the event of the one that is leaves the maps alone: a guard or approval event, an inbound denial, a key event, a notice, or the verification of an envelope already seen |
| Recovery.DiskReplay | internal/mailbox/replay.go:38-116 | replaying the log on disk is replaying the reported entries and then at most one more |
| Recovery.Diverges | internal/audit/audit.go:283-301 | wherever a message can be sent, a submission whose append reports failure and becomes durable leads to a reachable state that disagrees with the log on disk |
| Guarantees.RebuildAlwaysSucceeds | internal/mailbox/replay.go:88-108 | no reachable log, whatever crashes and rotations produced it, makes the reconstruction fail; the local key history is exactly the keys used, and every receipt verifies under one of them |
| MailboxService.Service.RebuildIndex | internal/mailbox/replay.go:38-116 | on an arbitrary log the in-place reconstruction yields the fold of the log, and it fails exactly when no signing history leads to the current key or a stored receipt does not fit |
| MailboxService.Service.Visit | internal/mailbox/replay.go:47-115 | one entry updates the maps and the remembered verdict as one step of the fold; only a receipt that does not fit is refused |
| MailboxService.Service.VisitReceipt | internal/mailbox/replay.go:88-108 | a stored receipt is accepted iff it repeats its acceptance field by field and verifies under a historical key; it is kept for re-use only if the current key signed it |
| MailboxService.Service.VerifyHistorical | internal/mailbox/signing_history.go:50-57 | succeeds iff some key of the history signed the receipt |
| MailboxService.Service.New | internal/mailbox/service.go:105-159 | a service is created iff its limits are positive and within bounds, policy, policy version and deployment digest are given, and its budgets open; over the log and the keys of any reachable endpoint it then serves the state that the log gives |
| MailboxService.Service.Start | internal/mailbox/service.go:153-158 | a restart of any reachable endpoint succeeds and serves the state that the log gives, and what callers were told before stays told |
| Replay.ClaimKeyTextIsInjective | internal/mailbox/replay.go:118 | the strings under which sends, receives and confirmations are claimed never coincide, whatever the identifiers |
| Guarantees.OneFinalAnswer | internal/mailbox/send.go:30-57 | over a whole run with crashes, all final answers and all envelopes returned under one request ID are identical and belong to one destination, conversation and text |
| Answers.RawCallsAgree | internal/mailbox/types.go:205-227 | two calls that give one request ID, whatever identifiers were generated for them, are answered about one message with one destination and text, with one final answer and one envelope at most |
| Answers.OneMessagePerRequest | internal/mailbox/send.go:41-57 | all answers under one request ID, held-back ones included, name one message |
| Answers.SendAnswersAreLogged | internal/mailbox/send.go:65-126 | every answer to a send has the sequence and head of one entry about its message: released iff it is the release of that envelope, denied iff it is the denial with that reason, review required iff it is the request for approval with that reason |
| Answers.ReceiveAnswersAreLogged | internal/mailbox/receive.go:69-148 | every answer to an inbound envelope has the sequence and head of one entry about its message: accepted iff it is the receipt, after an acceptance of exactly that envelope on that verdict; denied iff it is the denial; review required iff it is the request for approval |
| ReportSafety.StepTold | internal/mailbox/service.go:187-239 | every step keeps all answers, held-back outputs and released envelopes backed by entries of the log |
| Duplicates.DuplicatesRepeat | internal/mailbox/receive.go:38-48 | once the receipt of a message is kept and nothing is under way for it, every later answer of the process for that message repeats it and no further receipt is issued, whatever else happens |
| Guarantees.OtherTripleIsRefused | internal/mailbox/service.go:193-210 | a request whose submission is on disk cannot be claimed with another triple, not even before its submission has reached the maps, unless the append of that submission reported a failure; then the process appends nothing any more |
| Guarantees.ConclusionOf | internal/mailbox/send.go:66-126 | the final answer of a request reports the sequence, hash, message ID and envelope of the one event that concluded it |
| Guarantees.AnswerHasConclusion | internal/mailbox/send.go:66-126 | every final answer a caller got is backed by a durable conclusion of its request |
| LogTheorems.SubmittedOnce | internal/mailbox/send.go:41-57 | a request ID is submitted once, and no two requests share a message ID |
| LogTheorems.ConcludedOnce | internal/mailbox/send.go:66-126 | at most one release or outbound denial exists for each request |
| LogTheorems.SubmissionOf | internal/mailbox/replay.go:62-64 | every indexed request goes back to the submission that its hash, message ID, time and body digest state |
| LogTheorems.ReleaseMatchesSubmission | internal/mailbox/send.go:100-126 | a released envelope carries exactly the destination, conversation, text, message ID and time of its submission, and comes later |
| LogTheorems.IndexGrows | internal/mailbox/replay.go:38-116 | a longer log keeps what a prefix put into the index: bindings, final answers, sent envelopes, acceptances, seen digests and the inbox as a prefix |
| Text.SplitIsUnique | internal/mailbox/send.go:30 | a NUL separator splits a text in one way if the parts before it have no NUL |
| Text.BindingIsInjective | internal/mailbox/send.go:30 | two requests with valid identifiers and the same binding text are the same destination, conversation and text |
| Text.GeneratedIsValid | internal/mailbox/types.go:234-252 | identifiers of the generated form are valid |
| LogTheorems.AcceptedOnce | internal/mailbox/receive.go:30-64 | at most one acceptance exists for each message ID |
| LogTheorems.OneEnvelopePerMessage | internal/mailbox/receive.go:38-64 | all verifications and the acceptance of a message ID carry one envelope digest, over the whole log |
| LogTheorems.InboxIsExact | internal/mailbox/replay.go:84-87 | the rebuilt inbox holds exactly one message for each acceptance, with its body, in ascending order |
| LogTheorems.AcceptanceOf | internal/mailbox/replay.go:84-87 | every received record goes back to the acceptance whose digest, time, sequence and hash it states |
| LogTheorems.ReceiptNamesAcceptance | internal/mailbox/receive.go:120-148 | every receipt, first or re-issued, states time, sequence, hash and envelope of the one acceptance of its message, and comes after it |
| Guarantees.ReceiptsAreStable | internal/mailbox/receive.go:38-48 | all receipts given out for a message over a run, before and after rotations, have one content and were given for one envelope |
| Guarantees.LoggedReceipt | internal/mailbox/receive.go:120-148 | a recorded receipt names an acceptance entry of the log |
| Guarantees.ReviewsWereApproved | internal/mailbox/send.go:75-98 | whatever crossed on a review, in either direction, was approved for exactly its message ID, direction, endpoints and body |
| ApprovalFlow.HoldApproveRetry | internal/mailbox/evaluation.go:73-75 | a review request that the service saves, and the operator is shown and confirms, makes exactly the action approved that the service then looks for, and no other; without faults and conflicts it succeeds |
| ApprovalFlow.ActionIsExact | internal/approval/approval.go:42-50 | two held-back messages need the same approval iff they agree in message ID, direction, both endpoints and body |
| Guarantees.ClaimsAreBounded | internal/mailbox/service.go:187-221 | the active claims are the running operations, their number is the semaphore's occupancy, and it stays within MaxConcurrent |
| Guarantees.InboxAscends | internal/mailbox/receive.go:105-116 | with MaxConcurrent one the live inbox is ascending in every reachable state |
| InboxOrder.AscendsExactlyIf | internal/mailbox/receive.go:105-116 | for every configuration: its live inbox is in the order of the log in all reachable serving states iff it does not start, admits one operation at a time, or has no peer with a valid identifier |
| InboxOrder.Disorders | internal/mailbox/receive.go:105-116 | every other configuration has a run in which the message accepted second enters the inbox first |
| Confirmations.RepeatsExactlyIf | internal/mailbox/confirm.go:36-66 | in every reachable serving state in which a message is confirmed: some continuation, with any crashes and restarts, adds a further confirmation of it to the log iff the process can still append and a call that looked the message up before stands at its append, or waits for its claim while the process is not closing |
| Confirmations.StepOver | internal/mailbox/confirm.go:36-66 | where that condition fails for a confirmed message, no step makes it hold again or adds a confirmation |
| Confirmations.ConfirmedTwice | internal/mailbox/confirm.go:36-66 | every configuration that starts and has a peer with a valid identifier has a run whose log holds two confirmations of one message |
| Guarantees.LogIsAlwaysOk | internal/mailbox/service.go:233-239 | every log on disk in a reachable state consists of admissible events in one chain, so the log theorems apply to it |
| RunSafety.StepSafe | internal/mailbox/service.go:187-239 | every step of an endpoint keeps the invariant, under every outcome of appends and guards |
| RunSafety.RunSafe | internal/mailbox/service.go:187-239 | every run of an endpoint keeps the invariant |
| RunSafety.RebuildNeverFails | internal/mailbox/replay.go:97-102 | under the invariant every stored receipt fits its acceptance and some local key |
| ProcessSafety.AdvanceSafe | internal/mailbox/send.go:41-126 | every section of a send, a receive and a confirmation keeps the invariant |
| Lifecycle.AdvanceNearer | internal/mailbox/service.go:216 | every effective step of an operation leaves the other operations alone and brings it closer to its release; a step has no effect only if the environment answers what it cannot answer |
| Progress.AdvanceIsSection | internal/mailbox/send.go:41-126 | every section of the three operations goes on with the same envelope, comes closer to its release, appends at most one event, which is about that envelope or receipt, and forgets no confirmation |
| Lifecycle.NeverStuck | internal/mailbox/service.go:167-185 | in every reachable state every claimed operation has an effective step, whatever the log, the guards and the approvals do |
| Lifecycle.DrainStep | internal/mailbox/service.go:187-192 | while the process shuts down no step claims anything, and each effective step of an operation uses up part of a finite amount of work |
| Lifecycle.ShutdownDrains | internal/mailbox/service.go:187-192 | after a shutdown begins, under any schedule, operations move at most twelve times for each place of the semaphore, and none is added |
| Lifecycle.ShutdownCompletes | internal/mailbox/service.go:167-185 | a shutdown reaches the state in which nothing is claimed, whatever other calls, notices and approvals come in between and in whatever order operations are attended to, once they have been attended to twelve times for each place of the semaphore |
| Network.DeliveryAgreement | internal/mailbox/confirm.go:22-66 | if the source recorded a confirmation, the destination's entry at the receipt's sequence and hash is the acceptance of exactly the envelope and body that the source released for that message, over every run of the network |
| Network.AcceptedWasReleased | internal/mailbox/receive.go:150-167 | whatever an endpoint accepted from another endpoint of the system, that one released, to it, with that body and conversation |
| Network.ConfirmedReceipt | internal/mailbox/confirm.go:32-42 | a receipt that a source has confirmed is one that its destination recorded |
| Network.ConfirmedRelease | internal/mailbox/confirm.go:36-42 | every confirmation is preceded by the release of the envelope whose digest the receipt states |
| Exchange.ReleasedIsValid | internal/mailbox/receive.go:150-167 | a released envelope is valid at its destination iff the destination pins the key that signed it, admits its size, finds policy version and model within their lengths, and looks at it from five minutes before its creation up to the age it allows |
| Exchange.ReleaseNamesItsVerdict | internal/mailbox/send.go:100-106 | a released envelope states the policy and the model of the verdict that let it pass, and the sequence and head of that verdict or of the approval used after it, with no other evaluation in between; one of the endpoint's keys signed it |
| Exchange.ReleasedCanBeAccepted | internal/mailbox/receive.go:55-117 | such an envelope can be brought to its acceptance at any destination that serves, has a place left and has not seen the message |
| Exchange.ReceiptIsValid | internal/mailbox/confirm.go:22-35 | a receipt is valid at the source iff the source pins the key that signed it and looks at it from five minutes before the acceptance up to the age it allows |
| Network.SystemRun | internal/mailbox/receive.go:150-167 | in every run of a system all endpoints keep the invariant and everything inbound is genuine |
| GuardTheorems.GuardGate | internal/mailbox/evaluation.go:13-71 | every release and acceptance follows one deterministic and one model verdict of its scope with no other evaluation in between; both allow, or the worst is review and an approval was consumed; the deterministic one is never deny; its reason is that of the more severe verdict, of the model if they are equal |
| GuardTheorems.DenialStopsEvaluation | internal/mailbox/evaluation.go:28-30 | a deterministic deny is not followed by a model verdict until the scope is screened anew |
| GuardTheorems.DecisionFollowsGate | internal/mailbox/replay.go:43-60 | the verdict that the fold remembers for a scope is the one its evaluation stands at, however entries interleave |
| GuardTheorems.ReasonIsRecovered | internal/mailbox/replay.go:50-53 | in a log whose entries were written and hashed with or without their reasons, the reconstruction recovers for every release and acceptance the reason for which it was made |
| GuardTheorems.LegacyIndexIsRestored | internal/mailbox/replay.go:43-53 | such a log rebuilds the index that the same log with all reasons filled in would rebuild |
| GuardTheorems.LegacySnoc | internal/mailbox/service.go:233-239 | a log in either form stays one when whatever may be appended there is appended in either form |
| RunSafety.LegacyReplays | internal/mailbox/replay.go:88-108 | the reconstruction reaches the end of such a log if its receipts are signed with local keys |
| GuardTheorems.LegacyReplay | internal/mailbox/replay.go:50-53 | erasing the reason from any releases and acceptances of a log changes neither the rebuilt index nor whether the reconstruction succeeds |
| Screening.Screen | internal/mailbox/evaluation.go:14-20 | the last denial wins, otherwise the first review; nothing found is an allow; it denies iff something found denies |
| MailboxService.Service.Send | internal/mailbox/send.go:13-127 | every answer is about the call as it was made, with only empty identifiers filled in, and reports an entry of the log; invalid, refused and failed calls are reported only for their cause; reachability is kept under any interference |
| MailboxService.Service.SendAgain | internal/mailbox/send.go:30-37 | two calls with one request ID and anything in between: one message, one final answer, one envelope |
| MailboxService.Service.Receive | internal/mailbox/receive.go:15-118 | every answer reports an entry of the log about the envelope's message; a conflict means another envelope holds the message ID or its claim; failures are reported only for their cause |
| MailboxService.Service.IssueAcknowledgement | internal/mailbox/receive.go:120-148 | the receipt is recorded before it is stored and answered, and a failed append ends the operation without an answer |
| MailboxService.Service.Confirm | internal/mailbox/confirm.go:12-68 | every answer is a confirmation in the log; the lookup precedes the claim and is not repeated |
| MailboxService.Service.Claim | internal/mailbox/service.go:187-221 | closed, conflict, final answer, busy and grant in the order of the program, and exactly the granted claim changes the state |
| MailboxService.Service.ReleaseClaim | internal/mailbox/service.go:216 | the claim is gone, the place is free, the answer is out, log and maps are untouched |
| MailboxService.Service.Evaluate | internal/mailbox/evaluation.go:13-71 | a deterministic deny goes on without a call of the model; otherwise the effective verdict of both; guard failures and failed appends end the operation |
| MailboxService.Service.SettleReview | internal/mailbox/send.go:75-98 | a review passes only on an approval for the exact action, which is consumed in the log; otherwise it is saved and left pending |
| MailboxService.Service.AppendEvent | internal/mailbox/service.go:233-239 | an entry is returned iff the append was stored, and the operation goes on only then |
| MailboxService.Service.Shutdown | internal/mailbox/service.go:167-171 | closes admission and changes nothing else |
| SigningHistory.WalkTransitions | internal/mailbox/signing_history.go:30-48 | on any transition map, cycles included, the walk ends; it returns the duplicate-free verified history of the key, and fails iff there is none |
| SigningHistory.LocalSigningKeys | internal/mailbox/signing_history.go:15-48 | the same for the prepared transitions of a log |
| SigningHistory.VerifiesIfMade | internal/identity/identity.go:247-265 | a transition verifies iff the holders of both keys made it, for this identity and from this key |
| SigningHistory.HistoryIsUnique | internal/mailbox/signing_history.go:30-48 | at most one signing history leads to a key |
| SigningHistory.RotationExtendsHistory | internal/identity/identity.go:174-214 | a prepared transition to a new key leaves the history of the old key valid and is itself a valid extension, so a crash on either side of the commit is harmless |
| IdentityRotation.RotationPlan.Prepare | internal/identity/identity.go:174-214 | the certificate verifies against the current key, which is not touched |
| IdentityRotation.RotationPlan.Commit | internal/identity/identity.go:217-243 | replaces the key once and only if it is still the one the certificate starts from; a failure may have taken effect |
| IdentityRotation.Operator.Rotate | internal/cli/identity.go:92-122 | wherever the command stops, the endpoint can be started again and all earlier receipts verify; the new key is in use iff its replacement took effect |
| AuditScan.ScanAndVerify | internal/audit/scan.go:178-239 | succeeds iff the file is a chain of complete, canonical, linked lines, and then visits exactly its entries with their byte ranges and returns their number and head |
| AuditScan.VerifiedIsChain | internal/audit/entry.go:224-269 | in a verified file every entry is the one that an append writes after those before it |
| AuditScan.HeadCommits | internal/audit/entry.go:271-292 | two chains of one length with one head are equal |
| AuditScan.SameHeadSameLog | internal/audit/scan.go:202-233 | two files that verify with one sequence and head hold the same entries in the same order |
| AuditScan.CheckpointFixesPrefix | internal/identity/identity.go:322-357 | a checkpoint verifies, and a verified log agrees with it iff the log starts with the very entries it was signed for |
| AuditScan.OneMoreLine | internal/audit/audit.go:283-301 | after any prefix of the next line was written, the file reads as before, or with exactly that entry, or not at all |
| AuditScan.ReferencesTile | internal/audit/scan.go:217-229 | the references of a scan lie one after the other and cover the file |
| AuditScan.ReferenceReadsBack | internal/audit/scan.go:63-97 | every reference of a verified file reads back its own entry, also after the file has grown |
| AuditScan.ReferenceReadsNothingElse | internal/audit/scan.go:63-97 | whatever has become of the file, a reference of a verified one yields its own entry or nothing |
| AuditScan.LengthsAddUp | internal/audit/scan.go:217-229 | the line lengths sum to the size of the file |
| AuditLog.SuccessesAreKept | internal/audit/audit.go:219-302 | a log that keeps its attempts holds all successful appends in order |
| AuditLog.OthersFailed | internal/audit/audit.go:219-302 | besides the successful appends it holds at most one entry for each append that reported failure |
| AuditLog.Log.ScanKeepsAttempts | internal/audit/scan.go:178-239 | after any run of appends, rejections, failed or torn writes and reopenings, a scan that succeeds yields a log that keeps all attempts |
| AuditLog.Log.Open | internal/audit/audit.go:90-170 | with a positive quota and no other writer, reopening is refused exactly when a failed write left part of a line; otherwise the log is what it was plus at most the entry of the last failed append |
| AuditLog.Log.AppendWithReference | internal/audit/audit.go:229-302 | stored iff the event is admitted, the handle is open and has not failed, the line is short enough, the file stays within the quota with it, and the write goes through; each refusal iff its condition is the first to fail, without a trace; a success adds exactly the next line; a failed write poisons the handle |
| AuditLog.Log.ReadReference | internal/audit/scan.go:63-97 | every reference that was ever handed out reads back its own entry while the handle works |
| AuditLog.Log.Usage | internal/audit/audit.go:210-217 | the reported size is the size of the file and the sum of its lines |
| AuditLog.Log.CurrentHead | internal/audit/audit.go:305-312 | the reported sequence and head are those of the verified entries |
| AuditRefinement.WriteRefinesAppend | internal/audit/audit.go:283-301 | every write of a line leaves the log that the endpoint machine has after the corresponding outcome, or a file on which no process starts |
| FrameReader.Reader.ReadFragments | internal/mcpserver/frame_reader.go:97-143 | for every way in which the buffer cuts an input, the collected frame or error is that of the simple specification, and a frame is at most two bytes over the limit |
| FrameReader.Reader.ReadFrame | internal/mcpserver/frame_reader.go:84-95 | one frame of the specification; an error, once met, is repeated |
| FrameReader.Reader.ReadAll | internal/mcpserver/frame_reader.go:84-143 | calling until an error yields exactly the frames of the input and its final error |
| FrameReader.Reader.Read | internal/mcpserver/frame_reader.go:64-79 | the bytes handed on are the frames, one after the other |
| FrameReader.FramesAreInput | internal/mcpserver/frame_reader.go:97-143 | the frames, one after the other, are the beginning of the input, all of it if it ends regularly, and the content of each is valid and within the limit |
| FrameReader.Overflow | internal/mcpserver/frame_reader.go:145-171 | what the early size check refuses can never become an acceptable frame |
| FrameReader.ProgramReadsOneWay | internal/mcpserver/server.go:202 | under every limit that the program computes, any two ways in which the buffer can cut an input give the same frames and the same final error |
| FrameReader.CuttingMatters | internal/mcpserver/frame_reader.go:97-143 | for an arbitrary limit, frames and final error are independent of the cutting iff the input is not of the one ambiguous kind or the limit is not one below a multiple of the buffer size |
| FrameReader.TwoCuttings | internal/mcpserver/frame_reader.go:58 | a full buffer at a time, an input can be cut in two ways at most, which differ in whether the final error comes with the last full buffer or after it |
| FrameReader.CuttingExample | internal/mcpserver/frame_reader.go:134-171 | under a limit of 4095, an input of 4095 bytes and a CR ends in different errors, depending on whether the fault comes with them or by itself |
| FrameReader.PayloadLimitSuffices | internal/mcpserver/frame_reader.go:145-151 | for limits up to two below the largest int, the overflow check never refuses an acceptable frame |
| FrameReader.FrameByteLimit | internal/mcpserver/frame_reader.go:29-37 | a positive input size gives the allowance plus six bytes for each input byte, without overflow and saturated at the largest int; any other is an error |
| RequestLimit.Stream.AdmitFrame | internal/mcpserver/request_limit.go:168-206 | budget, batch, undecodable, stopped, non-call, duplicate, busy and forwarded frames, in the order of the program, with exactly their effects |
| RequestLimit.Stream.Read | internal/mcpserver/request_limit.go:70-116 | the bytes given to the SDK are a prefix of the forwarded frames; what was decided is about the frames of the input, each once and in order; every call turned away as busy was told so unless the stream ended before |
| RequestLimit.Stream.BeginResponses | internal/mcpserver/request_limit.go:261-274 | exactly the pending ones of the given IDs move from pending to responding, in order and each once |
| RequestLimit.Stream.FinishResponses | internal/mcpserver/request_limit.go:276-286 | the counter is corrected to zero only if the stream was stopped in between |
| RequestLimit.Stream.Write | internal/mcpserver/request_limit.go:118-155 | a success writes the frame, which is classified and within the byte limit; a response to a call that is open where it enters the output lane closes it there, once, and without interference gives its place back; every failure stops the stream |
| RequestLimit.Stream.AlwaysBounded | internal/mcpserver/request_limit.go:34-53 | pending plus responding stay within maxInFlight, non-calls within sixteen, calls and responses of an ID alternate at every point, delivered bytes are a prefix of the admitted frames |
| RequestLimit.AlternationCounts | internal/mcpserver/request_limit.go:198-205 | taking turns means that calls exceed responses by one or not at all |
| InboxPaging.EscapingIsBounded | internal/mailbox/types.go:30-31 | escaping expands a text at most sixfold |
| InboxPaging.OneMessageFits | internal/mailbox/types.go:26-34 | one maximally escaped legal message fits into an output |
| InboxEncoding.EncodedLengthIsExact | internal/mailbox/inbox.go:32-37 | the counted length of a message is the number of bytes of its encoding, field by field |
| InboxEncoding.TextReadsBack | internal/mailbox/types.go:188-197 | every text reads back from its escaped form |
| InboxEncoding.EncodedPageFits | internal/mailbox/inbox.go:62-70 | no page that is read exceeds the output bound when it is encoded |
| Utf8.ByteLengthIsExact | internal/mailbox/types.go:229-232 | the length that is checked is the number of bytes of the text |
| InboxPaging.Inbox.Read | internal/mailbox/inbox.go:24-53 | a page is the longest run of messages after the cursor within both caps; only limits outside 1 to 100, zero meaning 20, are refused |
| InboxPaging.Inbox.OutputAlwaysFits | internal/mailbox/inbox.go:62-70 | the size check after a page is built can never fail |
| InboxPaging.Inbox.ReadAll | internal/mailbox/inbox.go:24-53 | on an ascending inbox repeated paging ends and returns every message exactly once; on any inbox without duplicates it does so iff each page ends in a sequence number above all before it and below all after it |
| InboxPaging.PagingIsComplete | internal/mailbox/inbox.go:24-53 | the same from any cursor |
| InboxPaging.PagingCompleteIff | internal/mailbox/inbox.go:30-52 | with any limit, paging of an inbox in any order is complete iff each page ends in a sequence number above all before it and below all after it |
| InboxPaging.SinglePagesNeedOrder | internal/mailbox/inbox.go:30-52 | with pages of one message, paging is complete iff the inbox is ascending |
| InboxReading.InboundIsDecent | internal/mailbox/receive.go:150-160 | every envelope that was ever verified or accepted, and every receipt that was ever confirmed, passed all checks that do not depend on the time, under whatever configuration it came in |
| InboxReading.InboxIsLegal | internal/mailbox/receive.go:111-115 | every message in a reachable inbox has valid identifiers and a body within the protocol's bound, under whatever configuration it was accepted |
| InboxReading.PagingShowsTheInbox | internal/mailbox/inbox.go:24-53 | in every reachable state with MaxConcurrent one, repeated paging returns every message of the inbox exactly once and in order |
| InboxReading.PagesShowTheInboxIff | internal/mailbox/inbox.go:30-52 | in every reachable state and with every limit, paging returns the whole inbox iff each page ends in a sequence number above all before it and below all after it |
| InboxReading.SinglePagesShowTheInbox | internal/mailbox/inbox.go:30-52 | in every reachable state, pages of one message return the whole inbox iff it is ascending |
| LogList.ScanLogEntries | internal/cli/logs.go:236-280 | returns exactly the last matches up to the limit, and fails iff their total size exceeds the budget |
| LogList.MatchingIsExact | internal/cli/logs.go:248-254 | an entry occurs among the matches as often as in the log if it has the kind and the conversation asked for, and not at all otherwise |
| LogList.MatchingAscends | internal/cli/logs.go:248-270 | the matches keep the order of the log |
| LogList.Retain | internal/cli/logs.go:253-266 | after each match the window is the longest suffix that neither drop rule has cut, within the byte budget |
| LogList.WindowDecides | internal/cli/logs.go:271-280 | the last drop for bytes lies in the requested window iff that window is too large |
| Budget.Counter.Open | internal/budget/budget.go:33-63 | a missing record starts fresh, a corrupt or negative one is refused and kept |
| Budget.Counter.Take | internal/budget/budget.go:68-99 | when the window is over the whole allowance is there again; before, each charge uses one, and a used-up allowance refuses; with every outcome of the write for answer, memory and disk; what is admitted has been persisted, and the persisted window start never moves backwards |
| Budget.Counter.AdmissionsAreBounded | internal/budget/budget.go:65-99 | over any run with any clock, restarts and failed writes, admissions stay within the limit for each window that can have begun |
| ApprovalStore.NamesAreDistinct | internal/approval/approval.go:114-138 | the file names of a message determine it and never meet those of another kind |
| ApprovalStore.LoadedIsRecorded | internal/approval/approval.go:155-183 | a review loads as it was recorded; a body kept outside the record is the stored one and has the recorded digest |
| ApprovalStore.Store.SavePending | internal/approval/approval.go:82-110 | success means that the exact binding and body load, inline, spilled, replayed or resumed; a differing request changes nothing; without faults and conflicts it succeeds |
| ApprovalStore.Store.WriteSpilledBody | internal/approval/approval.go:112-135 | the raw body is stored unless the record is, and another body is a conflict |
| ApprovalStore.Store.StorePending | internal/approval/approval.go:137-153 | an existing record decides: done iff it loads as the same binding and body |
| ApprovalStore.Store.Approve | internal/approval/approval.go:191-219 | the first approval of a message that takes effect stands; a different one changes nothing and fails |
| ApprovalStore.Store.ApprovePending | internal/cli/approve.go:43-63 | what is approved is the binding of the pending review that was shown, which is about the message asked for and stays loadable; without a review or a confirmation nothing changes |
| ApprovalStore.Store.IsApproved | internal/approval/approval.go:222-235 | true iff an approval of exactly this action took effect; an unreadable record approves nothing |
| StrictJson.ValidateText | internal/strictjson/strings.go:18-44 | on every lexically valid text the scan accepts iff each high surrogate escape is immediately followed by a low one and no low one stands alone |
| StrictJson.AcceptsPaired | internal/strictjson/strings.go:18-44 | the scan's string tracking is that of the grammar in section 7 of RFC 8259 |
| StrictJson.ConsumeStringEscape | internal/strictjson/strings.go:46-70 | it returns an end iff the bytes up to there are one complete escape: a short one, the code of a character that is no surrogate, or a high surrogate and a low one |
| StrictJson.DecodeUnicodeEscape | internal/strictjson/strings.go:72-91 | the loop over four digits yields their value without losing bits to the 16-bit width, and stays in bounds |
| StrictJson.DigitsAreExact | internal/strictjson/strings.go:79-88 | exactly the bytes of the small and capital hexadecimal digits count, each with its value |
| StrictJson.PairsAreSupplementary | internal/strictjson/strings.go:55-69 | the two ranges of surrogates are those of UTF-16: two halves are a pair iff they encode a character outside the Basic Multilingual Plane |
| StrictJson.PairsUpIsPaired | internal/strictjson/strings.go:54-69 | pairing from left to right is pairing of neighbours |

## Left out

- Cryptography and encodings (AES-GCM, Ed25519, SHA-256, base64, JSON of whole records) are symbols or abstract inverse pairs; only the escape lengths of inbox messages are computed.
- The guard's HTTP client, the scanner's regular expressions and prompts: verdicts and findings are arbitrary values of the environment.
- Operating-system locks, access control lists and build variants: one writer at a time is assumed, and the secure store is a directory of files that are created once or replaced.
- RFC 3339 texts and the monotonic clock: timestamps are integers, and age checks are comparisons.
- Data that was synchronized is assumed not to be lost; of data that was not, some prefix survives.
- Detail maps of audit events are typed fields, so a detail that does not parse, or that exceeds the size limits of a detail, appears as an append that is refused.
- The guard's and the service's budgets are single flags in the mailbox operations; the counter itself is modelled in `Budget.dfy`. The approval store is a map in the endpoint machine and files in `ApprovalStore.dfy`.
- `SavePending` in the machine may fail at any time for any reason, which covers its conflicts.
- `keys`, `owned`, `looked`, `answers` and the operations with their program counters, and `trace`, `handled`, `excused` and `written` of the stream, are history variables of the model, not fields of the program.
- `MailboxService.Service.Yield` and `RequestLimit.Stream.Interfere` have no effect of their own: their contracts are what other goroutines may have done, so methods are proved against every interference that keeps the invariant.
- MailboxService.Service.Shutdown: the cancellation of running calls and the signal that the drain is over are not fields of the model; that the drain ends is `Lifecycle.ShutdownCompletes`.
- InboxReading.PagingShowsTheInbox: the texts of digests and times are parameters with the lengths and characters of the program's, and sequence numbers are within 64 bits.
- `MailboxService.Service.SendAgain` and `ApprovalFlow.HoldApproveRetry` are sequences of calls that callers make, not methods of the program.
- MailboxService.Service.LookUpInbound: on a conflict the claim is given back without an interleaving in between, so that the conflict still holds when it is reported.
- Network.DeliveryAgreement: speaks of confirmations whose destination is an endpoint of the system and whose pinned key is one of its keys.
- `Inbox` and `Checkpoint` as operations of the machine appear as notices that append an event; paging itself is `InboxPaging.dfy`.
- Budget.Counter.Take: durations are unbounded, so the saturation of differences beyond 292 years is not modelled.
- The MCP tool registration, the rest of the command line, configuration files, identity revocation, attestation, packaging and scripts: not part of this model.
