# Verification model of anygarden

Dafny 4.11 proofs about the protocol cores of the anygarden repository: the federated
channel contract, the campaign loop, the agent's chat client, the learnings section of
an agent's instructions, and the cycle brief. `dafny verify dfyconfig.toml` checks the
whole project.

## What is modelled

**Federation (`Federation*.dfy`).** One channel has an authority (`Model`), a second
writer on the same event log (`ParticipantModel`) and an ordered replica (`Follower`).
The three classes keep the fields of the original and are proved against a decision
function over a pure replay of the log. `FederationHistory` proves what every log has in
common; `FederationReplica` proves what every run of the three together has in common;
`FederationOutcomes` says in literal states, codes and fields what each command, change
and delivery leads to, without the tables that decide it.
The policy (`Context`) changes freely between steps; only the authority and channel ids
stay fixed. Schema validity, canonical JSON and UUIDv5 (section 5.5 of RFC 9562) are
represented by typed values and an injective constructor.

**Campaign loop (`Campaign*.dfy`).** `CampaignClaim` interleaves the reads and the
compare-and-set writes of any number of scheduler passes with closes and other writes.
The other modules take every hook, tick and action as one serialised transaction:
`CampaignRules` (state table, judge, budget and clock arithmetic), `CampaignSpec` (each
step as a function of the campaign's value), `CampaignSafety` (the invariant, one lemma
per kind of write), `CampaignRuns` (promises over whole runs), `CampaignDeadlines` (runs
on a clock), `CampaignRechecks` (when a running evaluation is asked for again),
`CampaignOutcomes` (what every report, close and end of a run leads to, in literal
outcomes, times and scores) and `CampaignActions` (the same for ticks, stops, people, the
agent and the machines). The
documented limit of one repeated request per 300 s holds only while every tick lists the
evaluation; `WhenATickAsksAgain` gives the exact condition and
`AskedAgainAfterFortySeconds` an input that breaks the limit.
`Campaigns.Campaign` is the database row with its attempts; its methods are the hooks,
branch by branch, each proved to leave exactly the state its step function names, and
`Perform` ties them all to the invariant. A ghost history `past` beside each attempt
keeps what the rows no longer show: the usage totals read, whether it closed while the
campaign ran, the bar its score was judged against, when its evaluation was requested.

**Chat client (`ChatRoom.dfy`, `ChatClients.dfy`).** The per-room counters that stop
agents answering each other for ever, and the bounded filter for replayed messages. The
class keeps the original's dictionaries, set and queue; the specification of a room keeps
every key ever accepted, and the class is proved to remember exactly the last 256.

**Learnings section (`Markdown.dfy`, `Learnings.dfy`, `LearningsLaws.dfy`).** Lines are
classified once by character-level predicates for the original's regular expressions
(CommonMark 0.31 sections 4.2, 4.3 and 4.5); the scan, the rewrite and the check work on
classified lines. Two properties hold only under a condition, stated as an
if-and-only-if. `LastWriteWins` fails exactly when a start marker without a later end
marker comes before the place of the write. `SectionStaysContained` fails exactly when
the body's first line is a setext underline, which the check accepts
(`AnUnderlinePassesTheCheck`), although its documentation promises that text which would
end the section is refused.

**Brief (`Brief.dfy`).** The fitting of six sections into the limit, for arbitrary
header, bodies and rules. The documented limit of 12,000 characters holds exactly when
the rules block has at most 11,998 characters; twenty long pin paths overflow it
(`LongPinsOverflow`).

## Model

| member | source | states |
|---|---|---|
| FederationAuthority.Model.Apply | contracts/federation/v1/check.py:82-324 | every submission gets the decision taken on the replay of the log; only a commit changes the four maps and appends its one event; observations grow by at most one new note; the maps stay the replay of the log |
| FederationAuthority.Model.Perform | contracts/federation/v1/check.py:148-284 | a fresh command either changes nothing and is refused, or changes the maps as its event and receipt alone say |
| FederationAuthority.Model.Move | contracts/federation/v1/check.py:190-277 | the ten-state machine: the refusal, the next record, and the note of a late result after a cancel |
| FederationAuthority.Model.ReleaseReservations | contracts/federation/v1/check.py:278-281 | the deletion loop drops the reservations of the rejected delegation and no other |
| FederationAuthority.ParticipantModel.Apply | contracts/federation/v1/participant_check.py:21-68 | a change is answered by the members and operations; applied, it appends one event; otherwise nothing changes; members and operations stay those of the shared log |
| FederationReplica.Follower.Apply | contracts/federation/v1/check.py:338-384 | the answer to any delivery, and a state that changes only when the event is taken |
| FederationHistory.CommitsAreLawful | contracts/federation/v1/check.py:95-284 | whatever the policy, a commit is lawful for the log: new key, flat thread, free task and id, or a permitted move with the next revision |
| FederationHistory.ReceiptsAreWriteOnce | contracts/federation/v1/check.py:139-147 | every committed command still has its first receipt in every later state |
| FederationHistory.RetryReturnsTheFirstReceipt | contracts/federation/v1/check.py:139-147 | an admitted retry of a committed command returns the first receipt, however far the delegation moved |
| FederationHistory.LogIsNumberedAndDistinct | contracts/federation/v1/check.py:297-323 | entry i of every log has number i + 1 and no two entries, of either writer, share an event id |
| FederationHistory.CommitKeepsSound | contracts/federation/v1/check.py:150-284 | each commit keeps flat threads, the reservation bijection and unbound requests, and only extends the history |
| FederationHistory.EveryLogIsSound | contracts/federation/v1/check.py:150-284 | in every log each thread root is a top-level message and reservations and non-rejected delegations are in bijection |
| FederationHistory.HistoryOnlyExtends | contracts/federation/v1/check.py:188-284 | final states absorb; after a cancel or an unknown a delegation never completes or fails; an execution is bound at most once; messages never change |
| FederationHistory.RevisionsCountEvents | contracts/federation/v1/check.py:177-283 | the committed events of one delegation carry revisions 1, 2, 3, ... |
| FederationHistory.ReservationHolds | contracts/federation/v1/check.py:165-186 | while a requested delegation is not rejected its task stays reserved for it, and its source message exists |
| FederationHistory.ReservedAgainOnlyAfterRejection | contracts/federation/v1/check.py:165-186 | a task is reserved again only after a rejection and under a delegation id no earlier event used |
| FederationHistory.FreeExactlyWhenRejected | contracts/federation/v1/check.py:165-281 | a task is unreserved exactly when every delegation ever requested for it was rejected |
| FederationHistory.ReservedAgainExactlyAfterRejection | contracts/federation/v1/check.py:165-186 | an admitted request in good order is granted if and only if its id is fresh and every earlier delegation of its task was rejected; granted, it reserves the task |
| FederationHistory.CancelAndUnknownAlternate | contracts/federation/v1/check.py:228-242 | cancel_requested and unknown can alternate as often as request ids are available |
| FederationReplica.GenuineDelivery | contracts/federation/v1/check.py:363-384 | a genuine delivery answers duplicate, committed or gap exactly as its number is at most, one past, or beyond the cursor |
| FederationReplica.CopyIsExact | contracts/federation/v1/check.py:381-383 | a copy keeps every entry under its number and its id, and no other numbers or ids |
| FederationReplica.ReplicaRefinesTheLog | contracts/federation/v1/check.py:82-384 | every interleaving of commands, participant changes and deliveries keeps the log genuine and the follower a copy of its first `cursor` entries |
| FederationReplica.EveryReachableState | contracts/federation/v1/check.py:327-384 | from an empty channel: sound log, participants equal to the replay at the cursor, follower events exactly the first `cursor` entries and nothing else, observations without duplicates |
| FederationReplica.CoveringSchedulesConverge | contracts/federation/v1/check.py:338-384 | any schedule that delivers the log in order as a subsequence ends with the cursor at the end of the log |
| FederationOutcomes.AdmittedExactly | contracts/federation/v1/check.py:92-132 | a command is admitted if and only if it comes from its own node for this channel under a live grant of its epoch that covers actor and kind, with exported executors, online and not archived |
| FederationOutcomes.RefusedAdmissions | contracts/federation/v1/check.py:92-132 | the refusal code of every other command, in order |
| FederationOutcomes.AnswersInOrder | contracts/federation/v1/check.py:86-147 | size, version and schema first, then admission, then the receipts: the first receipt for the same command, a conflict for another |
| FederationOutcomes.CommitsLeadThere | contracts/federation/v1/check.py:159-310 | what the receipt of each kind of command says: number, event id, revision, and the literal earlier state, state, process and task status |
| FederationOutcomes.EachStateHasItsCommand | contracts/federation/v1/check.py:228-247 | each state is reached by exactly one kind of command; completed exactly by a successful result, failed exactly by a failed one |
| FederationOutcomes.CommittedMovesLeadThere | contracts/federation/v1/check.py:228-284 | the same of every answer that commits, with the whole record it leaves |
| FederationOutcomes.MovesCommitExactly | contracts/federation/v1/check.py:188-268 | an admitted step commits if and only if actor, revision, state, policy and bound execution allow it |
| FederationOutcomes.RefusedMoves | contracts/federation/v1/check.py:188-268 | the refusal of a step: unknown delegation, wrong actor, late result, old revision, final state, unknown state, local policy |
| FederationOutcomes.RefusedTurns | contracts/federation/v1/check.py:223-268 | which steps are out of turn in which state, and which name the wrong execution |
| FederationOutcomes.LateResultsAreNotedExactly | contracts/federation/v1/check.py:204-220 | a result after a cancel is noted if and only if it is the bound execution's, from its executor |
| FederationOutcomes.MessagesCommitExactly | contracts/federation/v1/check.py:150-161 | a message commits if and only if its id is new and its thread root is a top-level message |
| FederationOutcomes.RequestsCommitExactly | contracts/federation/v1/check.py:165-186 | a request commits if and only if delegation and task are free, at revision 0, from the task's own source message; what it then records |
| FederationOutcomes.RefusedRequests | contracts/federation/v1/check.py:165-176 | the refusal code of every other request, in order |
| FederationOutcomes.LastEventSetsTheState | contracts/federation/v1/check.py:188-284 | in every log a delegation is completed exactly when its last event is a successful result, failed exactly when that is a failed one, and so on for every state |
| FederationOutcomes.ChangesApplyExactly | contracts/federation/v1/participant_check.py:21-39 | a participant change is applied if and only if a local administrator of the authority makes it on an open channel at the member's revision under a new operation |
| FederationOutcomes.RefusedChanges | contracts/federation/v1/participant_check.py:21-39 | the answer to every other change, in order |
| FederationOutcomes.ChangesSetTheMember | contracts/federation/v1/participant_check.py:40-66 | an applied change gives the member its role and the next revision |
| FederationOutcomes.RefusedDeliveries | contracts/federation/v1/check.py:338-373 | what a replica refuses, and with which code; without read access always CHANNEL_DENIED |
| FederationOutcomes.SoundDeliveries | contracts/federation/v1/check.py:363-384 | what it answers to an undamaged event it may read: known, gap, taken, or a member's revision conflict |
| FederationOutcomes.TakenExactly | contracts/federation/v1/check.py:338-384 | an event is taken if and only if it comes from the authority for its channel, readable, undamaged, new and next in order |
| FederationOutcomes.WithoutAccessNothingIsCopied | contracts/federation/v1/check.py:346-347 | in every run whose deliveries have no read access the follower stays as it was |
| FederationOutcomes.WithoutAccessTheCopyIsBlank | contracts/federation/v1/check.py:346-347 | from an empty channel such a run leaves it blank |
| CampaignClaim.OneOpenCycle | packages/cluster/anygarden/campaigns/scheduler.py:232-361 | whatever the interleaving of passes, closes and writes: never two open attempts, numbers 1..n without gaps, cycles_run equal to the work cycles |
| CampaignClaim.ClaimKeepsInv | packages/cluster/anygarden/campaigns/service.py:192-223 | a claim that wins the compare-and-set finds nothing open and the next number free |
| CampaignClaim.ClaimsWinExactly | packages/cluster/anygarden/campaigns/service.py:192-223 | a claim wins if and only if no one has written the row since the pass read it; what it then opens and writes |
| CampaignClaim.PassesReadInOrder | packages/cluster/anygarden/campaigns/scheduler.py:235-310 | a pass reads a row with work to do, goes on only while nothing is open, and takes the number after the last |
| CampaignClaim.PeekingFirstOpensTwo | packages/cluster/anygarden/campaigns/scheduler.py:235-253 | had the open attempt been looked for before the row was read, two cycles could be open |
| Campaigns.Campaign.constructor | packages/cluster/anygarden/campaigns/service.py:380-437 | a campaign with a valid specification starts active, empty, due now, and valid |
| Campaigns.Campaign.ApplyTransition | packages/cluster/anygarden/campaigns/service.py:226-262 | one write of status and columns, with a retrospective due when the loop ends on its own terms; refused outside the table |
| Campaigns.Campaign.SyncTokens | packages/cluster/anygarden/campaigns/lifecycle.py:171-191 | the attempt's tokens rise to the measured total, and the increase is returned |
| Campaigns.Campaign.Close | packages/cluster/anygarden/campaigns/lifecycle.py:142-168 | an attempt is closed once; a second close changes nothing |
| Campaigns.Campaign.Score | packages/cluster/anygarden/campaigns/lifecycle.py:338-384 | counters and event of one verdict, in the order of precedence |
| Campaigns.Campaign.FoldIn | packages/cluster/anygarden/campaigns/lifecycle.py:295-398 | the plan of a close: tokens, pins, opening time, counters, best attempt and a legal event |
| CampaignSafety.RequestingKeepsInv | packages/cluster/anygarden/campaigns/lifecycle.py:439-469 | a request for an open work cycle leaves one evaluation waiting with a deadline, keeps the whole invariant and undoes nothing |
| CampaignDeadlines.RequestIsPrompt | packages/cluster/anygarden/campaigns/lifecycle.py:439-469 | its outer deadline lies within the time bounds that every later step keeps |
| Campaigns.Campaign.OnUsageSettled | packages/cluster/anygarden/campaigns/lifecycle.py:472-492 | a late measurement counts once on the attempt and the campaign |
| Campaigns.Campaign.OnExecutionTerminal | packages/cluster/anygarden/campaigns/lifecycle.py:495-543 | all outcomes of a run's end: count only, close a retrospective, request an evaluation, or close as unknown |
| Campaigns.Campaign.OnEvalResult | packages/cluster/anygarden/campaigns/lifecycle.py:546-624 | which of the five answers a report gets, and that only the first result for an open evaluation changes anything |
| Campaigns.Campaign.ExpireEvalDeadlines | packages/cluster/anygarden/campaigns/lifecycle.py:627-670 | exactly the expired evaluations are closed as failed |
| Campaigns.Campaign.OnCycleTaskClosed | packages/cluster/anygarden/campaigns/lifecycle.py:696-714 | closes the open cycle unless its evaluation began |
| Campaigns.Campaign.Stop | packages/cluster/anygarden/campaigns/lifecycle.py:717-751 | stops a running campaign and closes every open attempt in the same transaction |
| Campaigns.Campaign.Advance | packages/cluster/anygarden/campaigns/scheduler.py:232-454 | a tick makes at most one status change or opens one attempt, in the original's order of checks |
| Campaigns.Campaign.Answer | packages/cluster/anygarden/campaigns/evaluation.py:176-214 | a machine's answer applied to whatever the attempt has become since the read |
| Campaigns.Campaign.RecordAttempt | packages/cluster/anygarden/campaigns/agent_actions.py:232-293 | recorded once per open work cycle, before its evaluation |
| Campaigns.Campaign.ScheduleWakeup | packages/cluster/anygarden/campaigns/agent_actions.py:334-398 | a wake-up within its range and before the deadline |
| CampaignRuns.BlockReportsAreKept | packages/cluster/anygarden/campaigns/agent_actions.py:409-441 | a block report survives every later step of its cycle |
| CampaignRuns.ReportedBlockApplies | packages/cluster/anygarden/campaigns/lifecycle.py:378-396 | the close of a cycle with a block report blocks a running campaign unless the verdict already moves it to the target or the end of the budget |
| CampaignRuns.ExecutionsAreBoundOnce | packages/cluster/anygarden/campaigns/service.py:647-658 | an attempt belongs to one execution for good, through every run, and a later attachment changes nothing |
| Campaigns.Campaign.Resume | packages/cluster/anygarden/campaigns/actions.py:222-232 | back to active, with the counter that stopped the loop cleared |
| Campaigns.Campaign.Reject | packages/cluster/anygarden/campaigns/actions.py:241-250 | a rejected result reopens the loop, never earlier than its gap |
| Campaigns.Campaign.Extend | packages/cluster/anygarden/campaigns/service.py:465-535 | raises deadline or budget, and reopens an ended campaign only when that clears what ended it |
| Campaigns.Campaign.Edit | packages/cluster/anygarden/campaigns/actions.py:102-204 | valid new criteria, pins dropped with a new evaluator, and the one edit that reopens |
| Campaigns.Campaign.RecordTrustedScore | packages/cluster/anygarden/campaigns/actions.py:293-337 | a trusted score is kept on a closed cycle and may achieve the campaign |
| Campaigns.Campaign.Perform | packages/cluster/anygarden/campaigns/lifecycle.py:142-751 | every hook, tick and action leaves a valid campaign valid, in the state its step names, with nothing undone |
| Campaigns.CloseThenSync | packages/cluster/anygarden/campaigns/lifecycle.py:600-608 | closing an attempt and reading its usage commute |
| CampaignSafety.CountedVerdictsAreHonest | packages/cluster/anygarden/campaigns/judge.py:54-93 | a counted verdict says improved exactly for a recorded, valid score above the bar |
| CampaignSafety.FilterDropsOnlyPlateauWhilePaused | packages/cluster/anygarden/campaigns/lifecycle.py:385-396 | the legality filter drops an event only when it is a plateau while paused |
| CampaignSafety.ThirdFailureBlocks | packages/cluster/anygarden/campaigns/lifecycle.py:338-361 | a third failure in a row always blocks |
| CampaignSafety.ClosingKeepsInv | packages/cluster/anygarden/campaigns/lifecycle.py:295-398 | every close keeps tokens, status, spacing and best attempt right, and leaves nothing open |
| CampaignSafety.OpeningKeepsInv | packages/cluster/anygarden/campaigns/scheduler.py:290-341 | an opening is safe once nothing is open and the gap has passed |
| CampaignSafety.StepKeepsInv | packages/cluster/anygarden/campaigns/lifecycle.py:426-751 | every step keeps the whole invariant and undoes nothing |
| CampaignOutcomes.VerdictsSayThat | packages/cluster/anygarden/campaigns/judge.py:49-93 | the verdict of every report in literal scores: changed pins, timeout, failure, no record, guardrail, and improved, regressed or no gain against the best score and margin |
| CampaignOutcomes.EachOutcomeHasItsReport | packages/cluster/anygarden/campaigns/lifecycle.py:546-624 | for an open evaluation, an if-and-only-if per outcome, status, kept score and kept validity |
| CampaignOutcomes.ReportsCloseAsTheySay | packages/cluster/anygarden/campaigns/lifecycle.py:295-398 | the close a report makes: the attempt, the campaign's status in order of precedence, both counters, best attempt, pins and opening time |
| CampaignOutcomes.ChangedPinsBlock | packages/cluster/anygarden/campaigns/lifecycle.py:338-354 | changed pinned files close the attempt as a mismatch, block a running campaign, and leave failures, pins and best alone |
| CampaignOutcomes.LateReportsChangeNothing | packages/cluster/anygarden/campaigns/lifecycle.py:546-624 | a report on a job that is not open changes nothing |
| CampaignOutcomes.ClosesAreExact | packages/cluster/anygarden/campaigns/lifecycle.py:295-331 | every close: its time, outcome, score and tokens, other attempts untouched, and after it in a running campaign the opening time is exactly the larger of close + 300 s and the wake-up |
| CampaignOutcomes.CompletedRunsAreEvaluated | packages/cluster/anygarden/campaigns/lifecycle.py:495-543 | a completed run of an open work cycle in a campaign that goes on asks for an evaluation with deadline now + timeout + 120 s + 24 h |
| CampaignOutcomes.OtherRunsCloseUnclear | packages/cluster/anygarden/campaigns/lifecycle.py:495-543 | every other end of such a run closes the cycle as unclear and skipped, without a job |
| CampaignOutcomes.RetrospectivesEndWithTheirRun | packages/cluster/anygarden/campaigns/lifecycle.py:495-543 | a retrospective ends with its run, without an outcome, or unclear when cut short |
| CampaignOutcomes.LaterEndsOnlyCount | packages/cluster/anygarden/campaigns/lifecycle.py:472-543 | while an evaluation is open the end of its run only counts tokens |
| CampaignOutcomes.ClosedRunsOnlyCount | packages/cluster/anygarden/campaigns/lifecycle.py:472-492 | for a closed attempt it counts on the run's newest attempt; a run without an attempt changes nothing |
| CampaignOutcomes.SweepsFailWhatIsDue | packages/cluster/anygarden/campaigns/lifecycle.py:627-670 | a sweep closes an evaluation that is due as failed and timed out, and otherwise changes nothing |
| CampaignOutcomes.EndedTasksCloseUnclear | packages/cluster/anygarden/campaigns/lifecycle.py:696-714 | the end of a cycle's task closes it as unclear unless its evaluation began |
| CampaignActions.IdleTicks | packages/cluster/anygarden/campaigns/scheduler.py:235-252 | a tick does nothing while work is open, nor without anything to do |
| CampaignActions.ActiveTicks | packages/cluster/anygarden/campaigns/scheduler.py:268-345 | an active campaign's tick: room, deadline, budget, clock, agent, retrospective, cycle, in that order, with what each writes |
| CampaignActions.EndedTicks | packages/cluster/anygarden/campaigns/scheduler.py:255-267 | an ended campaign runs the retrospective it owes, waits, or gives it up |
| CampaignActions.StopsCloseTheOpenWork | packages/cluster/anygarden/campaigns/lifecycle.py:717-751 | a stop leaves the campaign stopped and its open attempt closed as unclear |
| CampaignActions.AcceptancesStartTheRun | packages/cluster/anygarden/campaigns/evaluation.py:195-214 | an acceptance starts a pending job's own clock of timeout + 120 s, and touches nothing else |
| CampaignActions.AgentsWriteOpenWork | packages/cluster/anygarden/campaigns/agent_actions.py:232-441 | the agent's four writes, each on an open attempt only; a wake-up between 60 s and 7 days ahead and before the deadline |
| CampaignActions.PausesAndResumes | packages/cluster/anygarden/campaigns/actions.py:218-232 | pause only from active; resume from paused, blocked or plateau, clearing the counter that stopped the loop |
| CampaignActions.ConfirmsAndRejects | packages/cluster/anygarden/campaigns/actions.py:235-250 | a waiting result is confirmed, or sent back with the opening time not before now |
| CampaignActions.TrustedScores | packages/cluster/anygarden/campaigns/actions.py:293-337 | which trusted scores are kept, and exactly when one achieves the campaign |
| CampaignActions.Extensions | packages/cluster/anygarden/campaigns/service.py:465-535 | the row after any extension: refused, widened, or back in the loop |
| CampaignActions.Edits | packages/cluster/anygarden/campaigns/actions.py:102-204 | the row after any edit, with the bounds of a valid specification in literals |
| CampaignRuns.EveryRunKeepsInv | packages/cluster/anygarden/campaigns/lifecycle.py:426-751 | so does every run, in any order and repetition |
| CampaignRuns.TokensAreConserved | packages/cluster/anygarden/campaigns/lifecycle.py:171-191 | tokens_used is the sum of the attempts' tokens, each the largest total ever read for it |
| CampaignRuns.StatusAndOpenWorkAgree | packages/cluster/anygarden/campaigns/service.py:73-121 | no open attempt while blocked, plateau, awaiting confirmation or stopped; an open work cycle only while active, paused or achieved; three failures only while blocked or stopped |
| CampaignRuns.EveryGapIsKept | packages/cluster/anygarden/campaigns/service.py:127-151 | after a close in a running campaign no later attempt opens before close + 300 s, nor before the closed attempt's wake-up, through reject, extend and edit |
| CampaignRuns.TheBestIsTheBest | packages/cluster/anygarden/campaigns/judge.py:49-93 | the best attempt is a recorded improvement, later bests are strictly better, and no judged score beats it by more than the bar in force then |
| CampaignRuns.ClosedAttemptsAreFinal | packages/cluster/anygarden/campaigns/lifecycle.py:142-168 | one verdict each: afterwards only measured tokens and a trusted score can change |
| CampaignRuns.RunningAgainMovesNoDeadline | packages/cluster/anygarden/campaigns/evaluation.py:182-194 | a running evaluation keeps its deadline and state until it closes, whatever steps and repeated requests come between |
| CampaignRuns.SecondAcceptanceIsNoOp | packages/cluster/anygarden/campaigns/evaluation.py:195-214 | of several acceptances of one job only the first counts, whatever steps come between |
| CampaignRuns.AnswersFindTheirJob | packages/cluster/anygarden/campaigns/evaluation.py:195-214 | a job once requested is still there when the machine answers, after any run |
| CampaignDeadlines.EvaluationsCloseInTime | packages/cluster/anygarden/campaigns/lifecycle.py:627-670 | with expiry every P seconds and timeouts up to T, no evaluation stays open longer than 24 h + 2 (T + 120 s) + 2 P |
| CampaignDeadlines.NewCampaignsAreOnTime | packages/cluster/anygarden/campaigns/service.py:380-437 | that bound holds of every run from a campaign's creation |
| CampaignDeadlines.AcceptedIsBounded | packages/cluster/anygarden/campaigns/evaluation.py:195-214 | an acceptance never sets a deadline past the bound |
| CampaignRechecks.Rechecks.Select | packages/cluster/anygarden/campaigns/evaluation.py:286-304 | which evaluations a tick or a registering machine is sent, and which requests are forgotten |
| CampaignRechecks.QueryListsByStartAndRank | packages/cluster/anygarden/campaigns/evaluation.py:258-285 | a tick lists a running evaluation exactly when it started at least 60 s before and fewer than 25 eligible evaluations are older |
| CampaignRechecks.QueryLists | packages/cluster/anygarden/campaigns/evaluation.py:258-285 | a query has at most its limit, only open evaluations, and no run younger than 60 s |
| CampaignRechecks.PendingIsAlwaysAsked | packages/cluster/anygarden/campaigns/evaluation.py:258-304 | a tick always sends a pending evaluation with fewer than 25 older ones it may send, whatever was requested before |
| CampaignRechecks.RegisteringMachinesAreSentAll | packages/cluster/anygarden/campaigns/evaluation.py:286-304 | a registering machine is sent every evaluation listed for it, in order |
| CampaignRechecks.RememberedWhileSeen | packages/cluster/anygarden/campaigns/evaluation.py:286-291 | a request is remembered exactly while every tick lists its evaluation as running |
| CampaignRechecks.WhenATickAsksAgain | packages/cluster/anygarden/campaigns/evaluation.py:248-304 | a tick asks again for a running evaluation if and only if it lists it and either 300 s have passed since the last acknowledged request or some tick in between did not list it |
| CampaignRechecks.AskedAgainAfterTheInterval | packages/cluster/anygarden/campaigns/evaluation.py:59-65 | while every tick lists it, it is asked for again exactly from 300 s on |
| CampaignRechecks.AskedAgainAfterFortySeconds | packages/cluster/anygarden/campaigns/evaluation.py:276-291 | an input on which a tick asks again after 40 s |
| ChatClients.ChatClient.MarkSeqSeen | packages/cluster/anygarden/agent/client.py:842-868 | true exactly when the key is among the last 256 accepted keys; set and queue stay equal and distinct |
| ChatClients.ChatClient.Evict | packages/cluster/anygarden/agent/client.py:864-868 | the oldest keys leave queue and set together |
| ChatClients.ChatClient.NoteSeq | packages/cluster/anygarden/agent/client.py:343-353 | the cursor only moves forward |
| ChatClients.ChatClient.SeedCursor | packages/cluster/anygarden/agent/client.py:355-371 | a held cursor is never overwritten |
| ChatRoom.ResetsAreRationed | packages/cluster/anygarden/agent/client.py:870-891 | without a person exactly as many queries reset the turn counter as the limit leaves, however many arrive |
| ChatRoom.PeopleAreHeard | packages/cluster/anygarden/agent/client.py:941-1058 | a person's new message reaches the handlers and clears both counters |
| ChatRoom.AgentsAreHeardWithinTheLimit | packages/cluster/anygarden/agent/client.py:941-1058 | an agent's new message is heard exactly within the turn limit, and counts either way |
| ChatRoom.QueriesAreHeard | packages/cluster/anygarden/agent/client.py:941-1058 | a new room query is always heard; it clears the turns only within the reset limit |
| ChatRoom.OwnMessagesOnlyCount | packages/cluster/anygarden/agent/client.py:941-1058 | an own message never reaches the handlers and is not remembered |
| ChatRoom.KeysTellDeliveriesApart | packages/cluster/anygarden/agent/client.py:842-868 | two frames are the same message exactly when their numbers and their durable deliveries agree |
| ChatClients.ChatClient.AdoptTurn | packages/cluster/anygarden/agent/client.py:1062-1073 | a superseded attempt is dropped; a leased context is replaced only by a leased one |
| ChatClients.ChatClient.ProcessMessage | packages/cluster/anygarden/agent/client.py:922-1073 | whether a message reaches the handlers, and the room, cursor and turn contexts afterwards, with no other room touched and echoes consumed once |
| ChatRoom.AgentTurnsAreBounded | packages/cluster/anygarden/agent/client.py:941-1039 | without a person's message, an amortised allowance bounds the agent messages that reach the handlers |
| ChatRoom.LoopGuardBound | packages/cluster/anygarden/agent/client.py:870-891 | at most max_agent_turns * (max_task_init_resets + 1), whatever queries, echoes and replays come |
| ChatRoom.TheBoundIsReached | packages/cluster/anygarden/agent/client.py:1000-1031 | the bound is exact: some conversation reaches it |
| ChatRoom.DispatchedAtMostOnce | packages/cluster/anygarden/agent/client.py:842-868 | a message is dispatched at most once while no more than 256 keys are accepted |
| ChatRoom.RememberedFor256 | packages/cluster/anygarden/agent/client.py:863-868 | a key is forgotten exactly when 256 newer ones were accepted |
| ChatRoom.MarkingKeepsFarApart | packages/cluster/anygarden/agent/client.py:859-868 | equal keys are accepted only more than 256 apart, so the window holds no duplicates |
| Markdown.ClosersRepeatTheFence | packages/cluster/anygarden/campaigns/retrospective.py:73-79 | a line closes a fence exactly when it begins with the fence's run and has no other character, at most three spaces in |
| Markdown.TopHeadingsExactly | packages/cluster/anygarden/campaigns/retrospective.py:48-50 | a top-level heading is one or two number signs up to three spaces in, ended by the line, a space or a tab |
| Markdown.DeeperHeadingsAreNone | packages/cluster/anygarden/campaigns/retrospective.py:48-50 | three number signs are none |
| Markdown.UnderlinesExactly | packages/cluster/anygarden/campaigns/retrospective.py:51 | an underline is a run of equals signs or hyphens up to three spaces in, with only spaces and tabs behind it |
| Markdown.FencesExactly | packages/cluster/anygarden/campaigns/retrospective.py:52 | a fence is a maximal run of at least three backticks or tildes up to three spaces in |
| Markdown.StripDropsPadding | packages/cluster/anygarden/campaigns/retrospective.py:73-79 | stripping removes the whitespace around a text and nothing else |
| Markdown.SplitOfJoin | packages/cluster/anygarden/campaigns/retrospective.py:102-113 | lines without newlines survive joining and splitting |
| Learnings.Scan | packages/cluster/anygarden/campaigns/retrospective.py:59-90 | the loop computes the fence marks, the heading starts and whether a fence is left open |
| LearningsLaws.LinesAreRead | packages/cluster/anygarden/campaigns/retrospective.py:48-86 | what the scan asks of a line, in terms of its characters |
| LearningsLaws.FencesRunUntilClosed | packages/cluster/anygarden/campaigns/retrospective.py:70-83 | a fence stays open up to the first line behind it that closes it |
| LearningsLaws.StartsInTheOpen | packages/cluster/anygarden/campaigns/retrospective.py:84-89 | outside fences a line starts a heading exactly as a number-sign heading, or as a text line the next one underlines |
| LearningsLaws.FencedLinesStartNothing | packages/cluster/anygarden/campaigns/retrospective.py:71-77 | inside a fence nothing starts a heading |
| Learnings.ScanFinds | packages/cluster/anygarden/campaigns/retrospective.py:59-90 | the scan lists a line exactly when a level 1 or 2 heading starts there |
| Learnings.ScanAscends | packages/cluster/anygarden/campaigns/retrospective.py:59-90 | each start is listed once, in order |
| Learnings.ReplaceLearningsSection | packages/cluster/anygarden/campaigns/retrospective.py:93-127 | the rewrite of a text, over its lines |
| Learnings.Rewrite | packages/cluster/anygarden/campaigns/retrospective.py:102-127 | the three cases of the rewrite, with the scan's own next heading as the end |
| LearningsLaws.MarkedBodyIsReplaced | packages/cluster/anygarden/campaigns/retrospective.py:102-113 | the new block replaces what lies from the first start marker to the first end marker behind it |
| LearningsLaws.UnmarkedBodyIsReplaced | packages/cluster/anygarden/campaigns/retrospective.py:114-127 | without such a pair it replaces what the first section heading has under it, up to the next top-level heading, with an empty line before that |
| LearningsLaws.NewBodyIsAppended | packages/cluster/anygarden/campaigns/retrospective.py:120-124 | without a section it is appended under a new heading, trailing blank lines replaced by one |
| LearningsLaws.OuterNewlinesGo | packages/cluster/anygarden/campaigns/retrospective.py:103 | a body loses the newlines around it and only those |
| LearningsLaws.BlankTextsHaveNoLines | packages/cluster/anygarden/campaigns/retrospective.py:102-103 | a body of whitespace has no lines, nor has an empty text |
| Learnings.CheckSectionBody | packages/cluster/anygarden/campaigns/retrospective.py:130-149 | no problem exactly for text without markers, heading starts and open fences; which problem comes first, and the first heading line when that is it |
| LearningsLaws.LastWriteWins | packages/cluster/anygarden/campaigns/retrospective.py:93-127 | two writes leave what the last alone leaves if and only if no dangling start marker precedes the place of the write |
| LearningsLaws.LastReplacementWins | packages/cluster/anygarden/campaigns/retrospective.py:93-127 | the same on whole texts |
| LearningsLaws.DanglingMarkerIsLost | packages/cluster/anygarden/campaigns/retrospective.py:105-113 | a text on which the last write does not win |
| LearningsLaws.OutsideIsKept | packages/cluster/anygarden/campaigns/retrospective.py:93-127 | everything before and after the section is kept |
| LearningsLaws.OnlyTheSectionIsDropped | packages/cluster/anygarden/campaigns/retrospective.py:93-127 | what is dropped is the marked section, the unmarked one up to the next heading, or trailing blank lines |
| LearningsLaws.SectionStaysContained | packages/cluster/anygarden/campaigns/retrospective.py:114-127 | following lines keep their classification, and the section ends at the same next heading if and only if the body does not begin with an underline |
| LearningsLaws.ReplacedSectionStaysContained | packages/cluster/anygarden/campaigns/retrospective.py:93-149 | the same on the text returned for any checked body, with the lines around the section kept |
| LearningsLaws.AnUnderlinePassesTheCheck | packages/cluster/anygarden/campaigns/retrospective.py:130-149 | the check accepts such a body |
| LearningsLaws.CheckedBodiesAreAcceptable | packages/cluster/anygarden/campaigns/retrospective.py:103-104 | the lines written for a checked text, with outer newlines stripped, pass the check themselves |
| Brief.Clip | packages/cluster/anygarden/campaigns/brief.py:54-58 | at most the limit (or one character), a prefix of the stripped text when cut |
| Brief.FittedTextFits | packages/cluster/anygarden/campaigns/brief.py:258-269 | for any number of sections, fitting keeps the limit once a character is left for each |
| Brief.BodiesStayWholeExactly | packages/cluster/anygarden/campaigns/brief.py:261-267 | the six bodies stay whole exactly while header, rules and bodies have at most 11,859 characters; otherwise each is clipped to a sixth of what is left |
| Brief.TitlesTotal | packages/cluster/anygarden/campaigns/brief.py:21-28 | the six titles have 119 characters |
| Brief.LaidOutLiterally | packages/cluster/anygarden/campaigns/brief.py:262-269 | the laid-out brief word for word: each title above its body, one empty line between any two parts |
| Brief.OverlongBriefsAreCut | packages/cluster/anygarden/campaigns/brief.py:270-272 | a text over 12,000 characters is cut to make room for the gap and the whole rules |
| Brief.BriefBound | packages/cluster/anygarden/campaigns/brief.py:235-272 | at most 12,000 characters if and only if the rules have at most 11,998 |
| Brief.RulesAreWhole | packages/cluster/anygarden/campaigns/brief.py:267-272 | the brief always ends with the whole rules block, set apart |
| Brief.EverySectionAppears | packages/cluster/anygarden/campaigns/brief.py:256-269 | with 20 characters to spare every section appears under its title, in order |
| Brief.PinsBound | packages/cluster/anygarden/campaigns/brief.py:199-232 | for any pin paths, none or many, the bound holds exactly when fixed texts, shown paths and punctuation fit |
| Brief.PathsAreQuoted | packages/cluster/anygarden/campaigns/brief.py:199-202 | the first twenty paths, each between backticks, separated by commas; "none" without a path |
| Brief.LongPinsOverflow | packages/cluster/anygarden/campaigns/brief.py:199-202 | twenty paths of 1,024 characters overflow the limit |

## Left out

- Federation schema validation and canonical bytes: a submission carries its size, its version and, when schema-valid, a typed command; the validation of the authority's own outgoing receipt and event, which can fail only past 2^53 - 1, and the participant writer's INVALID_SCHEMA answer are not modelled.
- Two repeated executor checks in the authority (contracts/federation/v1/check.py:175-176 and 202-203) cannot fire after admission and are not written out a second time.
- Campaign hooks as concurrent writers: outside `CampaignClaim` each hook is one serialised transaction, so the three retries of the row write and a close that loses after its tokens were read are not modelled.
- Campaigns.Campaign.ApplyTransition: notices, reports, status texts, stop reasons, event rows and the choice of the final attempt are not written.
- The end of a cycle's execution and Task: closing requests a cancel elsewhere and the terminal event arrives as a later step; `project_executions` is not part of this model.
- Campaigns.Campaign.Edit: title, purpose, the trusted-score setting, evaluator text and the recorded differences are left out; an evaluator is its digest and timeout.
- Reconciliation of open cycles and the stop of a room's campaigns: compositions of the modelled execution-end, task-end and stop steps.
- The clamp of execution limits, the choice of a final attempt and the follow-up directives: no invariant depends on them.
- Scores are reals: rounding of floating-point scores and of the usable budget is not modelled.
- CampaignRechecks: the order of a query among evaluations of cycles opened at the same instant is taken as given.
- ChatClients.ChatClient.ProcessMessage: other frame types, the cycle detector's ring buffer, the optional limit notice and the handlers themselves are left out; identifiers are numbers.
- Applying a learning (change limits, skills, instruction revisions) and the texts of briefs, notices and reports.
- WebSocket, HTTP, database mechanics, authentication, evaluator commands and pin hashing.
