# Margin calls: a verified model

This project models the margin-call system's behaviour and proves properties of the model. Money is
exact (`real`), time is an integer number of seconds (or a `real` for the rate limiter), and whatever
comes from outside - market data, books, extracted CSA terms, the client channel, clocks, random
draws, and which step fails - is an arbitrary input.

What is modelled, by file:

- **Calc, VectorCalc** - mark-to-market, variation and initial margin, rating triggers, the breach
  test and the materiality gate; and their vectorised twins.
- **Ledger, Chunks, ChunkWriter** - the five-year collateral simulation, day by day on arrays; the
  calendar quarters of its window; the single-pass writer of the requested quarters.
- **CollateralOptimizer** (with **StableSort**) - greedy cheapest-to-deliver collateral selection.
- **MarginRun** - one run: its persisted values, its nodes and routes, replay of a resumed node, and
  the invariant `RunOk` of every state a run can rest in.
- **MarginPolicy, Store, Dispatch, ImpactConsumer** - the one-open-call policy; the shared tables as
  a class; the lease, the search for the open call, one dispatch, and the fan-out of an impact set,
  as methods on that class.
- **Endpoints, Webhook** - the approval, SLA and client-channel entry points as methods on the tables.
- **Protocol** - all of it at once: any number of workers, people, clients and a clock as a
  transition system, with an invariant kept by every step.
- **Hypotheses** - what the protocol's hypotheses are good for: without them, states where a
  counterparty has two open calls or a run is unsound can be reached, and exactly then.
- **FanOut** - concurrent and redelivered impact messages on top of it: each worker walks one
  message's counterparties, skipping, keeping, giving back and stranding claims, to a verdict.
- **Feed** - the lifecycle status, the amounts shown and the warehouse row, against the run.
- **PdfText, PdfLiteral, PdfFile** - measuring and wrapping text, string literals, and the finished
  file with its cross-reference table.
- **RateLimit, TypeClosure, CsaHistory** - the sliding-window limiter, the type-closure worklist and
  the dated history of CSA terms.

## Where the code does less than its description

Each of these is a lemma that shows the failing input. Where the property can be had, the exact
condition is proved beside it.

- A normal return of the fan-out does not mean that every counterparty is claimed: another delivery
  may hold the claim when this one skips it, and give it back before this one returns
  (`FanOut.NormalReturnLeavesUnclaimed`). That is exactly how it happens
  (`FanOut.UnclaimedExactlyWhenGivenBack`), and whoever gave it back does not return normally
  (`FanOut.GiverDoesNotReturnNormally`), so its own message is redelivered.
- An error can leave a claim standing although nothing was dispatched: the graph is built after the
  claim is taken and outside what gives it back, so if building it fails the call ends, and the
  redelivery skips the counterparty and returns normally (`FanOut.FailedBuildLosesTrigger`); that
  event is never dispatched for the counterparty (`FanOut.FailedBuildIsFinal`). At a propagated error
  the claim the call stopped at stands exactly when building the graph failed, which can only happen
  before the call's first dispatch, or when deleting its row failed
  (`FanOut.PropagatedClaimStandsExactlyWhen`). So a standing claim means a dispatch that returned or
  was held, one that an error left standing, a worker still at work, or one that died
  (`Protocol.StandingClaimMeans`).
- A re-evaluation keeps a run sound exactly when nobody has signed it yet
  (`MarginRun.ReevaluateOkExactlyWhenUnsigned`). The policy reads the stage and re-evaluates in two
  steps, and the approval endpoints do not take the lease, so a rejection in between re-arms the gate
  of a run the policy no longer sees (`Protocol.SignatureDuringReviewRearmsGate`).
- A dispatch that outlives its lease lets a second one in, and both raise a call
  (`Protocol.OverlongDispatchOpensTwo`); time keeps the invariant exactly while it takes no live
  worker past its lease (`Protocol.TickKeepsInvExactlyWhen`), and otherwise two open calls can follow
  (`Hypotheses.TickIsSafeExactlyWhen`).
- Starting a sound run's thread again is sound in every world exactly when nobody has signed it and a
  call still standing there has been re-evaluated before (`MarginRun.StartOkExactlyWhen`); a signed one
  never is (`MarginRun.RestartingSignedRunIsUnsound`). The fan-out gives a claim back after any
  unexpected error, also one after the run was evaluated; if that run is then signed, the redelivered
  trigger starts it again, and a rejected call can be approved open
  (`Protocol.GivenBackClaimReopensRejectedCall`). A first signature keeps the invariant exactly when
  the run's claim is kept for good and no worker has read the call and may still re-evaluate it
  (`Protocol.FirstSignatureKeepsInvExactlyWhen`, `Endpoints.Approve`), and otherwise an unsound run can
  follow (`Hypotheses.SignatureIsSafeExactlyWhen`).
- A response after the deadline is met if no timer checked before, and missed otherwise, because the
  replayed checks are judged at the new time (`MarginRun.ReplayMeaning`, `MarginRun.SlaOutcomes`); a
  late delivery failure loses its reason in the same way.
- A call that a later trigger re-evaluates away before anyone signs it was raised, yet has no
  warehouse row (`Feed.RowExactlyForStandingCalls`, `Feed.WithdrawnCallHasNoRow`).
- Stage and status name different gates exactly while the notice step has raised on a run
  (`Feed.StageMatchesStatusUnlessSendRaised`).
- The optimiser is cheapest for every inventory exactly when no eligible type lacks a haircut while
  another has one strictly between 0 and 1 (`CollateralOptimizer.CheapestExactlyWhenConsistent`).
- The chunk writer's files are complete exactly when no simulated day lies in two requested chunks
  (`ChunkWriter.CompleteExactlyWhenUncontested`).
- The quarter loop fails exactly when the window reaches 9999-10-01 (`Chunks.AllChunks`).
- Nothing fits a negative width, so the loop that breaks a word never ends there
  (`PdfText.NothingFitsNegativeWidth`).
- The versions of a counterparty's terms never go back in date, whatever the terms, exactly when its
  runs' own dates do not; timestamps of mixed offsets can go back
  (`CsaHistory.DatesKeptExactlyWhenInOrder`, `CsaHistory.MixedOffsetsGoBack`).
- A counterparty id with a colon is never found by its thread ids (`Dispatch.FindsByCounterparty`).
- A limit below 1 reads the oldest hit of an empty window exactly when every hit has expired
  (`RateLimit.LimitBelowOne`).

## Hypotheses of the concurrent protocol

They are predicates on steps in `Protocol`, and `Next` requires them. Any other step - also an error
at any point of a dispatch, of building the graph or of deleting a row, a crash, or a worker joining -
is allowed at any time.

- `LeaseOutlivesDispatch`: the clock never reaches the expiry of a lease a live worker holds or is
  taking. Reading and overwriting an expired lease is one step.
- `ReviewUndisturbed`: no signature or SLA signal on a call between a worker's reading it and acting
  on it, where what it read lets its trigger re-evaluate the call in some world.
- `SignedRunsStayClaimed`: the first signature goes to a run whose claim is kept for good - not one
  whose claim has been given back, or claimed anew by a worker that may still start the run or give
  the claim back. Whatever a dispatch evaluated, and whatever it then does with its claim, is allowed.

None asks for more than the property needs: a first signature is safe - however it is given, and
whatever steps keeping the hypotheses follow, every run stays sound and no counterparty gets a second
open call - if and only if it keeps the last two (`Hypotheses.SignatureIsSafeExactlyWhen`), and letting
time pass if and only if it keeps the first (`Hypotheses.TickIsSafeExactlyWhen`; workers for a
counterparty whose open call is signed and stuck in an error aside).

## Model

| member | source | states |
|---|---|---|
| Protocol.NextKeepsInv | src/agents/margin_policy.py:95-131 | every step of every worker, person, client or clock keeps: runs sound, one open call each, claims and leases exclusive, reads still current; steps include errors at any point of a dispatch and of its clean-up |
| Protocol.ExecutionKeepsInv | src/agents/margin_policy.py:163-273 | the invariant holds in every state of every execution from at most one open call per counterparty |
| Protocol.NeverTwoOpenCalls | src/agents/orchestrator.py:978-1030 | in every reachable state a counterparty has at most one open call |
| Protocol.OneWorkerPerClaim | src/streaming/impact_consumer.py:60-79 | two workers active on one event and counterparty are the same worker, and the claim stands |
| Protocol.FirstSignatureKeepsInvExactlyWhen | src/api/main.py:368-391 | a first signature keeps the invariant if and only if the claim is kept for good and nobody is acting on an earlier reading of the call |
| Protocol.TickKeepsInvExactlyWhen | src/agents/margin_policy.py:60-63 | time keeps the invariant if and only if no live worker outlasts its lease |
| Protocol.LeaseIsExclusive | src/agents/margin_policy.py:115-131 | at most one worker holds a counterparty's lease, and the row carries that worker's clock value |
| Protocol.ReadLeaseKeepsInv | src/agents/margin_policy.py:105-112 | taking over an expired lease excludes every live holder |
| Protocol.DispatchRewrites | src/agents/margin_policy.py:176-273 | a dispatch rewrites at most one run, of its own counterparty, and then no other call of it is open |
| Protocol.PersonMovesOpenRun | src/api/main.py:325-416 | people and clients only ever move a run that is open, and leave it sound |
| Protocol.ReachableNoticeWasSigned | src/agents/orchestrator.py:847-858 | in every reachable state a notice attempt was preceded by an approval and, for an elite counterparty, by a different person's ratification, and quotes the effective amount |
| Protocol.SignedCallStands | src/agents/margin_policy.py:238-252 | from the first signature on, no step of anyone changes the effective amount of a call that is not overturned, nor a sent notice, nor a resolved outcome, nor anything on record |
| Protocol.DispatchedAtMostOnce | src/streaming/impact_consumer.py:100-134 | once a dispatch has returned or was held, or an error left its claim standing, no later step claims or dispatches that event and counterparty |
| Protocol.StandingClaimMeans | src/streaming/impact_consumer.py:112-130 | a claim row that stands was there from the start, has a worker at work on it, or was left by a dispatch that returned or was held, by a failed graph build or row deletion, or by a worker that died |
| Hypotheses.SignatureIsSafeExactlyWhen | src/api/main.py:368-391 | whoever gives a first signature and however, no continuation reaches an unsound run or a second open call, if and only if the claim is kept for good and no worker may still re-evaluate the call as it was read |
| Hypotheses.TickIsSafeExactlyWhen | src/agents/margin_policy.py:57-63 | time passing lets no continuation reach an unsound run or a second open call if and only if it takes no live worker past its lease |
| Protocol.OverlongDispatchOpensTwo | src/agents/margin_policy.py:57-63 | without the lease hypothesis a second worker gets in and both raise a call |
| Protocol.SignatureDuringReviewRearmsGate | src/agents/margin_policy.py:203-256 | for any unsigned call and any new trigger without price moves, a rejection between reading and re-evaluating leaves an unsound run paused at its first gate that approving opens |
| Protocol.GivenBackClaimReopensRejectedCall | src/streaming/impact_consumer.py:126-128 | for any paused run whose claim was given back: rejected, started again by the redelivered trigger, approved, it is open |
| MarginRun.StartedRunMeaning | src/agents/orchestrator.py:332-387 | a new run raises a call exactly for a scalar-engine breach that the gate for price events does not hold, at the engine's amount |
| MarginRun.ReevaluatedRunMeaning | src/agents/orchestrator.py:946-970 | a re-evaluated unsigned call stays open, at the new amount, exactly while there is a breach |
| MarginRun.NoticeMeaning | src/agents/orchestrator.py:483-617 | a standard counterparty's notice follows the first signature, quotes its amount and starts the SLA clock; refused, the run escalates at once with the reason |
| MarginRun.RatifiedNoticeMeaning | src/agents/orchestrator.py:834-858 | an elite counterparty's follows the ratification, in the same way, and none goes out before |
| MarginRun.StartKeepsOk | src/agents/orchestrator.py:902-927 | starting a thread nobody signed and no call stands on, whatever was evaluated there, gives a sound unsigned run in every world |
| MarginRun.StartOkExactlyWhen | src/agents/orchestrator.py:902-927 | starting a sound run's thread again is sound in every world if and only if it is unsigned and a standing call on it was re-evaluated before |
| MarginRun.ReevaluateOkExactlyWhenUnsigned | src/agents/orchestrator.py:946-970 | re-evaluating an open call keeps it sound if and only if it still awaits its first approval |
| MarginRun.SignedStaysSigned | src/agents/orchestrator.py:955-958 | a graph restart never touches signatures, notice or outcome, and rests only at the first gate, at the end or in an error |
| MarginRun.RestartingSignedRunIsUnsound | src/agents/orchestrator.py:902-927 | starting a signed thread again is never sound |
| MarginRun.SignFirstKeepsOk | src/agents/orchestrator.py:390-431 | the first signature keeps the run sound on every route behind it |
| MarginRun.SignSecondKeepsOk | src/agents/orchestrator.py:434-469 | so does the manager's, given by somebody else |
| MarginRun.SlaResumeKeepsOk | src/agents/orchestrator.py:753-790 | so does every signal at the SLA gate |
| MarginRun.NoticeNeedsSignatures | src/agents/orchestrator.py:847-858 | a recorded notice attempt has its signatures before it, and there is one only |
| MarginRun.QuotesAgree | src/agents/orchestrator.py:472-480 | manager gate, notice, confirmation and incident quote one figure |
| MarginRun.AwaitSla | src/agents/orchestrator.py:766-790 | the node's loop over its earlier resume values is `Replay` |
| MarginRun.ReplayMeaning | src/agents/orchestrator.py:775-790 | what a resume means after any number of earlier checks |
| MarginRun.SlaOutcomes | src/agents/orchestrator.py:746-790 | in time a response is always met, nothing is missed early unless delivery failed, and when a late signal still counts |
| MarginPolicy.ThreadIdInjective | src/agents/orchestrator.py:861-865 | colon-free counterparties keep different runs on different threads |
| MarginPolicy.ThreadsOfCounterparty | src/agents/orchestrator.py:1006-1018 | the exact comparison finds a counterparty's threads exactly when its id has no colon |
| MarginPolicy.WhatMovesAnOpenCall | src/agents/margin_policy.py:203-256 | a later trigger re-evaluates an open call in place exactly when it is new to it, nobody signed it, and a price event's own impact exceeds the MTA; otherwise every run stays |
| Store.ReplacingOpenRunKeepsOk | src/agents/orchestrator.py:930-943 | resuming a claimed open run keeps the tables in order |
| Dispatch.TakeLease | src/agents/margin_policy.py:95-112 | the lease row is written exactly when it is missing or expired |
| Dispatch.FindOpenCall | src/agents/orchestrator.py:999-1030 | the answer is a most recent open call of the counterparty's threads, or that there is none |
| Dispatch.FindsByCounterparty | src/agents/orchestrator.py:1014-1018 | among colon-free ids the search by thread is the search by counterparty; an id with a colon is never found |
| Dispatch.DispatchTrigger | src/agents/margin_policy.py:163-273 | busy without effect while another holds the lease; otherwise the policy on the call found, leaving the runs alone if an error came first, and no lease unless deleting its row failed |
| Dispatch.DispatchKeepsOk | src/agents/margin_policy.py:176-273 | a claimed dispatch, whatever it raises, leaves every run sound, one open call per counterparty, and its own run unsigned |
| Dispatch.OutcomeReportsStandingCall | src/agents/margin_policy.py:134-147 | an outcome reports a breach with an amount exactly when the call stands |
| ImpactConsumer.HandleImpact | src/streaming/impact_consumer.py:100-134 | the loop is a sequence of passes stopping at the first error that is not held, with the verdict those passes give |
| ImpactConsumer.TurnOnRows | src/streaming/impact_consumer.py:60-79 | a pass can change only its own claim and lease; its claim stands unless it could not be taken, or was busy or broke and was given back; it is busy exactly when unclaimed under another's lease |
| ImpactConsumer.TurnKeepsOk | src/streaming/impact_consumer.py:112-130 | a pass keeps the tables in order, whatever it raises, re-evaluates, gives back or leaves standing |
| ImpactConsumer.NormalReturnClaimsAll | src/streaming/impact_consumer.py:131-134 | with nobody else at work, a normal return means every counterparty is claimed |
| ImpactConsumer.BusyErrorReleasesExactlyBusy | src/streaming/impact_consumer.py:121-133 | with nobody else at work, a busy error names the counterparties busy at some entry and leaves unclaimed those busy at every one; the same without repeated entries |
| ImpactConsumer.BusyEntry | src/streaming/impact_consumer.py:60-72 | an entry is busy exactly when nobody has claimed it, another trigger holds the lease, and no error came before the lease or on giving the claim back |
| ImpactConsumer.PropagatedClaimStandsExactlyWhen | src/streaming/impact_consumer.py:112-128 | with nobody else at work, the claim a propagated error stopped at stands if and only if building the graph failed, which happens with nothing dispatched, or giving it back failed; the earlier claims stand but for busy ones |
| ImpactConsumer.DispatchedOnlyOnce | src/streaming/impact_consumer.py:113-116 | a repeated entry after a dispatch or a hold is skipped without effect |
| ImpactConsumer.RedeliveryIsNoOp | src/streaming/impact_consumer.py:113-116 | with every listed counterparty claimed, a redelivery only skips, or stops where a claim attempt itself fails, and changes nothing |
| ImpactConsumer.FanOutKeepsOk | src/streaming/impact_consumer.py:100-134 | after a whole fan-out no counterparty has two open calls and every run is sound |
| FanOut.IsProtocolExecution | src/streaming/impact_consumer.py:100-134 | forgetting the calls, any interleaving of fan-outs, people and clients is an execution of the protocol |
| FanOut.NormalReturn | src/streaming/impact_consumer.py:112-134 | in every interleaving, at a normal return each listed claim was taken by this call and is kept for good, or stood when this call tried it |
| FanOut.UnclaimedExactlyWhenGivenBack | src/streaming/impact_consumer.py:121-134 | at a normal return a counterparty is unclaimed if and only if this call skipped it and another one gave the claim back since, nobody claiming it anew |
| FanOut.GoneExactlyWhenGivenBack | src/streaming/impact_consumer.py:60-79 | a standing claim is gone later if and only if its last change was to be given back |
| FanOut.GiverDoesNotReturnNormally | src/streaming/impact_consumer.py:121-133 | a call that gave a claim back ends in a busy error or a propagated one |
| FanOut.BusyErrorNamesWhatItGaveBack | src/streaming/impact_consumer.py:121-133 | in every interleaving a busy error names exactly the counterparties whose claims this call gave back; those it kept are kept for good |
| FanOut.PropagatedClaimStandsExactlyWhen | src/streaming/impact_consumer.py:112-128 | in every interleaving, the claim a propagated error stopped at stands if and only if building the graph failed, which happens only before the call's first dispatch, or giving it back failed; else it was given back, and claims left standing stand for good |
| FanOut.FailedBuildLosesTrigger | src/streaming/impact_consumer.py:113-117 | a failed graph build, whose redelivery skips the counterparty and returns normally with nothing ever dispatched |
| FanOut.FailedBuildIsFinal | src/streaming/impact_consumer.py:113-117 | in every interleaving, after a failed graph build no step ever claims or dispatches that event and counterparty |
| FanOut.NormalReturnLeavesUnclaimed | src/streaming/impact_consumer.py:113-134 | two deliveries of one message, one of which returns normally with the counterparty unclaimed |
| Endpoints.Approve | src/api/main.py:368-391 | conflict without effect unless paused at the first gate; else that signature and nothing more, keeping the tables in order exactly when the run is claimed |
| Endpoints.ManagerApprove | src/api/main.py:394-416 | conflict or same-person refusal without effect; else the second signature |
| Endpoints.Signal | src/api/main.py:419-429 | a response or check is delivered only to a run at the SLA gate |
| Endpoints.InternalSlaCheck | src/api/main.py:868-898 | 404, 409 and an earlier outcome leave the run alone; too early exactly before the deadline; missed from then on |
| Endpoints.GatesAreAnsweredOnce | src/api/main.py:325-365 | an answered gate is never pending again, so no payload falls through to another gate |
| Webhook.ProcessItem | src/api/whatsapp_webhook.py:185-198 | one item under its claim row, keeping the tables in order |
| Webhook.ProcessWebhook | src/api/whatsapp_webhook.py:170-182 | the items in order up to the first error |
| Webhook.ItemTakesEffectOnce | src/api/whatsapp_webhook.py:185-198 | after a normal outcome the same item is a duplicate without effect; after an error its row, and only its row, is gone |
| Webhook.MovedRunIsNotMovedAgain | src/api/whatsapp_webhook.py:235-270 | an item redelivered after an error does not move the run it already moved |
| Webhook.OnlyCurrentFailureEscalates | src/api/whatsapp_webhook.py:235-270 | a status moves a run exactly when it reports the current notice failed at the SLA gate, which ends it missed |
| Webhook.OnlyTheContactAcknowledges | src/api/whatsapp_webhook.py:317-373 | a tap moves a run exactly when sender, unchanged contact, quoted notice and gate all fit, and says when the call is then met |
| Webhook.PayloadTakesEffectOnce | src/api/whatsapp_webhook.py:170-182 | redelivering a payload that went through reports only duplicates and changes nothing |
| Feed.StageMatchesStatusUnlessSendRaised | src/api/margin_calls.py:34-72 | stage and status name the same gate if and only if the notice step has not raised |
| Feed.StageIsPendingGate | src/agents/orchestrator.py:978-996 | a paused run's stage is its gate; an ended run is no open call |
| Feed.RowExactlyForStandingCalls | src/warehouse/live_load.py:377-412 | a row exactly for the calls raised and not withdrawn, quoting the run's own figure |
| Feed.WithdrawnCallHasNoRow | src/warehouse/live_load.py:377-383 | any unsigned call, re-evaluated in some world, was raised and has no row |
| Calc.ComputeMtm | src/calc/mtm.py:5-44 | each position valued at its price, or all missing tickers named |
| Calc.EffectiveThresholdIsLowestFired | src/calc/breach.py:5-23 | the threshold is the lowest of the base and the fired triggers' |
| Calc.DeliveredCallCuresBreach | src/calc/breach.py:26-51 | a call is positive and at least the MTA, delivering it cures the breach, and no smaller payment reaches the required support |
| Calc.EventImpactIsExposureChange | src/calc/materiality.py:23-52 | the impact over the moved tickers only is the change of the whole book's exposure |
| VectorCalc.VectorMtmIsScalar | src/warehouse/vector_calc.py:39-45 | a counterparty's bin is the scalar mark-to-market of its own positions |
| VectorCalc.VectorInitialMarginIsScalar | src/warehouse/vector_calc.py:53-63 | likewise its initial margin |
| VectorCalc.VectorExposureIsScalar | src/warehouse/vector_calc.py:48-63 | likewise its exposure, VM + IM |
| VectorCalc.VectorBreachIsScalar | src/warehouse/vector_calc.py:66-86 | likewise its threshold, breach flag and call amount |
| VectorCalc.NoPositionIsZero | src/warehouse/vector_calc.py:39-45 | a counterparty without a priced position has an empty bin |
| Ledger.HistoryOk | src/warehouse/backfill.py:264-343 | on every history collateral is never negative, and an amount is pending exactly while a call is open, due within two days |
| Ledger.Conservation | src/warehouse/backfill.py:264-343 | collateral and pending are the opening collateral plus all calls raised less all returns, and all calls are delivered or pending, on every history |
| Ledger.CallIsDeliveredOnce | src/warehouse/backfill.py:338-339 | a raised call is delivered in full on the first or second trading day after, no call being raised meanwhile |
| Ledger.DeliveryHasOneCall | src/warehouse/backfill.py:275-278 | every delivery is of exactly one earlier call |
| Ledger.ReturnLeavesNoShortfall | src/warehouse/backfill.py:340-343 | a month-end return never happens while a call is open and never leaves a shortfall |
| Ledger.MarketIsScalar | src/warehouse/backfill.py:280-291 | what a day brings a counterparty is the scalar engine's figures for its own positions |
| Ledger.WalkDay | src/warehouse/backfill.py:275-343 | the in-place arrays of one day are one evening of every account |
| Ledger.Days | src/warehouse/backfill.py:264-343 | the recorded days are the window's trading days in order, each as the ledger prescribes |
| CollateralOptimizer.OptimizeCollateral | src/calc/collateral_optimizer.py:60-108 | the loop's lines, credit and funding flag are the greedy selection's |
| CollateralOptimizer.GreedyIsCheapest | src/calc/collateral_optimizer.py:74-101 | with consistent haircuts no selection with as much credit posts less raw value |
| CollateralOptimizer.CheapestExactlyWhenConsistent | src/calc/collateral_optimizer.py:75-82 | it is cheapest for all inventories if and only if the haircuts are consistent |
| CollateralOptimizer.FundedExactlyWhenAffordable | src/calc/collateral_optimizer.py:78-103 | never above the requirement, and fully funded exactly when the usable credit reaches it less the epsilon |
| StableSort.SortSpec | src/calc/collateral_optimizer.py:75 | the sort is ascending, a permutation, and stable |
| Chunks.AllChunks | src/warehouse/backfill.py:124-135 | the quarter loop ends; its chunks tile the window if and only if it ends before the calendar's last quarter |
| Chunks.EachDayInOneChunk | src/warehouse/backfill.py:124-135 | a day is in the window exactly when it is in a chunk, and chunks are disjoint and ordered |
| Chunks.QuarterLength | src/warehouse/backfill.py:128-131 | the next quarter begins 90 to 92 days later |
| ChunkWriter.WriteChunks | src/warehouse/backfill.py:596-627 | fails exactly for chunks outside the book's dates; else yields what the cursor gives each chunk, in start order |
| ChunkWriter.CompleteExactlyWhenUncontested | src/warehouse/backfill.py:609-627 | one file per chunk with a trading day, holding exactly its days, if and only if no day lies in two requested chunks |
| ChunkWriter.SelectedQuartersAreComplete | src/warehouse/backfill.py:596-627 | any selection of the quarters is written completely, whatever the others asked for |
| ChunkWriter.WholeWindowIsWritten | src/warehouse/backfill.py:124-135 | asking for all quarters writes every day once, in order |
| ChunkWriter.RecordedDaysAscend | src/warehouse/backfill.py:272-274 | the simulation's days come in date order |
| PdfText.CountUnits | src/agents/pdf_writer.py:37-41 | the loop over the encoded bytes sums their advance widths |
| PdfText.Wrap | src/agents/pdf_writer.py:63-83 | the nested loops end for every non-negative width and give the greedy layout |
| PdfText.WrapKeepsText | src/agents/pdf_writer.py:63-83 | each line fits or is one character, and the non-space characters stand in order |
| PdfText.WrapUsesFewestLines | src/agents/pdf_writer.py:63-83 | if each word fits, the lines are a split of the words and no split into fitting lines has fewer |
| PdfText.NothingFitsNegativeWidth | src/agents/pdf_writer.py:74-79 | for a negative width the word-breaking loop has no exit |
| PdfLiteral.WriteLiteral | src/agents/pdf_writer.py:48-60 | the loop writes the literal of the encoded text |
| PdfLiteral.LiteralReadsBack | src/agents/pdf_writer.py:48-60 | reading the literal by section 7.3.4.2 of ISO 32000-1 gives the encoded bytes, whatever follows |
| PdfLiteral.BodyIsPrintable | src/agents/pdf_writer.py:48-60 | a literal is printable ASCII only |
| PdfFile.Render | src/agents/pdf_writer.py:159-215 | the loops build the numbered objects and the file of them |
| PdfFile.StartXrefPointsAtTable | src/agents/pdf_writer.py:205-214 | the number before the end-of-file marker is the position of the table |
| PdfFile.EntryPointsAtObject | src/agents/pdf_writer.py:194-204 | followed from startxref, every entry holds the position of its object's first byte |
| PdfFile.TableIsFixedWidth | src/agents/pdf_writer.py:202-204 | all entries take twenty bytes if and only if the last object begins within ten digits |
| PdfFile.StreamLengthIsExact | src/agents/pdf_writer.py:177-178 | the declared length read back spans exactly the stream |
| PdfFile.RenderedPageIsFound | src/agents/pdf_writer.py:165-191 | read back and followed through the table, the catalog's reference leads to the page tree, the k-th `/Kids` reference to page k, as many as there are pages, and each page's to its own stream |
| RateLimit.SlidingWindowLimiter.CheckHit | src/api/rate_limit.py:25-39 | the loop and the verdict are `Check` on that key, and no other key changes |
| RateLimit.NoWindowExceedsLimit | src/api/rate_limit.py:25-39 | no half-open minute holds more accepted hits than the limit |
| RateLimit.RefusedExactlyWhenUsedUp | src/api/rate_limit.py:32-38 | a hit is refused if and only if the last minute holds `limit` accepted hits |
| RateLimit.RetrySucceeds | src/api/rate_limit.py:33-38 | a retry after the reported delay succeeds if nothing was accepted in between |
| RateLimit.LimitBelowOne | src/api/rate_limit.py:32-33 | a limit below 1 accepts nothing, and when it reads an empty window |
| TypeClosure.ExpandAnnotation | src/agents/state_serde.py:38-52 | the recursive loop is `Expand` |
| TypeClosure.ExpandsToMentions | src/agents/state_serde.py:38-52 | an annotation expands to exactly the classes it mentions |
| TypeClosure.ReachableTypes | src/agents/state_serde.py:21-35 | the worklist ends on every finite graph, with exactly the models and enums reachable from the root |
| CsaHistory.CsaVersions | src/warehouse/live_load.py:257-268 | the loop gives each counterparty its history, and only those with terms |
| CsaHistory.HistoryDates | src/warehouse/live_load.py:257-268 | consecutive versions differ, and dates never go back while the runs' own dates do not |
| CsaHistory.OneOffsetIsWellFormed | src/warehouse/live_load.py:253-268 | timestamps of one offset give every counterparty a well-formed history |
| CsaHistory.DatesKeptExactlyWhenInOrder | src/warehouse/live_load.py:253-268 | the versions' dates never go back, whatever the terms, if and only if the runs' dates do not |
| CsaHistory.MixedOffsetsGoBack | src/warehouse/live_load.py:253-268 | two runs a second apart with different offsets whose dates go back |
| CsaHistory.TermsOn | src/warehouse/live_load.py:271-278 | the loop finds the version in force |
| CsaHistory.LookupIsLastUsed | src/warehouse/live_load.py:257-278 | the lookup gives the terms of the counterparty's last run up to the date |
| CsaHistory.DimensionRows | src/warehouse/live_load.py:447-472 | one row per version, ending the day before the next begins |
| CsaHistory.ExactlyOneRowCovers | src/warehouse/live_load.py:447-472 | from the first version on exactly one row covers a date, that of the version looked up |

## Left out

- LLM drafting, retrieval, guardrails and redaction: a node that uses them is one that may raise.
- Slack, WhatsApp, ServiceNow, Pub/Sub and the databases: a send or post is an event on the run's log.
- Checkpointing internals: kept are per-thread values, the pending node and replay on resume; a start on an existing thread merges its input over the stored values, and an interrupt left pending is replaced.
- A gate's node that fails on resume, before or after its interrupt returned: a gate can raise when it is reached, but a delivered decision is taken to be recorded.
- MarginRun.NoticeMeaning: a delivery failure carries a non-empty reason, which the channel's errors do; the route after the send tests the reason for emptiness.
- Rounding, currency formatting, rationale texts, NaN and float equality: amounts are exact and a missing close is an absent ticker.
- Random draws and generated books: the SLA outcome, factors, terms and prices of the simulation are inputs; the lifecycle clock times of a simulated call do not enter the ledger.
- `/simulate` and the resume scripts: they start runs without a claim row, with event ids of their own that no impact message repeats.
- Roles, tokens and signatures of requests: the caller's name and right to call are given.
- The row texts, byte counts and compression of chunk files: a file is the sequence of days written to it; an error inside the simulation stops the writer after the files already yielded.
- ImpactConsumer.HandleImpact: other workers do not act between its passes; the interleaved fan-out is `FanOut`, on the protocol's steps.
- ImpactConsumer.NormalReturnClaimsAll: holds of a call nobody interleaves with; `FanOut.NormalReturn` and `FanOut.UnclaimedExactlyWhenGivenBack` hold of every interleaving.
- ImpactConsumer.BusyErrorReleasesExactlyBusy: likewise; in every interleaving, `FanOut.BusyErrorNamesWhatItGaveBack`.
- ImpactConsumer.PropagatedClaimStandsExactlyWhen: likewise; in every interleaving, `FanOut.PropagatedClaimStandsExactlyWhen`.
- Hypotheses.TickIsSafeExactlyWhen: leaves aside a worker past its lease whose counterparty's open call is signed and stuck in a node that raised: the failing continuation closes the open call first, and no step closes that one.
- Dispatch.DispatchTrigger: `LIKE` is taken as the exact comparison that follows it, and reading the open call and acting on it are not interleaved; `Protocol` separates them.
- Protocol.Enabled: the search for the open call is by counterparty, which is what the search by thread id does for ids without a colon (`Dispatch.FindsByCounterparty`).
- Protocol.Initial: a run without a claim row that was started by `/simulate` and signed counts as claimed; no impact message carries its event id.
- Webhook.Handled: phone numbers are normalised over ASCII digits; free-text replies only answer; screening them and the desk's posts are not modelled, nor is the acknowledgement's payload prefix.
- PDF layout: page breaks, coordinates and the figure tables; a page is the list of its drawing operations.
- TypeClosure.Expand: an argument that is itself a Python list (as in `Callable`) is not an annotation here, and the sorted module list is not built.
- CsaHistory.DimensionRows: the version rows only; the counterparty and instrument rows are plain projections.
- Position loading, the price feed's errors beyond raising, the desk assistant, the frontend, migrations and settings.
