# Victoria: the correction loop, verified

Victoria watches a business inbox. An operator corrects its decisions, the corrections become evidence for
rule candidates, somebody in charge promotes candidates to versioned rules, and the rules are frozen into skill versions
that decide later cases and their replays. This project models the sequential state machines and the algorithms
behind that loop and proves what they keep over every run.

## How it is organised

| file | what it models | main results |
|---|---|---|
| `Strings.dfy` | white space and trimming | trimming cuts exactly the white space at the ends |
| `EditDistance.dfy` | the two-row edit distance and the fuzzy keyword test | shortest script, metric laws, two typos forgiven |
| `Confidence.dfy` | Wilson bound, recency, consistency, status | smaller root, strict monotonicity, exact threshold |
| `Sorting.dfy` | what any sort by a key gives | a sort by a separating key has one result |
| `Conditions.dfy` | condition matching, canonical form and hash | what the operators mean, equal hash exactly for permutations |
| `SentIDs.dfy` | the echo filter | a ring and a set that are the last k insertions |
| `OutboundQueue.dfy` | the map-backed queue of the store | the map with a minimum scan is a sequence |
| `Gateway.dfy` | packet delivery, overflow, drain | conservation of packets, drains remove prefixes, when order holds, what goes out when |
| `Bindings.dfy` | which tenant a provider number belongs to, operator addresses | one binding per tenant and channel, the guard lets drafts pass |
| `Learning.dfy`, `CandidateStore.dfy` | corrections merged into candidates | sibling law, evidence conservation |
| `Rules.dfy`, `RuleStore.dfy` | promotion, skill versions, decisions | linear version chains, manifests, best rule decides |
| `Cases.dfy`, `CaseStore.dfy` | cases, snapshots, replay | snapshots are the inputs, replays see them |
| `CorrectionLoop.dfy`, `App.dfy` | learning, rules, cases and bindings as one state machine | invariants of every run, replay determinism, redelivery |
| `InStep.dfy` | manifests against the rules now visible | a slot is in step throughout a run exactly when nothing in it makes it lose step |
| `Taught.dfy`, `LessonRun.dfy` | the way from a correction to the cases it decides | every rule was taught; a lesson decides exactly the cases that meet its conditions |
| `Isolation.dfy` | one tenant's view of the whole | an operation acts on the view as on the whole exactly when it does not disturb it |
| `FailingInputs.dfy` | five runs from the empty state | a lost reply, a slot left behind, one behind from the start, a contradicted rule promoted, a promotion overwritten |
| `CustomerOutbound.dfy`, `CustomerDesk.dfy` | approvals, replies to customers, read-only drafts | at most one message per case, always approved; which addresses are written to |
| `Ingest.dfy` | customer messages turned into cases | one recorded case per message, whatever failed in between |
| `ReplyToSender.dfy` | ingestion and replies together | what is sent for an ingested message goes to its sender |

Stateful code has two halves: a state as a value with a `Step` function and a `Run` over operation lists, about
which the lemmas speak, and a class with the source's fields and loops, each of whose methods ends in exactly the
state that `Step` gives (`State() == Step(old(State()), op)`). So what is proved of runs holds of the objects.

`Inv` is the invariant of a machine; `ReachableInv` shows it of every state a run can reach from the empty one.
Lemmas that require only an invariant therefore speak of every reachable state and of more.

Definitions that follow the code are tied to a second description that does not: `Meets` for the test of a condition,
`Narrower` for the priority of scopes, `Tells` for an ingested payload, `IsUp` and `TakesPacket` for a send,
`IsToCustomer` for a message, scripts for the distance. The lemmas beside them say that both agree.

## What the inputs stand for

* Operations are one sequential list. Each carries the fresh identifiers it draws, what the adapter or the agent
  answers, and the clock reading; all of these are arbitrary. Identifiers are numbers: the source's are hexadecimal of
  fixed width, whose string order is numeric.
* An operator's reply names the channel and number it comes in on; the tenant is looked up from them.
* A hash is represented by what it hashes, or by an arbitrary injective function where the point is the hash.
* A payload value is its type, its printed text and its JSON text; nothing else of it is looked at.
* `Math` stands for the square root and the exponential: any function with `sqrt(x) >= 0` and `sqrt(x)^2 == x`, and any
  `exp` with values in (0, 1] on non-positive arguments. Numbers are exact reals.
* A correction arrives with the conditions and the action its text parses to.

## Where the code does less than its documentation suggests

* A skill version need not say what the rules visible to its slot say. Promoting a rule for everybody, or replacing one,
  leaves the slots of other tenants behind until their own next promotion, and a tenant provisioned beside such a rule
  starts behind, because first versions are empty (`internal/app/app.go:69-77`, `:124-136`). `InStep.StepInStep` shows
  that nothing else does it and `InStep.InStepExactly` lifts this to runs;
  `FailingInputs.RuleForEverybodyLeavesOthersBehind` and `NewcomerStartsBehind` are such runs. `parseScopeHint`
  (`internal/app/gateway.go:459-471`) never produces such a scope, a webhook caller can.
* A promotion checks neither the status of the candidate nor its contradictions (`internal/app/app.go:966-1016`), so
  either of two conflicting candidates can be promoted, the older, contradicted one included
  (`FailingInputs.ContradictedIsPromoted`). What does hold is `SiblingLaw`: only the newest sibling can be under review.
* The binding table is keyed by channel and number alone and a later provisioning overwrites an earlier one
  (`internal/store/memory/store.go:66-77`). A tenant whose number is given to another loses its operator's replies
  (`FailingInputs.SharedNumberLosesReply`). `Isolation.StepInView` says exactly which operations reach another tenant.
* The read-only guard is there to block messages to customers (`internal/channel/whatsapp/adapter.go:654-679`), but the
  draft address may be the customer's own: then the customer gets the draft, without an approval and past the guard
  (`CustomerOutbound.DraftAddressMayBeTheCustomer`). `ReadOnlyReachesCustomerExactly` gives the exact condition.
* A status "promoted" does not last: a later correction for the candidate (`internal/app/app.go:1436-1440`) and one
  against it (`internal/app/app.go:1380-1384`) both overwrite it, while the rule stays active.
  `CorrectionLoop.StaysPromotedExactly` says when it survives, `FailingInputs.PromotedIsOverwritten` is a run where it
  does not, `UnderReviewExactly` says what status follows.
* An ingest that fails after its case was stored leaves the case behind, and the retry starts another: the message
  records at most one case (`Ingest.RunKeeps`), there may be more. `Ingest.LateFailureLeavesACase` says which failures do
  this.
* A packet sent directly may overtake queued ones (`internal/app/gateway.go:191-198`): `Gateway.SecondOvertakesFirst` is
  such a run, and by `Gateway.OrderIsKeptExactly` this is the only way a line loses its order.

## Model

| member | source | states |
|---|---|---|
| `Strings.TrimSpaceCuts` | `internal/app/app.go:317-321` | trimming cuts exactly the white space at both ends |
| `Strings.WhiteSpace` | `internal/app/app.go:317-321` | white space is the six ASCII characters of that kind |
| `EditDistance.Levenshtein` | `internal/app/rules.go:129-156` | the loop over two swapped rows returns the distance, for all strings |
| `EditDistance.DistanceIsShortest` | `internal/app/rules.go:126-156` | the distance is the length of a shortest insert/delete/substitute script: one of that length exists, none is shorter |
| `EditDistance.ScriptFor` | `internal/app/rules.go:129-156` | from any two prefixes a script of exactly the table's length can be built |
| `EditDistance.NoShorterScript` | `internal/app/rules.go:129-156` | every script that turns one string into the other is at least as long as the distance |
| `EditDistance.DistanceIsMetric` | `internal/app/rules.go:129-156` | zero exactly for equal strings, symmetric, triangle inequality; at least the difference and at most the sum of the lengths |
| `EditDistance.ContainsOrFuzzy` | `internal/app/rules.go:107-124` | true exactly when the text contains the keyword, or the keyword has 4 characters and no space and some word of the text, trimmed, has 4 characters and is within two edits |
| `EditDistance.NearFieldsAreNearWords` | `internal/app/rules.go:114-122` | the fields the loop looks at are exactly the words of the text |
| `EditDistance.TypoIsForgiven` | `internal/app/rules.go:98-124` | a keyword altered by at most two edits is accepted wherever it stands as a word |
| `EditDistance.AcceptedIsNear` | `internal/app/rules.go:107-124` | nothing else is accepted: without the keyword itself there is a word whose trimmed text has 4 characters and a script of at most two edits to the keyword, which has 4 characters and no space |
| `EditDistance.TrimCuts` | `internal/app/rules.go:115` | trimming a token cuts exactly the punctuation at both ends |
| `EditDistance.Punctuation` | `internal/app/rules.go:115` | punctuation is the eight listed characters |
| `Confidence.WilsonIsSmallerRoot` | `internal/domain/confidence.go:16-28` | for 1 <= e <= n the bound is the smaller root of the Wilson equation and lies strictly between 0 and e/n, so the clamp never acts |
| `Confidence.EvidenceRaisesWilson` | `internal/domain/confidence.go:16-28` | one more clean piece of evidence strictly raises the bound |
| `Confidence.ContradictionLowersWilson` | `internal/domain/confidence.go:16-28` | one more contradiction strictly lowers it |
| `Confidence.ContradictionLowersConfidence` | `internal/domain/confidence.go:51-56` | a contradiction strictly lowers the confidence, whatever the age and the sources |
| `Confidence.StatusThreshold` | `internal/domain/confidence.go:51-63` | a candidate seen now is under review exactly with no contradiction and evidence >= 4, or evidence 3 over two cases |
| `Confidence.ConfidenceIsProduct` | `internal/domain/confidence.go:51-56` | with evidence the confidence is the product of the bound and the two factors; the clamp never acts |
| `Confidence.NoEvidenceNoConfidence` | `internal/domain/confidence.go:16-19` | without evidence the confidence is zero |
| `Confidence.RecencyFalls` | `internal/domain/confidence.go:30-36` | recency is 1 for the new, falls with age by the same proportion in the same time, to 1/e in 30 days, and stops at a tenth |
| `Confidence.ConsistencyGrows` | `internal/domain/confidence.go:38-49` | consistency is 0.8 for one case and tenant and grows by 0.1 a case and 0.05 a tenant up to 1 |
| `Sorting.SortUnique` | `internal/domain/hash.go:29-38` | two sorted permutations are equal when the order separates their elements |
| `Conditions.ConditionsMatch` | `internal/app/rules.go:169-186` | the early-exit loop is true exactly when the payload meets every condition: `=` the field is there and prints the value, `!=` it does not print the value |
| `Conditions.MatchesMeets` | `internal/app/rules.go:169-186` | a list of conditions matches exactly when each is met |
| `Conditions.OperatorsMean` | `internal/app/rules.go:173-183` | for a field present or absent, when `=` and `!=` match; no other operator does; only the printed text counts |
| `Conditions.CanonicalizeConditions` | `internal/domain/hash.go:26-40` | the canonical list is a sorted permutation of the conditions |
| `Conditions.CanonicalOrder` | `internal/domain/hash.go:29-38` | the canonical list goes by field, then operator, then JSON text |
| `Conditions.StringLessMeans` | `internal/domain/hash.go:29-38` | one string is before another exactly when, after a common start, it ends or has the smaller character |
| `Conditions.CanonicalFormIsUnique` | `internal/domain/hash.go:26-40` | any two sorts encode alike exactly when the lists are permutations by encoding, stable sort or not |
| `Conditions.HashIffPermutation` | `internal/domain/hash.go:42-46` | hashes are equal exactly for permutations, under any injective hash |
| `SentIDs.SentIDs.constructor` | `internal/channel/whatsapp/adapter.go:154-156` | a new filter remembers nothing |
| `SentIDs.SentIDs.Add` | `internal/channel/whatsapp/adapter.go:158-173` | the ring stays the window of the last insertions and the set its ids |
| `SentIDs.SentIDs.Has` | `internal/channel/whatsapp/adapter.go:175-183` | true exactly for the last `limit` insertions of the whole history of adds |
| `SentIDs.SetIsRing` | `internal/channel/whatsapp/adapter.go:146-183` | the set is exactly the non-empty slots of the ring, each filled once |
| `SentIDs.AddedIsRemembered` | `internal/channel/whatsapp/adapter.go:158-183` | an id not remembered when added is remembered while fewer than `limit` further adds are made |
| `SentIDs.AddingAgainRenewsNothing` | `internal/channel/whatsapp/adapter.go:164-166` | adding a remembered id again does not renew it |
| `OutboundQueue.QueueStore.EnqueueOutbound` | `internal/store/memory/store.go:172-181` | enqueue appends to the sequence |
| `OutboundQueue.QueueStore.ListOutboundQueue` | `internal/store/memory/store.go:183-194` | collecting a map in any order and sorting by time gives the line in enqueue order |
| `OutboundQueue.QueueStore.OutboundQueueDepth` | `internal/store/memory/store.go:196-206` | the scan counts the entries of the line |
| `OutboundQueue.QueueStore.DeleteOutboundQueueEntry` | `internal/store/memory/store.go:208-213` | exactly that entry leaves the sequence |
| `OutboundQueue.QueueStore.DeleteOldestOutboundQueueEntry` | `internal/store/memory/store.go:215-234` | the minimum scan removes the head of the line, or nothing from an empty one |
| `Gateway.PacketConservation` | `internal/app/gateway.go:177-353` | after any run each created packet is in exactly one of delivered, queued, overflowed, expired; an adapter accepted it at most once; no line exceeds 100 |
| `Gateway.ReachableInv` | `internal/app/gateway.go:151-353` | the queue stays ordered, bounded and free of duplicates over every run |
| `Gateway.DrainRemovesPrefix` | `internal/app/gateway.go:325-353` | a drain removes exactly the prefix up to the first refusal, sends its live packets in order, writes off its expired ones, and leaves the suffix and other lines alone |
| `Gateway.PrefixLengthStops` | `internal/app/gateway.go:325-353` | that prefix ends at the first live packet the adapter refuses |
| `Gateway.ExpiryIsHonoured` | `internal/app/gateway.go:325-353` | whatever starts a drain, packets newly taken have not expired by its clock and packets newly written off have |
| `Gateway.NotifyExactly` | `internal/app/gateway.go:151-165` | a session that turns active drains its line, any other notice is only noted |
| `Gateway.DrainExactly` | `internal/app/gateway.go:310-320` | a line that is up is drained on demand, one that is down is left alone |
| `Gateway.SendExactly` | `internal/app/gateway.go:177-303` | a new packet goes out at once exactly when its line is up and takes it, else it waits at the end of the line, from which the oldest of a hundred goes |
| `Gateway.DownLineOnlyQueues` | `internal/app/gateway.go:228-236` | through any run that does not bring a line up, nothing is taken on it |
| `Gateway.StepOrder` | `internal/app/gateway.go:177-353` | from a line in order, a step leaves what it has delivered and still holds in order of creation exactly when it is not a direct send past packets the line holds |
| `Gateway.OrderIsKeptExactly` | `internal/app/gateway.go:177-353` | over any run, a line is in order throughout exactly when no direct send overtakes, and its accepted packets are then in order of creation |
| `Gateway.OvertakenPacket` | `internal/app/gateway.go:191-198` | an overtaking send delivers the new packet while an older one stays at the head of the line |
| `Gateway.SecondOvertakesFirst` | `internal/app/gateway.go:177-200` | two sends from the empty state, the first refused: the second is delivered, the first still queued |
| `Gateway.MakeRoomIsFifo` | `internal/app/gateway.go:274-289` | a full line loses its head and nothing else |
| `Gateway.EnqueueIsFifo` | `internal/app/gateway.go:274-303` | enqueue appends, dropping the head of a full line |
| `Gateway.Gateway.SendApprovalPacket` | `internal/app/gateway.go:177-200` | the object takes the send step: direct delivery or queue |
| `Gateway.Gateway.DeliverPacket` | `internal/app/gateway.go:242-272` | delivered, with the adapter's answer deciding, or unchanged |
| `Gateway.Gateway.EnqueuePacket` | `internal/app/gateway.go:274-303` | the object takes the bounded enqueue step |
| `Gateway.Gateway.DrainEntries` | `internal/app/gateway.go:325-353` | the deleting loop over a listing is the recursive drain |
| `Gateway.Gateway.DrainQueue` | `internal/app/gateway.go:310-320` | drains only a line that can deliver |
| `Gateway.Gateway.NotifySessionStatus` | `internal/app/gateway.go:151-165` | records the status and drains on a change to active |
| `Bindings.ClaimKeepsOne` | `internal/store/memory/store.go:66-77` | giving a new tenant a number, even another's, leaves every tenant with at most one binding per channel |
| `Bindings.ConsentKeepsOne` | `internal/app/app.go:203-241` | a consent changes no key and no owner of the binding table |
| `Bindings.GuardAllowsDraft` | `internal/channel/whatsapp/adapter.go:658-679` | the read-only guard never stops a draft on its way to the address the binding gives |
| `Bindings.GuardStopsOthers` | `internal/channel/whatsapp/adapter.go:658-679` | in read-only mode the guard stops what is addressed to neither the operator nor the draft address |
| `Bindings.JidMeans` | `internal/app/helpers.go:153-163` | a bare number becomes a WhatsApp address, an address stays, blank is none |
| `Bindings.DraftsGoWhereNamed` | `internal/app/app.go:203-241` | drafts go to the address a consent names, else to the one named before, else to the operator; a new tenant's to its own number |
| `Bindings.ConsentSetsMode` | `internal/app/app.go:208-235` | a consent sets the mode it names and keeps the addresses it does not; an unknown mode changes nothing |
| `CandidateStore.CandidateStore.ListCandidatesByConditions` | `internal/store/memory/store.go:535-550` | exactly the siblings that are not rejected, in order of id |
| `CandidateStore.CandidateStore.MergeCandidate` | `internal/app/app.go:1344-1450` | the sibling loop and both branches end in the merge of the ledger |
| `CandidateStore.CandidateStore.OpenNew` | `internal/app/app.go:1379-1427` | without a match every sibling is contradicted and a plain candidate with evidence 1 opened |
| `CandidateStore.CandidateStore.ContradictAll` | `internal/app/app.go:1380-1392` | each sibling is contradicted once and recomputed |
| `CandidateStore.CandidateStore.AddTo` | `internal/app/app.go:1428-1443` | a matching candidate gains one piece of evidence, once per correction |
| `CandidateStore.CandidateStore.PersistCorrection` | `internal/app/app.go:1295-1342` | stored and merged once per correction key |
| `CandidateStore.CandidateStore.PersistSignal` | `internal/app/app.go:1119-1134` | nothing happens to a signal seen before; approvals file no correction |
| `Learning.SiblingLaw` | `internal/app/app.go:1366-1443` | the n candidates of a key have n different actions, the i-th created is contradicted n - i times, only the last can be under review and then knows since when |
| `Learning.UnderReviewExactly` | `internal/app/app.go:1379-1440` | unless promoted, under review exactly with no contradiction and evidence >= 4, or 3 over two cases |
| `Learning.EvidenceConservation` | `internal/app/app.go:1295-1443` | a tenant's evidence counts sum to the number of its stored corrections that parsed |
| `Learning.SourcesAreDisjoint` | `internal/app/app.go:1428-1443` | no correction is evidence for two candidates |
| `Learning.ReceiveKeeps` | `internal/app/app.go:1119-1134` | a signal of any kind keeps the candidate invariants |
| `Rules.VersionLaw` | `internal/app/app.go:966-1016` | rules of a key form one chain of versions 1..n, each superseding the one before, the last alone active; skill versions are numbered 1..m, the last alone active and named as such |
| `Rules.BuildManifestElements` | `internal/app/app.go:1562-1613` | the manifest is exactly the visible active rules, sorted by priority and id |
| `Rules.ManifestIgnoresListing` | `internal/app/app.go:1571-1592` | it does not depend on the order in which the store lists the rules |
| `Rules.DecideTakesBest` | `internal/app/app.go:1621-1644` | the decision is that of the applying rule of the narrowest scope (case, tenant, vertical, everybody), then least id; else the default |
| `Rules.VisibleExactly` | `internal/store/memory/store.go:613-622` | a tenant sees the active rules of the workflow that are its own or for everybody, and no others |
| `Rules.UntaughtDecision` | `internal/app/rules.go:34-43` | where no rule applies, quotes are sent, enquiries drafted and GST applied |
| `Rules.PromoteKeeps` | `internal/app/app.go:966-1016` | a promotion keeps the chains linear and leaves its own slot publishing exactly the rules visible to it, whatever happened before |
| `Rules.ProvisionKeeps` | `internal/app/app.go:49-144` | provisioning keeps the rule chains and version histories linear |
| `Rules.ProvisionSync` | `internal/app/app.go:69-136` | a new tenant's slot starts in step exactly when its workflow has no active rule for everybody; every other slot stays in step or out of it |
| `Rules.SyncLostExactly` | `internal/store/memory/store.go:605-630` | a promotion leaves another slot in step exactly when it is of another workflow or neither the new rule nor the replaced one is for everybody |
| `RuleStore.EvaluateDecision` | `internal/app/app.go:1621-1644` | the loop with its early exit is the decision function |
| `RuleStore.RuleStore.DeprecateActiveRule` | `internal/store/memory/store.go:589-603` | the active rule of the key is deprecated and named as superseded, with the next version number |
| `RuleStore.RuleStore.ListVisibleValidatedRules` | `internal/store/memory/store.go:605-630` | exactly the visible active rules, each once, by falling scope and then newest first; not found for an unknown tenant |
| `RuleStore.RuleStore.StoreSkillVersion` | `internal/store/memory/store.go:644-656` | the earlier versions of the slot are deprecated and the new one made active |
| `RuleStore.RuleStore.ManifestFor` | `internal/app/app.go:1571-1592` | from any listing order, entries built in a loop and sorted give the one manifest of the slot |
| `RuleStore.RuleStore.CreateSkillVersion` | `internal/app/app.go:1562-1613` | the next version of the slot is published with that manifest; refused for an unknown tenant |
| `RuleStore.RuleStore.PromoteRule` | `internal/app/app.go:966-1016` | the rule tables take the promotion step |
| `RuleStore.RuleStore.ProvisionTenant` | `internal/app/app.go:49-144` | the three first versions are stored |
| `Cases.SnapshotIsPayload` | `internal/app/app.go:515-525` | the first snapshot of a case is the payload it started with |
| `CaseStore.CaseStore.ListArtifacts` | `internal/store/memory/store.go:301-312` | exactly the artifacts of the case, in order of id |
| `CaseStore.CaseStore.SnapshotContent` | `internal/app/app.go:515-525` | the scan returns the first snapshot by id, else the input |
| `CaseStore.CaseStore.UpdateCaseRunStatus` | `internal/store/memory/store.go:243-253` | only the status of that case changes; not found for a missing case or another tenant's |
| `CaseStore.CaseStore.UpdateDecisionPointStatus` | `internal/store/memory/store.go:272-282` | only the status of that decision changes; not found for a missing one or another tenant's |
| `App.App.StartCase` | `internal/app/app.go:384-459` | refused with the first failing check, else the ledger takes the start step |
| `App.App.OpenCase` | `internal/app/app.go:396-458` | the agent overrules only the default, and only with an allowed action |
| `App.App.SkillVersionFor` | `internal/app/app.go:474-485` | named, current or pinned version, of the tenant only |
| `App.App.ProvisionTenant` | `internal/app/app.go:49-144` | refused without a name, vertical, number or operator or for a known tenant, else three skill versions and two bindings are stored |
| `App.App.AcknowledgeWhatsAppConsent` | `internal/app/app.go:203-241` | the fields written one by one make the binding the ledger's consent step gives; refused without a binding or for an unknown mode |
| `App.App.WhatsAppBindingByTenant` | `internal/store/memory/store.go:134-143` | the scan in any order finds the one WhatsApp binding of the tenant, if there is one |
| `App.App.ReplayCase` | `internal/app/app.go:469-513` | the ledger takes the replay step, the agent is not asked; refused exactly without the case or the version |
| `App.App.ReceiveOperatorReply` | `internal/app/gateway.go:355-431` | the tenant is the owner of the number; admitted only for its own unexpired packet, then the ledger takes the reply step |
| `App.App.PromoteCandidate` | `internal/app/app.go:966-1016` | both stores take the promotion step; refused exactly without tenant, promoter or a candidate of the tenant |
| `CorrectionLoop.ReachableInv` | `internal/app/app.go:49-1644` | every run of provisioning, consents, starts, replies, promotions and replays keeps all table invariants |
| `CorrectionLoop.StartRefusedExactly` | `internal/app/app.go:384-411` | after any run, which starts are refused and with which error: never for want of a skill version |
| `CorrectionLoop.StartOpens` | `internal/app/app.go:384-459` | a started case waits for approval on the active version with its payload and snapshot as they came, and its packet can be answered for 48 hours on a number of the tenant |
| `CorrectionLoop.ProvisionedExactly` | `internal/app/app.go:49-66` | a tenant is provisioned exactly with a name, a vertical, a number and an operator, once |
| `CorrectionLoop.AllowedExactly` | `internal/app/rules.go:23-32` | what the agent may choose in each workflow |
| `CorrectionLoop.ReachableSiblings` | `internal/app/app.go:1366-1443` | after any run, siblings differ in action and at most one is under review |
| `CorrectionLoop.ReachableEvidence` | `internal/app/app.go:1295-1443` | after any run, evidence counts sum to the parsed corrections |
| `CorrectionLoop.RunPersists` | `internal/app/app.go:469-525` | signals, corrections, cases, decisions, packets and manifests never change once stored |
| `CorrectionLoop.ReplayIsDeterministic` | `internal/app/app.go:469-525` | a default replay after any further run decides as the pinned rules on the original payload |
| `CorrectionLoop.ReplayRepeatsTheStart` | `internal/app/app.go:384-525` | after any run between, the replay repeats the action of the start exactly when the agent was silent, a rule fired, its proposal was not allowed, or it proposed what the rules give |
| `CorrectionLoop.NamedReplay` | `internal/app/app.go:475-477` | a replay against a named version uses that version if it is the tenant's own, else nothing happens |
| `CorrectionLoop.CurrentReplay` | `internal/app/app.go:478-479` | a replay against the current version uses the one active now, whatever the case was started with |
| `CorrectionLoop.PinnedReplay` | `internal/app/app.go:480-482` | any other replay uses the version the case was started with, and there is one |
| `CorrectionLoop.ForeignReplay` | `internal/app/app.go:469-473` | nobody replays a case of another tenant |
| `CorrectionLoop.RedeliveryIsIgnored` | `internal/app/app.go:1119-1134` | delivering an admitted signal again changes nothing, after any further run and on any number |
| `CorrectionLoop.RecordedExactly` | `internal/app/app.go:1119-1134` | after any run a reply has an effect exactly when it is admitted, the same message was not admitted on its packet before, and, being no approval, nothing was filed from its source message there |
| `CorrectionLoop.ReplyMarks` | `internal/app/app.go:1333-1340` | a reply with an effect marks its case and decision as approved or corrected, any other touches no case |
| `CorrectionLoop.DuplicateCorrectionTeachesNothing` | `internal/store/memory/store.go:495-504` | once a correction is filed, a later message that files it again, after any run, leaves every candidate, correction, rule and case as it was |
| `CorrectionLoop.ContradictedNeverReturns` | `internal/domain/confidence.go:58-63` | a candidate contradicted once is never under review again, over any run and with any evidence |
| `CorrectionLoop.FiledUnderItsCase` | `internal/app/app.go:1360-1370` | a correction is filed under the workflow its case was started with, although it is read back from the agent input |
| `CorrectionLoop.PromotedIsLostExactly` | `internal/app/app.go:1366-1443` | an operation takes the promoted status of a candidate exactly when it is a reply that files a new correction for it, or for no sibling of it; the rules stay as they were |
| `CorrectionLoop.StaysPromotedExactly` | `internal/app/app.go:1366-1443` | over any run a promoted candidate stays promoted throughout exactly when no such reply occurs |
| `InStep.NewSlotInStep` | `internal/app/app.go:69-136` | in every reachable state, a new tenant's slot starts in step exactly when no rule for everybody is active in its workflow |
| `InStep.StepInStep` | `internal/store/memory/store.go:605-630` | any operation leaves a slot in step exactly when it is neither another tenant's promotion that reaches everybody in the workflow nor the slot's own provisioning beside such a rule |
| `InStep.InStepExactly` | `internal/app/app.go:966-1016` | over any run from the empty state, a slot is in step throughout exactly when no operation of the run does that |
| `InStep.OwnPromotionCatchesUp` | `internal/app/app.go:1562-1613` | a tenant's own promotion brings the slot in step, however far behind it was |
| `InStep.ReachableDecision` | `internal/app/app.go:1562-1644` | after any quiet run from a state in step, the active skill version decides as the rules now visible do: highest priority, then least id, else the default |
| `InStep.NoForeignDefaultsIsQuiet` | `internal/store/memory/store.go:605-630` | a run in which no other tenant ever promotes a rule for everybody is quiet |
| `Taught.LessonDecides` | `internal/app/app.go:966-1644` | an operator taught an action under conditions and it was promoted, over any runs between: wherever no other rule applies, a case of the workflow is decided so exactly when its payload meets the conditions, else as if nothing had been taught |
| `Taught.OneRuleDecides` | `internal/app/app.go:1621-1644` | in any state in step, a rule that alone can apply decides exactly the cases that meet its conditions |
| `Taught.RulesAreTaught` | `internal/app/app.go:966-1016` | after any run every rule has the conditions, action, scope and decision of one stored correction of its tenant, and the hash of those conditions |
| `Taught.EvidenceMeansTheSame` | `internal/domain/hash.go:42-46` | every piece of a candidate's evidence is met by the same payloads as the candidate |
| `Taught.ReplyIsStored` | `internal/app/app.go:1295-1322` | a recorded correction is stored in the operator's words, for the case and decision of its packet |
| `Taught.ParsedTeachesOne` | `internal/app/app.go:1366-1443` | a recorded correction that parses is the newest evidence of exactly one candidate, new or with one piece more, with its times; nothing else gains any |
| `Taught.UnparsedTeachesNothing` | `internal/app/app.go:1349-1360` | one that does not parse teaches nothing |
| `Taught.PromotedSays` | `internal/app/app.go:966-1016` | the promoted rule says what its candidate says, by whom and when; of the candidate only the status changes |
| `LessonRun.NorthIsHeld` | `internal/app/app.go:966-1644` | a run from the empty state: corrected once to hold in the north and promoted, later cases are held in the north and answered elsewhere |
| `Isolation.TenantsDoNotInterfere` | `internal/app/app.go:966-1016` | after any run of all tenants, a tenant's tables equal those of its own operations run alone, if no operation took one of its numbers and it promoted nothing beside another's active rule for everybody |
| `Isolation.StepInView` | `internal/store/memory/store.go:605-630` | an operation acts on a tenant's view as on the whole, and not at all when it is another's, exactly when it is not one of these two |
| `Isolation.SeparateNumbersSuffice` | `internal/store/memory/store.go:66-77` | that is so of every run in which others are provisioned with other numbers and replies on those ask for no rule for everybody |
| `FailingInputs.SharedNumberLosesReply` | `internal/app/gateway.go:368-377` | a run from the empty state: after another tenant is provisioned with the number, an operator's reply files nothing, where without that it files a correction |
| `FailingInputs.RuleForEverybodyLeavesOthersBehind` | `internal/app/app.go:966-1016` | a run from the empty state after which another tenant's active manifest is not that of its visible rules |
| `FailingInputs.NewcomerStartsBehind` | `internal/app/app.go:69-77` | a run from the empty state after which a newly provisioned tenant's manifest is not that of its visible rules |
| `FailingInputs.ContradictedIsPromoted` | `internal/app/app.go:966-1016` | a run from the empty state that promotes a contradicted candidate to the active rule |
| `FailingInputs.PromotedIsOverwritten` | `internal/app/app.go:1380-1440` | a run from the empty state in which one more correction, to any action, takes the promoted status while the rule stays active |
| `CustomerOutbound.AtMostOneSend` | `internal/app/app.go:1165-1273` | after any run a case has one accepted customer message if its row is sent, else none |
| `CustomerOutbound.SendsAreApproved` | `internal/app/app.go:1136-1273` | every message is the draft of its case to its customer, under an approval that an approve reply to the unexpired packet of that decision left |
| `CustomerOutbound.SendsGoToTheCustomer` | `internal/app/app.go:1219-1225` | after any run every message went to the non-empty `customer_identifier` of its case's payload |
| `CustomerOutbound.FirstApprovalStays` | `internal/store/memory/store.go:361-371` | approvals on record stay over any run, each the first of its decision |
| `CustomerOutbound.SentStays` | `internal/store/memory/store.go:453-469` | a row marked sent never changes again |
| `CustomerOutbound.RetryDelivers` | `internal/app/app.go:1211-1269` | once approved and in full control, an accepted attempt yields exactly one message, however many attempts went before |
| `CustomerOutbound.RetryExactly` | `internal/app/app.go:1211-1269` | an attempt writes one message, to the customer and with the text of the workflow, exactly when mode, approval, customer, earlier sends and adapter allow it, else none |
| `CustomerOutbound.OutcomesMean` | `internal/app/app.go:1165-1269` | what each outcome says of the case, in the code's order of checks |
| `CustomerOutbound.ApprovalIsSent` | `internal/app/app.go:1136-1163` | an approval with an effect is answered at once, in full control with an accepting adapter |
| `CustomerOutbound.RetryDraftsExactly` | `internal/app/app.go:1178-1210` | in read-only mode an attempt hands over the instruction and the draft and writes to no customer |
| `CustomerOutbound.CorrectionDraftsExactly` | `internal/app/app.go:1461-1502` | a correction writes to no customer and hands over a draft exactly when it has an effect, parses to an action with a reply, and the tenant is read-only |
| `CustomerOutbound.DraftBodyMeans` | `internal/app/helpers.go:48-60` | which text a draft has |
| `CustomerOutbound.SendReachesExactly` | `internal/app/app.go:1165-1273` | a send adds exactly one address to those its tenant has written to: the draft address in read-only mode, the customer in full control, none when refused |
| `CustomerOutbound.CorrectionReachesExactly` | `internal/app/app.go:1461-1502` | the draft after a correction adds exactly the draft address of a read-only tenant, and nothing without such a binding |
| `CustomerOutbound.ReadOnlyStaysAway` | `internal/app/app.go:1176-1203` | a tenant that never gets full control sends drafts, after approvals, retries or corrections, to no address that its number and its consents do not name, over any run |
| `CustomerOutbound.ReadOnlyReachesCustomerExactly` | `internal/app/app.go:1176-1203` | a read-only attempt writes to the customer exactly when the binding sends drafts to the customer's address |
| `CustomerOutbound.DraftAddressMayBeTheCustomer` | `internal/app/helpers.go:132-151` | a consent that names the customer's address makes the customer get the draft, unapproved and past the guard |
| `CustomerOutbound.ReachableInv` | `internal/app/app.go:1136-1273` | approvals, rows and sends stay consistent over every run |
| `CustomerDesk.CustomerDesk.CreateAuditEvent` | `internal/store/memory/store.go:361-371` | the first approval of a decision is recorded, later ones are not |
| `CustomerDesk.CustomerDesk.ApprovalAuditID` | `internal/store/memory/store.go:404-415` | the scan in any order finds the one approval of the decision, if there is one |
| `CustomerDesk.CustomerDesk.UpsertOutboundToCustomer` | `internal/store/memory/store.go:453-469` | created once per key, then only queued to sent |
| `CustomerDesk.CustomerDesk.SendApprovedCustomerReply` | `internal/app/app.go:1165-1273` | the outcome and the state are those of the specified send, in the code's order of checks and in both modes |
| `CustomerDesk.CustomerDesk.SendDrafts` | `internal/app/app.go:1178-1203` | the instruction, then the draft, to the address found by the chain of fallbacks; a refusal stops the second |
| `CustomerDesk.CustomerDesk.SendToCustomer` | `internal/app/app.go:1211-1269` | nothing without an approval and a customer, in this order |
| `CustomerDesk.CustomerDesk.SendMessage` | `internal/app/app.go:1229-1269` | queued, sent and marked at most once per row |
| `CustomerDesk.CustomerDesk.ReceiveOperatorReply` | `internal/app/app.go:1119-1163` | an approval is audited and sent, a new correction may have a draft sent, all else is left to the correction loop |
| `CustomerDesk.CustomerDesk.DeliverCorrectionDraft` | `internal/app/app.go:1461-1502` | binding, mode and draft are looked at in turn, then both messages go to the draft address |
| `Ingest.IngestIsIdempotent` | `internal/app/app.go:316-382` | after a success every later delivery of the message succeeds with the same, existing case and changes nothing |
| `Ingest.AcceptedExactly` | `internal/app/app.go:316-370` | an ingest succeeds exactly for a complete message of a known tenant that has a case or whose start nothing outside fails |
| `Ingest.FailureCanBeRetried` | `internal/app/app.go:347-370` | a failed attempt does not poison the message |
| `Ingest.IngestStarts` | `internal/app/app.go:347-370` | a first success starts an enquiry of the tenant whose payload tells the event |
| `Ingest.PayloadTells` | `internal/app/helpers.go:28-46` | which field of the event is where in the payload, trimmed, and that there is nothing besides |
| `Ingest.AttemptIsNoted` | `internal/app/app.go:325-365` | the message is stored as it first came and its case or failure noted |
| `Ingest.LateFailureLeavesACase` | `internal/app/app.go:347-356` | an attempt that fails before storing its case changes nothing in the ledger, one that fails after leaves the case, unknown to the message |
| `Ingest.SameMessageExactly` | `internal/store/memory/store.go:417-427` | deliveries are of one message exactly when tenant, channel and source agree |
| `ReplyToSender.RepliesGoToTheSender` | `internal/app/app.go:316-1269` | through any run after an ingest, what is sent for its case goes to the customer who wrote in |
| `Ingest.RunKeeps` | `internal/store/memory/store.go:417-451` | a recorded case id never changes, over every run with arbitrary failures |
| `Ingest.CustomerInbox.CreateCustomerMessage` | `internal/store/memory/store.go:417-427` | stored once per tenant, channel and source id |
| `Ingest.CustomerInbox.UpdateCustomerMessageCase` | `internal/store/memory/store.go:439-451` | only the case and the status of that message change |
| `Ingest.CustomerInbox.IngestCustomerMessage` | `internal/app/app.go:316-382` | the object takes the ingest step and returns its outcome |

## Left out

- Concurrency and store failures: one sequential list of operations over a store that does not fail, as DESIGN-NOTES.md treats them.
- The Postgres store, HTTP routes, authentication, the MCP server and the WhatsApp session manager.
- The DeepSeek agent: an arbitrary optional action per start.
- `structuredRuleFromCorrection`, `classifyIntent` and the WhatsApp commands: keyword tables whose results arrive as inputs.
- Message texts and notifications; a draft is told apart by what varies in it; of the messages to the operator only the drafts of the read-only mode, with their instructions, are recorded.
- The stored confidence number: recomputed before every use, so only the status it leads to is kept.
- Audit events other than approvals, and the writes they would add to the tables.
- Of a channel binding: its registered command identities, customer allowlist, retention time and secrets. `Gateway` has a session status and a recipient per line of its own.
- Bytes outside ASCII: text is a sequence of characters, white space is the ASCII white space, lengths count characters.
- Rounding: confidence is computed in exact reals.
- Rule verticals: promotion never sets one, so vertical rules are visible to their own tenant only.
- Message metadata in an ingested payload.
- StartCase under ingestion may also fail for a reason outside the model, before or after storing the case (`Fate`).
- Two clock readings within one reply: the expiry check and the records made after it share one.
- App.App.StartCase: the packet is stored and its delivery left to `Gateway`, where a send is delivered or queued and refuses nothing; the error it can return comes from a failing store.
- RuleStore.RuleStore.ProvisionTenant: a new tenant's first skill versions go through the same step as later ones, where the source writes the first together with the tenant.
- OutboundQueue.QueueStore.EnqueueOutbound: enqueue times are strictly increasing, because the source orders a line by time alone.
