# RobinFund: verified models

RobinFund runs funds that autonomous agents trade for their sponsors. This project models the parts of it
whose guarantees come from several functions, or several processes, working together, and proves those
guarantees for every input and every interleaving. Run `dafny verify dfyconfig.toml` here to check it.

## What is modelled

Components that update records step by step are classes whose methods are proved against functions on
values. Where several of them run at once there is also a state machine: a step is one store call or one
answer from outside, runs are sequences of steps, and the theorems speak of every run. The methods of the
workers and services are then proved to be such runs. In `VaultWorker`, `ComplianceService`, `RelayerWorker`
and `MutationRunner` each suspension is a call of `Await`, which promises nothing but that some run happened
meanwhile and that it did not touch this call; so what is proved of the methods holds under any interference.
Parameters and fields called history or ghost exist to state properties and influence nothing.

- **Vault deployment** (`VaultJobs`, `VaultProtocol`, `VaultSafety`, `VaultTheorems`, `VaultWorker`). Any
  number of workers claim durable jobs, reserve three nonces, sign and persist three transactions and send
  them one per tick; any of them may fail or crash between any two steps. A reservation looks only at jobs
  that already have a plan, so disjointness rests on the blocker rule of the claim, on the release in the
  `catch` block and on claiming one job at a time; `ClaimingTwoWouldOverlap` shows that the last is needed.
- **Linking** (`LinkBytecode`). The in-place patch loop over library placeholders.
- **Accounting** (`FundEvents`, `Indexer`, `Subgraph`, `FundAgreement`, `FundRows`). One event log, two
  indexers. The relational one is modelled over cached rows that `update` mutates while a handler still holds them. The
  contract is assumed to emit valid logs only: registration precedes every other event; deposits mint shares
  to LPs and never to the fee splitter; burned shares are positive and covered by the balance; slices belong
  to a requested order, come before its execution, and that execution is in kind; an order executes once;
  claims are of accounts that deposited; a period settles once with its fee, if any, immediately before.
- **First loss** (`FirstLoss`). WAD arithmetic with floor division over any list of LPs.
- **World Identity** (`IdentityStore`, `IdentityTheorems`, `IdentityKeys`). Verification and reuse of sponsor bindings under a
  clock that does not run back. The store's methods never revoke an identity binding, but the record has a
  field for it that every check respects, so runs may also revoke; what holds without revocations and what
  holds with them is stated apart. Profiles keep their runtime kind and stay retired;
  `UnretiringPassesTheCapExactlyWhenFull` says what happens otherwise.
- **Compliance** (`ComplianceStore`, `ComplianceProtocol`, `ComplianceTheorems`, `ComplianceService`). Person
  and address bindings with their audit trail, and admissions, public renewals and revocations racing with
  the eligibility gate, which is a nonce, a revocation time and an expiry per account: `revoke` sets the time
  and advances the nonce, `attest` at the current nonce clears the time and advances it too. A signature
  counts as released from the second reading of the revocation time on.
- **Relaying** (`ExecutionStore`, `RelayProtocol`, `RelayTheorems`, `RelayQueue`, `RelayRuns`,
  `RelayerWorker`). Exactly-once relaying of signed intents. Attempts are interleaved freely, which covers the one-after-another
  processing of a batch.
- **Idempotent mutations** (`Idempotency`, `Mutations`, `MutationRunner`).
- **Canonical JSON** (`StableJson`, `CanonicalJson`). A text is its parse tree. The order of keys is a
  parameter: it stands for the order in which the members of a sorted object are finally written.
- **Quotes and intents** (`QuotePipeline`, `IntentService`). Execution plan, draft, the agent's local check and
  the gateway's acceptance, with ABI encodings and hashes as injective constructors.

`Wrappers` holds the two result types used everywhere.

## Where the code is narrower than its promise

Each of these has its exact condition and an input that shows it.

- Compliance: the guards of the store test ids for truthiness, so an empty person id is overlooked and two
  persons can end up on one address (`AdmitKeepsInverseExactlyWhen`, `EmptyIdSharesAnAddress`). The service's
  policy admits no empty id, so its runs are safe.
- World Identity: once a binding can be revoked, its human can be bound again by another sponsor while the
  revoked record stays (`AcceptanceSharesExactlyWhenRevokedElsewhere`, `RevocationLetsAHumanBeShared`).
- Vault deployment: locks do not expire in memory, so a crash inside a tick stops the queue
  (`NoJobIsStranded`, `CrashStopsTheQueue`, `OneCrashIsEnough`).
- Relaying: a reorganisation at the last attempt ends the job and leaves the intent submitted in the in-memory
  store (`TerminalWithoutFailedIntentExactlyWhen`, `ReorganisationStrandsTheIntent`).
- Relaying: the in-memory store claims queued jobs only, so a job whose transaction has no receipt yet, or too
  few confirmations, is not looked at again (`TakenUpExactlyWhenQueued`, `NoReceiptLeavesItSubmitted`). The SQL
  function that the Postgres store calls also takes up submitted jobs, after a while.
- Idempotency: scope and key are joined by a colon, so two pairs can share an entry. The route that processes a
  vault job takes its id from the path unchecked and has one request hash, so a request for one id can be given
  the result of another and not run (`SharedEntryExactlyWhen`, `SecondRunsExactlyWhenEntriesDiffer`,
  `ProcessRequestsShareAnEntry`, `ProcessRequestsAnswerForEachOther`).
- Canonical JSON: two different keys that tie in the comparison keep their order, and the text is then not
  canonical (`CanonicalExactlyWhenNoTies`, `TwoSpellingsTwoHashes`, `SpellingOrderIsNotCanonical`).
- Quotes: the agent's check compares the adapter deadline with the deadline of the intent for equality, so an
  intent lifetime that cuts the deadline short makes it fail (`LocalCheckPassesExactlyWhen`,
  `ShortLifetimeFailsTheLocalCheck`).

`RecordSurvivesExactlyWhenBodyRenders` is a condition on handlers and not such a case: every route returns an
object, and an object renders.

## Model

| member | source | states |
|---|---|---|
| `VaultTheorems.ReachedStatesAreSafe` | `apps/agent-gateway/src/vault-worker.ts:299-388` | every state reached by any interleaving of claims, answers, errors and crashes satisfies the invariant |
| `VaultTheorems.RangesNeverOverlap` | `apps/agent-gateway/src/store.ts:1020-1062` | the three-nonce ranges of any two jobs that hold one are disjoint, although a reservation ignores jobs without a plan |
| `VaultTheorems.PersistedNoncesAreUnique` | `apps/agent-gateway/src/store.ts:1064-1072` | two signed transactions that were ever persisted and share a nonce are the same transaction of the same plan |
| `VaultTheorems.BroadcastDiscipline` | `apps/agent-gateway/src/vault-worker.ts:321-369` | whatever was broadcast is a transaction of a complete plan persisted before, its predecessors were seen successful, canonical and confirmed in the same tick, and that tick sent nothing else |
| `VaultTheorems.AwaitingMeansDeployed` | `apps/agent-gateway/src/vault-worker.ts:328-370` | a job that awaits its sponsor, or is ready, had all three transactions confirmed in one tick |
| `VaultTheorems.QueueDiscipline` | `apps/agent-gateway/src/vault-worker.ts:371-387` | at most one active job holds a lock or a range, at most one worker is inside a tick, an inactive job keeps a range only with its plan, attempts count failing ticks and stay within 20, below 20 while active |
| `VaultTheorems.NoJobIsStranded` | `apps/agent-gateway/src/store.ts:1020-1044` | a claim takes a job exactly when no active job is locked and the job that holds the range, or any active job if none does, is due and its agent eligible; it takes such a job |
| `VaultTheorems.CrashStopsTheQueue` | `apps/agent-gateway/src/store.ts:1020-1044` | after a worker crashes inside a tick every claim in every continuation comes back empty |
| `VaultTheorems.OneCrashIsEnough` | `apps/agent-gateway/src/store.ts:1020-1044` | the run that shows it: after one request, its claim and a crash no continuation has a claim that returns a job |
| `VaultTheorems.ActivationIsUnambiguous` | `apps/agent-gateway/src/postgres-store.ts:1732-1742` | the guarded activation can match one job at most |
| `VaultTheorems.ClaimingTwoWouldOverlap` | `apps/agent-gateway/src/vault-worker.ts:288` | claimed two at a time, two fresh jobs reserve the same range: the limit of one is needed |
| `VaultSafety.NextKeepsInv` | `apps/agent-gateway/src/vault-worker.ts:299-395` | every step of every worker and of the store keeps the invariant |
| `VaultSafety.ReservationIsFree` | `apps/agent-gateway/src/store.ts:1046-1056` | a fresh reservation lies above every range that any job holds |
| `VaultJobs.BlockerUpTo` | `apps/agent-gateway/src/store.ts:1024-1031` | the blocker is a held job that no other held job precedes in the sort |
| `VaultJobs.HighestNonce` | `apps/agent-gateway/src/store.ts:1049-1052` | the reservation is at least the observed nonce and past every range of a persisted plan of the deployer |
| `VaultJobs.VaultStore.CreateVaultJob` | `apps/agent-gateway/src/store.ts:990-1010` | appends a fresh requested job and changes nothing else |
| `VaultJobs.VaultStore.ClaimVaultJobs` | `apps/agent-gateway/src/store.ts:1020-1044` | returns the claimable jobs in order, up to the limit, and locks exactly those |
| `VaultJobs.VaultStore.ReserveVaultNonceRange` | `apps/agent-gateway/src/store.ts:1046-1056` | an existing range is returned unchanged, a new one starts at the highest nonce; an unknown job is an error |
| `VaultJobs.VaultStore.ReleaseUnusedVaultNonceRange` | `apps/agent-gateway/src/store.ts:1058-1062` | clears the range of a job without a plan and refuses otherwise |
| `VaultJobs.VaultStore.PersistVaultDeploymentPlan` | `apps/agent-gateway/src/store.ts:1064-1072` | stores the plan only for the owner of the lock |
| `VaultJobs.VaultStore.UpdateVaultJobState` | `apps/agent-gateway/src/store.ts:1074-1094` | moves the job on, drops the lock and counts the attempt, only for the owner of the lock |
| `VaultJobs.VaultStore.MarkVaultJobReady` | `apps/agent-gateway/src/postgres-store.ts:1732-1742` | activates exactly the jobs that await binding with this controller and fund, and fails unless there is exactly one |
| `VaultWorker.VaultDeploymentWorker.RunOnce` | `apps/agent-gateway/src/vault-worker.ts:282-297` | a tick claims the job the store picks, extends the run under any interference from idle to idle, and its outcome tells how the job was left |
| `VaultWorker.VaultDeploymentWorker.Process` | `apps/agent-gateway/src/vault-worker.ts:299-388` | the tick extends the run under any interference and ends idle; awaiting, failed and pending outcomes each name the last step, the freed lock, the state and the history entry that go with them |
| `VaultWorker.VaultDeploymentWorker.Attempt` | `apps/agent-gateway/src/vault-worker.ts:303-371` | the `try` block either ends the tick or throws with the three variables that the `catch` block reads |
| `VaultWorker.VaultDeploymentWorker.MakePlan` | `apps/agent-gateway/src/vault-worker.ts:315-326` | reserve, sign and persist, in this order, before the first receipt check |
| `VaultWorker.VaultDeploymentWorker.CheckTransaction` | `apps/agent-gateway/src/vault-worker.ts:328-360` | one round of the transaction loop: confirmed, or the tick ends with a release or an error |
| `VaultWorker.VaultDeploymentWorker.RecordFailure` | `apps/agent-gateway/src/vault-worker.ts:380-386` | escapes exactly if the lock is not this worker's; otherwise one more attempt is counted and the job is freed, in its stage for a retry and failed without |
| `VaultWorker.VaultDeploymentWorker.Recover` | `apps/agent-gateway/src/vault-worker.ts:375-379` | an unused range is given back exactly when the job will not be retried, and nothing else is touched |
| `LinkBytecode.LinkVaultArtifactBytecode` | `apps/agent-gateway/src/vault-worker.ts:51-76` | the nested loops return what linking must return: an error for an unsupported reference or for text that is not fully linked, else the patched text |
| `LinkBytecode.LinkFile` | `apps/agent-gateway/src/vault-worker.ts:58-70` | one file: succeeds exactly on supported libraries, patches all its windows and counts them |
| `LinkBytecode.LinkPositions` | `apps/agent-gateway/src/vault-worker.ts:63-68` | one library: succeeds exactly when every reference has 20 bytes |
| `LinkBytecode.PatchOverlays` | `apps/agent-gateway/src/vault-worker.ts:65-66` | for disjoint windows in bounds the length stays, every window shows the address and every other character stays |
| `LinkBytecode.PatchOrderIrrelevant` | `apps/agent-gateway/src/vault-worker.ts:58-70` | any order of files, libraries and positions gives the same text |
| `LinkBytecode.PatchTwice` | `apps/agent-gateway/src/vault-worker.ts:65-66` | patching again changes nothing |
| `LinkBytecode.LinkSucceedsIffNothingElseIsUnlinked` | `apps/agent-gateway/src/vault-worker.ts:71-75` | linking succeeds exactly when there is a window and all text outside the windows, and the address, is hexadecimal |
| `LinkBytecode.LinkIsStable` | `apps/agent-gateway/src/vault-worker.ts:51-76` | relinking a linked artifact, references in any order, returns it unchanged |
| `FundAgreement.IndexerIsRight` | `packages/indexer/src/index.ts:117-440` | on every valid log positions and aggregates are what the replay says, every requested order has a row with its delivered value, and every mentioned period a row |
| `FundRows.OrdersMatchReplay` | `packages/indexer/src/index.ts:210-348` | an order has a row exactly when it was requested, and every field of it is what the log says |
| `FundRows.OrdersSayTheLastWord` | `packages/indexer/src/index.ts:210-348` | the row of an order says who and how much as its first request, how it stands as the last execution or cancellation since, in kind as the last request, conversion or execution, and paid what its one execution paid |
| `FundRows.SettlementsMatchReplay` | `packages/indexer/src/index.ts:352-418` | the row of a settled period has the emitted price, the fee shares minted right before and the price after they dilute the supply of that moment |
| `FundRows.SupplyIsReplayed` | `packages/indexer/src/index.ts:117-418` | the running supply is everything minted minus everything burned |
| `FundAgreement.AggregatesMatchReplay` | `packages/indexer/src/index.ts:238-329` | total shares, holder count and lifetime sums are the sums over positions plus the splitter, and each position is the mint and burn replay |
| `FundAgreement.HolderCountNeedsAMint` | `packages/indexer/src/index.ts:117-176` | the holder count survives a deposit exactly when it mints or the LP already held shares |
| `FundAgreement.IndexersAgree` | `packages/subgraph/src/fund.ts:63-137` | both indexers keep the same supply and deposits, and lifetime withdrawals differ by what the splitter took out |
| `FundAgreement.SupplyNeverSaturates` | `packages/subgraph/src/fund.ts:52-54` | the flooring subtraction is plain subtraction for burns and for the fee at settlement |
| `FundAgreement.PendingFeeIsCovered` | `packages/subgraph/src/fund.ts:130-137` | the pending fee never exceeds the supply |
| `FundAgreement.SettlementsAgree` | `packages/subgraph/src/fund.ts:139-149` | right after a settlement the NAV of one indexer and the value of all shares at the post-fee price of the other differ by at most supply/WAD + 1 |
| `FundAgreement.FloorGap` | `packages/indexer/src/index.ts:352-392` | the rounding gap between one floored product and a product of a floored quotient |
| `FundAgreement.SupplyCovers` | `packages/subgraph/src/fund.ts:110` | the supply covers the balance of every account |
| `Indexer.Database.DepositExecuted` | `packages/indexer/src/index.ts:117-176` | the handler over cached rows that updates mutate computes the value-level handler: whether the LP is new is decided before the update |
| `Indexer.Database.WithdrawRequested` | `packages/indexer/src/index.ts:210-232` | creates the row once and leaves an existing one |
| `Indexer.Database.InKindSlice` | `packages/indexer/src/index.ts:236-263` | adds the slice to the order, if it is known |
| `Indexer.Database.WithdrawExecuted` | `packages/indexer/src/index.ts:265-329` | closes or rebuilds the order and burns, with the delivered value read before the row changes |
| `Indexer.Database.OrderCancelled` | `packages/indexer/src/index.ts:331-342` | cancels a known withdrawal |
| `Indexer.Database.ConvertedToInKind` | `packages/indexer/src/index.ts:344-348` | marks a known withdrawal as in kind |
| `Indexer.Database.PerfFeeCrystallized` | `packages/indexer/src/index.ts:394-418` | records the fee shares and adds them to the supply |
| `Indexer.Database.Settled` | `packages/indexer/src/index.ts:352-392` | prices the period after the fee dilution |
| `Indexer.Database.ClaimMaterialized` | `packages/indexer/src/index.ts:420-440` | adds the claim to the position |
| `Indexer.Table.Update` | `packages/indexer/src/index.ts:15` | an update mutates the cached row in place: whoever found it sees the new value |
| `Indexer.IndexLog` | `packages/indexer/src/index.ts:58-95` | processing a log from registration gives the fold of the value-level handlers |
| `Subgraph.FoldLog` | `packages/subgraph/src/fund.ts:56-163` | processing a log gives the fold of the value-level handlers |
| `Subgraph.Store.HandleEntryFeeCharged` | `packages/subgraph/src/fund.ts:56-61` | parks the entry fee of the order |
| `Subgraph.Store.HandleDepositExecuted` | `packages/subgraph/src/fund.ts:63-84` | adds shares, deposit and net value, and clears the parked fee |
| `Subgraph.Store.HandleInKindSlice` | `packages/subgraph/src/fund.ts:86-105` | parks the delivered value and takes it off the NAV |
| `Subgraph.Store.HandleWithdrawExecuted` | `packages/subgraph/src/fund.ts:107-128` | burns, pays and adds the parked value, which it clears |
| `Subgraph.Store.HandlePerfFeeCrystallized` | `packages/subgraph/src/fund.ts:130-137` | adds the fee shares to supply and pending fee |
| `Subgraph.Store.HandleSettled` | `packages/subgraph/src/fund.ts:139-149` | sets the NAV to the price of the supply before the fee and clears the pending fee |
| `FirstLoss.ComputeGrossClaims` | `packages/keeper/src/grossClaims.ts:55-59` | the loop returns the sum of vested losses |
| `FirstLoss.PreviewSettlement` | `packages/keeper/src/grossClaims.ts:71-93` | funding is the netted loss capped by the stake, the factor its capped quotient |
| `FirstLoss.VestedLossShape` | `packages/keeper/src/grossClaims.ts:42-49` | the vested loss grows with the mark time, falls with the price, never exceeds the loss and is all of it once the period has passed |
| `FirstLoss.FloorsAddUpBelow` | `packages/keeper/src/grossClaims.ts:43` | floored holdings add up to at most the floored total |
| `FirstLoss.GrossCoversNet` | `packages/keeper/src/grossClaims.ts:55-59` | fully vested, gross claims cover the net investment minus the marked value |
| `FirstLoss.NettedNeverExceedsGross` | `packages/keeper/src/grossClaims.ts:79-92` | fully vested, the netted loss is at most the gross claims, so the factor never needs its cap |
| `FirstLoss.PreviewIsConservative` | `packages/keeper/src/settlement.ts:79-87` | previewing with the total supply never over-estimates funding or factor |
| `FirstLoss.MarkingCreatesNoValue` | `packages/keeper/src/grossClaims.ts:63-65` | all marked holdings together are worth at most the assets plus the virtual offset |
| `FirstLoss.PayoutBounds` | `packages/keeper/src/grossClaims.ts:85-92` | payouts bracket the shared gross claims within one unit per LP |
| `FirstLoss.SharingIsSolventAndTight` | `packages/keeper/src/grossClaims.ts:85-92` | payouts fit the funding and, with an uncapped factor, miss it by at most n plus the gross claims over WAD, rounded up |
| `IdentityTheorems.SponsorsNeverShareAHuman` | `apps/agent-gateway/src/store.ts:471-748` | in every state the methods of the store reach, none of which revokes an identity binding, two different sponsors of a scope never share a subject or a nullifier |
| `IdentityTheorems.AcceptanceSharesExactlyWhenRevokedElsewhere` | `apps/agent-gateway/src/store.ts:623-651` | where bindings can be revoked, an accepted verification shares its human with another sponsor of the scope exactly when that human has a revoked binding under another sponsor there |
| `IdentityTheorems.RevocationLetsAHumanBeShared` | `apps/agent-gateway/src/store.ts:625-636` | the run in which it happens |
| `IdentityTheorems.OneHumanOneSponsor` | `apps/agent-gateway/src/store.ts:588-748` | in every reachable state, revocations included, two sponsors of a scope with unrevoked bindings never share a subject or a nullifier, and every agent binding is backed by the one sponsor binding with its id, sponsor, scope, subject and nullifier |
| `IdentityKeys.TextIdentifiesTheKey` | `apps/agent-gateway/src/store.ts:201-221` | with names free of colons the joined text of a sponsor binding identifies the sponsor and every field of the scope |
| `IdentityKeys.TwoKeysOneText` | `apps/agent-gateway/src/store.ts:201-221` | two different scopes with the same joined text, because a colon moves from one name to the next |
| `IdentityTheorems.AcceptedAtMostOnce` | `apps/agent-gateway/src/store.ts:591-621` | each identity request is accepted at most once |
| `IdentityTheorems.RejectionChangesNothing` | `apps/agent-gateway/src/store.ts:588-748` | the tables change exactly when a verification is accepted, and then sponsor, request and agent together |
| `IdentityTheorems.BindingIsReusable` | `apps/agent-gateway/src/store.ts:509-531` | an agent just verified is found bound by the next reuse in its scope, exactly while the binding lasts, with the same binding and no further change |
| `IdentityTheorems.ReuseIsIdempotent` | `apps/agent-gateway/src/store.ts:509-585` | the same after a reuse: repeating it changes nothing |
| `IdentityTheorems.ManagedAgentsAreCapped` | `apps/agent-gateway/src/store.ts:671-694` | at every moment of every run one human runs at most the allowed number of valid, non-retired managed agents in a scope |
| `IdentityTheorems.ReportedCountIsStored` | `apps/agent-gateway/src/store.ts:741-747` | the count an accepted verification reports is the count the store then holds |
| `IdentityTheorems.UnretiringPassesTheCapExactlyWhenFull` | `apps/agent-gateway/src/store.ts:671-694` | bringing a retired agent back passes the cap exactly when the human is at the cap |
| `IdentityTheorems.ProofKeepsCap` | `apps/agent-gateway/src/store.ts:671-740` | the verify path keeps the cap, re-verification of a bound agent included |
| `IdentityTheorems.RebindKeepsCap` | `apps/agent-gateway/src/store.ts:533-578` | the reuse path keeps the cap |
| `IdentityStore.IdentityStore.UpsertAgentProfile` | `apps/agent-gateway/src/store.ts:268-281` | refuses a change of owner and otherwise stores the profile |
| `IdentityStore.IdentityStore.SyncAgentProfile` | `apps/agent-gateway/src/store.ts:283-290` | refuses an unknown agent or another sponsor and otherwise stores the profile |
| `IdentityStore.IdentityStore.CreateWorldIdentityRequest` | `apps/agent-gateway/src/store.ts:435-438` | refuses a used id and otherwise stores the request |
| `IdentityStore.IdentityStore.BindExistingWorldIdentitySponsor` | `apps/agent-gateway/src/store.ts:471-586` | answers and changes what the value-level reuse says, in every branch |
| `IdentityStore.IdentityStore.RecordWorldIdentityVerification` | `apps/agent-gateway/src/store.ts:588-748` | answers and changes what the value-level verification says, in every branch |
| `ComplianceStore.BindingsAreABijection` | `packages/compliance-signer/src/store.ts:76-142` | in every reachable state the two tables are mutually inverse, an address is admitted exactly when it is some active address, and no person is behind two admitted addresses |
| `ComplianceStore.AdmitKeepsInverseExactlyWhen` | `packages/compliance-signer/src/store.ts:90-116` | admitting keeps the bijection exactly when it does not take an address from the empty person id |
| `ComplianceStore.EmptyIdSharesAnAddress` | `packages/compliance-signer/src/store.ts:93-96` | the counterexample: two persons active on one address |
| `ComplianceStore.AdmitAddsOne` | `packages/compliance-signer/src/store.ts:90-116` | a successful admission makes exactly the new address admitted |
| `ComplianceStore.RevokeRemovesOne` | `packages/compliance-signer/src/store.ts:124-141` | a revocation removes exactly the given address |
| `ComplianceStore.AuditIsAppendOnly` | `packages/compliance-signer/src/store.ts:118-121` | the audit trail only grows at its end |
| `ComplianceStore.PastPairsAreAudited` | `packages/compliance-signer/src/store.ts:103-112` | a pair that was active and no longer is has an audit entry written in between |
| `ComplianceStore.ComplianceStore.AdmitPerson` | `packages/compliance-signer/src/store.ts:90-116` | refuses without a change, or binds the pair in a new record |
| `ComplianceStore.ComplianceStore.RevokeByAddress` | `packages/compliance-signer/src/store.ts:124-141` | marks the shared record in place and audits it |
| `ComplianceStore.ComplianceStore.CheckAdmitted` | `packages/compliance-signer/src/store.ts:82-87` | tells whether the address is its person's active one |
| `ComplianceStore.ComplianceStore.RecordOf` | `packages/compliance-signer/src/store.ts:72-74` | returns the stored record itself |
| `ComplianceStore.ComplianceStore.LookUpPerson` | `packages/compliance-signer/src/store.ts:68-70` | the person behind an address |
| `ComplianceStore.ComplianceStore.LookUpActiveAddress` | `packages/compliance-signer/src/store.ts:76-80` | the address of a person that is not revoked |
| `ComplianceTheorems.NoRenewalOutlivesARevocation` | `packages/compliance-signer/src/service.ts:141-175` | a released renewal whose nonce is still current is for an account that is not revoked, at every moment of every interleaving |
| `ComplianceTheorems.ClearingNeedsAFreshAdmission` | `packages/compliance-signer/src/signer.ts:57-80` | whatever clears a revocation is an admission whose nonce was read after every revocation of the account mined before |
| `ComplianceTheorems.ReadsAreGenuine` | `packages/compliance-signer/src/signer.ts:69-73` | every signed nonce is what the gate showed in the state it was read in |
| `ComplianceTheorems.MarkingClosesRenewals` | `packages/compliance-signer/src/service.ts:177-201` | from the local mark on, mined or not, no renewal of the address is decided in its favour until it is admitted again |
| `ComplianceTheorems.SignaturesAreAccountedFor` | `packages/compliance-signer/src/service.ts:108-132` | every signature ever released names a pair that is bound now or is in the audit trail |
| `ComplianceTheorems.EligibilityIsBounded` | `packages/compliance-signer/src/signer.ts:66-74` | no expiry, signed or on chain, reaches more than 90 days past the current block, and signed ones fit 48 bits |
| `ComplianceProtocol.NextKeepsInv` | `packages/compliance-signer/src/service.ts:92-201` | every step of every call keeps the invariant |
| `ComplianceService.ComplianceService.Renew` | `packages/compliance-signer/src/service.ts:141-175` | a run under any interference; a renewal is handed out only after a last reading that shows no revocation |
| `ComplianceService.ComplianceService.Admit` | `packages/compliance-signer/src/service.ts:92-132` | a run under any interference; a signature comes with an allowed request, and with a step of this call that bound the pair before the step that signed |
| `ComplianceService.ComplianceService.Revoke` | `packages/compliance-signer/src/service.ts:183-201` | a run under any interference; a step of this call marked the account and left it not admitted, before the transaction was mined, and also if it was not |
| `ComplianceService.ComplianceService.Decide` | `packages/compliance-signer/src/policy.ts:79-94` | allows a renewal exactly for an address the store admits at that moment, not revoked locally or on chain, not blocked, within the window |
| `ComplianceService.ComplianceService.CheckPolicy` | `packages/compliance-signer/src/policy.ts:38-69` | allows an admission exactly under the policy |
| `ComplianceService.ComplianceService.SignFresh` | `packages/compliance-signer/src/signer.ts:57-80` | what is signed is the nonce that the gate showed and the block time plus the time to live, both read at steps of this call before it signs |
| `RelayTheorems.ControllerNoncesAreUnique` | `apps/agent-gateway/src/store.ts:855-892` | no two intents share a nonce of a controller, and an intent has one job at most |
| `RelayTheorems.SignedOncePerNonce` | `apps/agent-gateway/src/worker.ts:153-163` | for a chain, controller and nonce at most one signed transaction is ever persisted, after a reading that showed this nonce next |
| `RelayTheorems.BroadcastsArePersisted` | `apps/agent-gateway/src/worker.ts:159-178` | whatever was broadcast is byte for byte what was persisted for the job |
| `RelayTheorems.AttemptsAreBounded` | `apps/agent-gateway/src/store.ts:1106-1118` | no job is claimed more than 20 times |
| `RelayTheorems.ConfirmedMeansConfirmed` | `apps/agent-gateway/src/worker.ts:208-250` | a confirmed job had a successful receipt in the canonical block with the configured confirmations, answered to a look-up of the transaction signed for it with the chain read afterwards, and bears the hash of that receipt |
| `RelayTheorems.ConfirmedIsTheSignedTransaction` | `apps/agent-gateway/src/worker.ts:208-250` | if the RPC answers with the receipt asked for, that hash is the hash of the signed bytes |
| `RelayTheorems.EverythingWasHeard` | `apps/agent-gateway/src/worker.ts:165-191` | every receipt and every chain reading an attempt works with is an answer in the run to its own question |
| `RelayTheorems.OneAttemptAtATime` | `apps/agent-gateway/src/store.ts:1106-1118` | two attempts at a job never run side by side |
| `RelayQueue.EndedJobsStayEnded` | `apps/agent-gateway/src/store.ts:1144-1167` | a job that has ended is never touched again |
| `RelayQueue.IdleJobsAreNeverTakenUp` | `apps/agent-gateway/src/store.ts:1106-1118` | a job that no attempt works on and that is not queued, such as a submitted one without a receipt, stays as it is in every continuation |
| `RelayQueue.TakenUpExactlyWhenQueued` | `apps/agent-gateway/src/store.ts:1106-1118` | a job that no attempt works on can still be taken up exactly when it is queued |
| `RelayRuns.NoReceiptLeavesItSubmitted` | `apps/agent-gateway/src/worker.ts:169-190` | the run in which it happens: the first attempt sends, finds no receipt, and the job stays submitted whatever follows |
| `RelayTheorems.NextKeepsInv` | `apps/agent-gateway/src/worker.ts:146-250` | every step of every attempt keeps the invariant |
| `ExecutionStore.SavingKeepsKeysUnique` | `apps/agent-gateway/src/store.ts:855-862` | an intent is saved exactly when its key is new |
| `ExecutionStore.ClaimTakesTheEarliest` | `apps/agent-gateway/src/store.ts:1106-1118` | a claim takes due jobs only, at most the limit, the longest waiting first, and changes nothing else |
| `RelayRuns.ReorganisationStrandsTheIntent` | `apps/agent-gateway/src/store.ts:1157-1167` | the run in which it happens: nineteen temporary failures, then an attempt that broadcasts and finds its block reorganised away, leave a dead job and a submitted intent |
| `ExecutionStore.TerminalWithoutFailedIntentExactlyWhen` | `apps/agent-gateway/src/store.ts:1157-1167` | a job ends without failing its intent exactly when a retry is asked for at the last attempt |
| `ExecutionStore.ExecutionStore.SaveNewIntent` | `apps/agent-gateway/src/store.ts:855-862` | refuses a used key and otherwise stores the intent |
| `ExecutionStore.ExecutionStore.Enqueue` | `apps/agent-gateway/src/store.ts:875-892` | returns the job of the intent, or creates it and queues the intent |
| `ExecutionStore.ExecutionStore.ClaimExecutionJobs` | `apps/agent-gateway/src/store.ts:1106-1118` | marks the claimed jobs in place |
| `ExecutionStore.ExecutionStore.PersistSignedTransaction` | `apps/agent-gateway/src/store.ts:1124-1130` | stores hash, bytes and nonce on the job; an unknown job is an error |
| `ExecutionStore.ExecutionStore.MarkJobSubmitted` | `apps/agent-gateway/src/store.ts:1132-1142` | moves job and intent to submitted |
| `ExecutionStore.ExecutionStore.MarkJobConfirmed` | `apps/agent-gateway/src/store.ts:1144-1155` | moves job and intent to confirmed |
| `ExecutionStore.ExecutionStore.MarkJobFailed` | `apps/agent-gateway/src/store.ts:1157-1167` | requeues, fails or dead-letters the job by its attempts, and fails the intent only without a retry |
| `RelayerWorker.RelayerWorker.Process` | `apps/agent-gateway/src/worker.ts:146-206` | an attempt is a run under any interference, and its outcome tells the state of the job: confirmed with its evidence, ended with a failed intent, queued or submitted, or, after a reorganisation at the last attempt only, dead while reported pending |
| `RelayerWorker.RelayerWorker.RecordFailure` | `apps/agent-gateway/src/worker.ts:197-205` | requeued if a retry was granted, ended with a failed intent otherwise |
| `RelayerWorker.RelayerWorker.SignAndPersist` | `apps/agent-gateway/src/worker.ts:155-163` | simulate, sign, persist, in this order |
| `RelayerWorker.RelayerWorker.SendBytes` | `apps/agent-gateway/src/worker.ts:168-181` | sends exactly the persisted bytes |
| `RelayerWorker.RelayerWorker.HandleReceipt` | `apps/agent-gateway/src/worker.ts:208-250` | the outcome is decided by receipt, canonical block and confirmations, an error escapes, and the job is left accordingly |
| `RelayerWorker.RelayerWorker.Catch` | `apps/agent-gateway/src/worker.ts:192-197` | a retry exactly for a retryable error with attempts left |
| `Mutations.ExecutesAtMostOnce` | `apps/agent-gateway/src/app.ts:204-237` | for one scope and key `execute` runs at most once, so a request with another hash never executes |
| `Mutations.SharedEntryExecutesOnce` | `apps/agent-gateway/src/store.ts:823-833` | of all requests that share an entry, whatever their scopes, keys and hashes, one executes |
| `Mutations.EveryReplyIsTheRecord` | `apps/agent-gateway/src/app.ts:222-231` | all replays of a key repeat one record word for word, and it is what the executing request recorded |
| `Mutations.RecordSurvivesExactlyWhenBodyRenders` | `apps/agent-gateway/src/app.ts:223-236` | a recorded result survives its response exactly when the body renders |
| `Idempotency.SharedEntryExactlyWhen` | `apps/agent-gateway/src/store.ts:823-824` | two pairs share an entry exactly when one key is a colon-separated tail of the other and the scopes make up the difference |
| `Idempotency.ProcessRequestsShareAnEntry` | `apps/agent-gateway/src/app.ts:577-583` | two different requests of one sponsor to the processing route that share an entry |
| `Mutations.SecondRunsExactlyWhenEntriesDiffer` | `apps/agent-gateway/src/app.ts:215-237` | a request with the same hash as one that was served executes exactly when its entry is another; else it gets the status and body recorded for the first |
| `Mutations.SecondWaitsForTheFirst` | `apps/agent-gateway/src/app.ts:215-221` | while the first is running, a request that shares its entry and hash is told that it is still processing |
| `Mutations.ProcessRequestsAnswerForEachOther` | `apps/agent-gateway/src/app.ts:577-583` | two requests to the processing route for different ids: the one that comes second waits for the other, is given its result and never runs, in either order and for every result |
| `Idempotency.PlainKeysNeverMix` | `apps/agent-gateway/src/store.ts:823-824` | keys without colons never mix |
| `Idempotency.IdempotencyStore.ReserveIdempotency` | `apps/agent-gateway/src/store.ts:823-833` | acquires, or tells conflict, progress or replay |
| `Idempotency.IdempotencyStore.RecordOutcome` | `apps/agent-gateway/src/store.ts:835-845` | writes the outcome over the reservation in place, and fails without one |
| `MutationRunner.MutationRunner.RunMutation` | `apps/agent-gateway/src/app.ts:204-237` | under any interference: a bad key is refused; else the handler ran and the reply is its result, or the error if it, the store or the response failed, and none only if that could not be stored; or the reply is what the entry of the key says |
| `MutationRunner.MutationRunner.TryMutation` | `apps/agent-gateway/src/app.ts:223-232` | execute, record, respond, in this order; an error comes back to be recorded |
| `MutationRunner.MutationRunner.ReserveOrReply` | `apps/agent-gateway/src/app.ts:215-222` | answers at once, with what the entry says, unless the reservation is this request's |
| `CanonicalJson.TextIsCanonical` | `apps/agent-gateway/src/crypto.ts:4-21` | under a strict total key order two values have the same text and hash exactly when they are equal up to member order, undefined members, big integers and dates as strings |
| `CanonicalJson.SafeKeepsTheHash` | `apps/agent-gateway/src/app.ts:128-130` | writing and reading back changes neither text nor hash |
| `CanonicalJson.ResumesExactlyEquivalentRequests` | `apps/agent-gateway/src/app.ts:470-475` | the vault route resumes a deployment exactly when the new request is equivalent to the original one in everything but the runtime kind |
| `CanonicalJson.TiedKeysKeepTheirOrder` | `apps/agent-gateway/src/crypto.ts:12` | two keys that tie are written in the order they came |
| `CanonicalJson.TwoSpellingsTwoHashes` | `apps/agent-gateway/src/crypto.ts:12` | two requests with the two spellings of one letter as keys: under every comparison that treats these as equal they mean the same and have different hashes |
| `CanonicalJson.SpellingOrderIsNotCanonical` | `apps/agent-gateway/src/crypto.ts:12` | a comparison that takes composed letters apart is such an order |
| `CanonicalJson.CanonicalExactlyWhenNoTies` | `apps/agent-gateway/src/crypto.ts:12` | the text is canonical exactly when no two different keys tie in the comparison |
| `CanonicalJson.CodeUnitOrderIsCanonical` | `apps/agent-gateway/src/crypto.ts:12` | comparing keys by code units is a strict total order, under which the text is canonical |
| `CanonicalJson.ReadingWritesBack` | `apps/agent-gateway/src/crypto.ts:19-21` | a text with members in order is what its own reading is written as |
| `CanonicalJson.TextsAreInOrder` | `apps/agent-gateway/src/crypto.ts:10-13` | in a text the members of every object are in order, at every depth |
| `StableJson.SortAscends` | `apps/agent-gateway/src/crypto.ts:12` | sorting distinct keys by a strict total order is ascending |
| `QuotePipeline.PlansAreBound` | `apps/agent-gateway/src/uniswap.ts:82-218` | a created plan promises at least the quote less the slippage and at most the quote, and binds payload, hash and proxy call |
| `QuotePipeline.MinimumIsBounded` | `apps/agent-gateway/src/uniswap.ts:139-148` | the provider's minimum may tighten the floor and never weaken it |
| `QuotePipeline.DraftsAreExactlyBound` | `apps/agent-gateway/src/intent.ts:205-229` | a draft from a created plan passes the exact binding check |
| `QuotePipeline.LocalCheckPassesExactlyWhen` | `packages/agent-sdk/src/client.ts:98-168` | with matching configuration the agent's check passes exactly when the plan is alive, promises something, respects the agent's slippage limit, and the intent lifetime reaches the adapter deadline |
| `QuotePipeline.ShortLifetimeFailsTheLocalCheck` | `packages/agent-sdk/src/client.ts:142` | an instance: everything agrees and the agent refuses the gateway's draft |
| `QuotePipeline.DraftsAreAcceptedExactlyWhile` | `apps/agent-gateway/src/intent.ts:127-168` | on an unchanged chain the gateway accepts its own signed draft exactly while the plan lives, the deadline is not passed and the start is at most 15 seconds ahead |
| `QuotePipeline.AcceptedIntentsAreBounded` | `apps/agent-gateway/src/intent.ts:151-160` | an accepted intent pays at least the quote less the slippage and runs out no later than the plan |
| `IntentService.IntentService.Quote` | `apps/agent-gateway/src/app.ts:337-340` | stores a plan exactly when plan and draft are made |
| `IntentService.IntentService.Accept` | `apps/agent-gateway/src/intent.ts:127-203` | saves and queues the one intent of its controller nonce within the bounds of the plan, or changes nothing |
| `IntentService.IntentService.SaveAndEnqueue` | `apps/agent-gateway/src/intent.ts:192-202` | refuses exactly a controller nonce that is already taken |

## Left out

- VaultJobs.VaultStore.MarkVaultJobReady: follows the guarded update of the Postgres store; the in-memory one does not look at the state of the job.
- VaultJobs.VaultStore.ClaimVaultJobs: eligibility of agents comes in as a set, because profiles belong to the chain and the registry; locks do not expire.
- VaultWorker.VaultDeploymentWorker.Process: a job is read when it is claimed; the in-memory store hands out the live record, which nobody else changes while it is locked.
- VaultTheorems.RangesNeverOverlap: one deployer and one chain; jobs of several deployers are not mixed.
- LinkBytecode.PatchOverlays: assumes what a compiler emits, windows in bounds and disjoint, and an address of 40 characters; the loop itself is modelled without that assumption.
- ComplianceTheorems.ClearingNeedsAFreshAdmission: only signatures that the service released can be submitted, and block timestamps are positive and fit 48 bits.
- ComplianceService.ComplianceService.Renew: the readings that the source starts together come one after another here; the state machine allows every order.
- RelayTheorems.SignedOncePerNonce: speaks of persisted transactions; an attempt that stops between signing and persisting leaves a signature that is never sent.
- RelayTheorems.ConfirmedMeansConfirmed: nothing is said in the other direction, because revalidation may refuse an intent whose transaction was mined meanwhile.
- RelayerWorker.RelayerWorker.HandleReceipt: errors escape as they do in the source, and a job whose attempt ends there stays submitted.
- RelayerWorker.RelayerWorker.Process: the counts that a batch returns are not modelled.
- Indexer.Database.DepositExecuted: the row of the deposit order and the activity row are not modelled; with them go `DepositRequested` and the entry fee of the relational indexer.
- Indexer.Database.InKindSlice: the detail row of the slice is not modelled, only the total on the order.
- Indexer.Database.OrderCancelled: the status of a deposit order is not modelled.
- Indexer.Database.ClaimMaterialized: the claim row, which is written once per period and LP, is not modelled.
- ComplianceService.ComplianceService.CheckPolicy: jurisdictions are upper-cased letter by letter; characters outside `a` to `z`, which no two-letter code contains, stay as they are.
- IdentityTheorems.OneHumanOneSponsor: the key of a sponsor binding is the tuple of its fields; their text joined by colons means the same as long as the configured names contain none (`TextIdentifiesTheKey`).
- IdentityTheorems.RejectionChangesNothing: holds for the World Identity path; the older World ID path writes before it checks the cap and is not modelled.
- QuotePipeline.PlansAreBound: the hash of the quote and the random identifiers of the plan are not modelled.
- Addresses and hashes in one case: every comparison that lowers its operands is an equality.
- Back-off delays of retries: the time of the next attempt is any time.
- Job copies of sponsor, request and transaction hashes; event feed, attempt log, sessions, challenges, decisions, heartbeats.
- `createAgentVault` with its per-agent lock and managed signers: single-branch ownership checks.
- Trade, asset and activity rows of the relational indexer; holdings, valuation and agent-controller handlers of the subgraph.
- `decideSettle` and the sending of settlements: branches on a snapshot.
- SQL of the Postgres store, its claim and reservation functions and lock expiry; files of the compliance store.
- Signatures, hashing and ABI bytes; JSON printing and parsing of characters; trimming of header values.
- Solidity contracts, HTTP routes, configuration, command-line tools, the website and the Python client.
