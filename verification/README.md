# Cooperative compute network: a verified model

A Dafny model of the stateful core of the network's node software: governance voting
(`lib/governance.js`), the credit ledger (`lib/credits.js`), the workload executor that bills to it
(`lib/executor.js`), peer discovery and resource broadcasting (`index.js`) and stored files
(`lib/storage.js`).

## How it is modelled

Every `async` function is cut at its `await`s into atomic segments, and the segments of any number of
calls interleave freely. Each protocol is a transition system (`VotingProtocol`, `CreditProtocol`,
`DiscoveryProtocol`, `FileProtocol`) with a function `Next` for one segment and `Reach` for a whole run.
The objects that the program shares between a map and suspended calls are references there too: positions in
a heap. Beside each protocol stands a class that does the same segments in place, on objects and maps. The methods
of `Governance`, `Credits` and `Storage` are proved to do exactly `Next` on the state their `View()` shows, those
of `Executor` to do exactly the steps of workloads and ledger together (`Executor.Act`), and those of `Discovery`, which
is one node, to do to its map what `Next` does to the entry of that node, which is all that `Next` changes in any
node. Properties of runs are then lemmas about `Reach`.

- `Tally` counts votes and chooses outcomes with the loops of the source; `JsObject` is the property order
  of JavaScript objects (ECMA-262, section 10.1.11; `JsObject.IndicesFirst`) that these loops depend on,
  `JsMap` the live iteration of a `Map` (section 24.1) that the sweeps depend on.
- `BallotBox` is the atomic specification that `VotingProtocol` refines. `Ballots` says what it answers by the history of
  commands alone, `Outcomes` what a closed record contains by its ballots alone. `Durability` says what survives a crash,
  `EarlyVotes` what happens to votes on a proposal whose creation has not returned.
- `CreditProtocol` keeps a history beside the ledger (opening amounts, updates, payments by transaction id). No step
  reads it; the audit, the billing and, in `Settlement`, the discipline of payments are stated with it.
  `CreditLife` strings the lives of the process together: each loads what the one before had saved, at
  whatever moment it stopped, and the history goes on.
- `Charges` says what is paid by the usage reported, without the price function.
- `Executor` joins workloads and ledger for runs without overlapping operations; `Metering` says what a workload is
  charged by the counters of its container.
- `Freshness` says which peers a broadcast posts to, by the times of the contacts.
- `Memory` is the parser of memory sizes.

Assumptions: puts to the store succeed and are applied in the order of issue; JSON and the store give back the records
that were written; generated ids are fresh, and a proposal id is used only after `createProposal` has returned it;
loading has finished before the first operation; one segment reads the clock once; numbers are exact
reals; every node advertises an endpoint that reaches it, and no node id or endpoint is empty.

## What the code does that its description does not say

Each is in the model as the code has it, with the condition under which the described behaviour holds.

- The two-thirds loop returns from its callback, so a `'protocol'` proposal always ends in `'no consensus'`
  (`Tally.ProtocolOutcomeIsRight`, `Tally.UnanimousProtocolFails`).
- A vote of weight 0 counts as weight 1; every other weight counts as given (`Tally.WeightCountsAsGiven`).
- `finalizeProposal` does not ask whether voting has ended. It closes a proposal that could still be voted on exactly if
  its end has not passed and it has an option (`BallotBox.ClosedBeforeItsEnd`).
- A transfer from a node to itself adds the amount. A transfer keeps the total, and a balance is what the log says, exactly if
  no credits have gone from the node to itself (`CreditProtocol.TransferConserves`, `CreditLife.AuditIsExact`;
  `CreditProtocol.SelfTransferMakesCredits` is a transfer that does not).
- A transaction is paid a second time exactly if another completion of it is still suspended, or was suspended when an
  earlier life of the process stopped: the payment is saved before the transaction is removed
  (`CreditLife.PaidTwiceIff`, `CreditLife.PaidAgainAfterCrash`).
- Usage reported between a payment and its record is not billed (`CreditProtocol.FinalIsExact`).
- A settlement that cannot be paid leaves its transaction open but marked as completed
  (`Settlement.UnaffordableChangesNothing`); it succeeds once the shortfall has been added (`Settlement.RetrySucceeds`).
- A vote on a proposal whose creation has not returned yet is accepted on a copy. While that copy stays out of the cache,
  the ballot is in the drained store exactly until another vote on the proposal or its closing is accepted, unless the
  voter votes again (`EarlyVotes.EarlyBallotIff`). If the vote's continuation caches the copy before that, the ballot is kept
  for good (`EarlyVotes.HealedForGood`); if after, the store stays without it until the proposal is written once more, though
  the cache has it (`EarlyVotes.NotHealedOnceWritten`). `EarlyVotes.EarlyVoteIsLost` is a run to the end with the ballot gone.
- `getFile` refuses the owner of a private file without a read list, which `listFiles` lists; on all other files the two
  agree (`FileProtocol.ListAgreesWithGet`).
- A file deleted while a replication of it is suspended comes back without its data
  (`FileProtocol.DeletedDuringReplicationComesBack`); without one it stays out (`FileProtocol.DeletedStaysOut`).
- A node can be its own bootstrap node; serving a registration makes a node known to itself exactly if it is that, or already was
  (`DiscoveryProtocol.OwnBootstrapKnowsItself`).
- A negative replication factor is not an upper bound; every other one is (`FileProtocol.SliceBound`).

## Single steps

The functions that the methods are proved against are fixed, besides by the results below, by short lemmas that say what one
step does without naming them:

- `Ballots.CloseAnswer`: a close succeeds exactly once, whatever the time (`lib/governance.js:224-227`).
- `Governance.SweepClosesTheEnded`, `Governance.SweepTakesNoVote`, `Governance.SweepUncachesTheEnded`: a sweep closes a cached proposal exactly
  if it is active and its end has passed, so whoever can vote before it, then or later, can vote after it (`lib/governance.js:353-361`).
- `Charges.AdditionIsExact`, `Charges.UnknownIsRefused`: an addition raises one balance by its amount; an operation on a transaction
  that is not open is refused and changes nothing (`lib/credits.js:135-137`, `lib/credits.js:304-324`).
- `Metering.ReportRaisesEstimate`, `Metering.VisitKeepsConsumer`, `Metering.LaunchedIsRunning`: a missing field of a report counts as zero; an exit is
  recorded as completed exactly if its code is zero (`lib/credits.js:142-149`, `lib/executor.js:329-335`).
- `Discovery.TurnedIs`: what one turn of a broadcast does to the map (`index.js:580-614`).
- `FileProtocol.StoredIsThere`, `FileProtocol.StoredStays`, `FileProtocol.GetFileAnswer`: a stored file is there, and keeps its owner, visibility and replication
  factor, 2 if none is given (`lib/storage.js:89-106`).
- `FileProtocol.DeletionIsForWriters`, `FileProtocol.DeletionRemoves`: a deletion is accepted exactly from the owner or a user in an existing write
  list, any other user is refused and nothing changes; it removes the data and then the entry (`lib/storage.js:177-206`).
- `Memory.UnitInAnyCase`, `Memory.SpacesByCode`: what counts as a unit and as white space (`lib/executor.js:380`).

## Model

| member | source | states |
|---|---|---|
| JsObject.PutSound | lib/governance.js:125-129 | assigning a property keeps the standard listing order, and changes or adds that property only |
| JsObject.BuildOrder | lib/governance.js:266-268 | the results table lists exactly the options, each once: array indices ascending, then names by first occurrence |
| JsMap.EntriesOf | lib/storage.js:162-169 | walking the slots meets every key of the map once and nothing else |
| Tally.InitialRows | lib/governance.js:266-268 | the first loop makes a row of zeros for every distinct option |
| Tally.AddVotes | lib/governance.js:271-280 | the second loop fails exactly if a vote names no option, and else adds every vote to its row and to the totals |
| Tally.AddPercentages | lib/governance.js:283-291 | the third loop completes every row with its shares of the totals |
| Tally.CountVotes | lib/governance.js:260-298 | the count fails exactly when a vote names no option; otherwise its rows and totals are the declarative sums |
| Tally.TallyIgnoresOrder | lib/governance.js:271-280 | the result is the same for every order in which the votes are enumerated |
| Tally.TallyAddsUp | lib/governance.js:282-297 | over the distinct options votes and weights add up to the totals, and the percentages to 100 when the total is positive |
| Tally.CountOfVotes | lib/governance.js:271-280 | the votes of an option are the number of ballots that name it |
| Tally.WeightsOfVotes | lib/governance.js:273-279 | the weights are the sums of the given ones, where zero counts as one |
| Tally.DetermineOutcome | lib/governance.js:303-344 | the loops with a running maximum choose the key of the first row of greatest positive weight, and nothing exactly if no weight is positive, for every kind of proposal but protocol; a protocol proposal always gets no consensus |
| Tally.LeaderIsFirstMaximum | lib/governance.js:304-317 | the winner is the first row of greatest positive weight; there is none exactly if no weight is positive |
| Tally.FirstMaximumWins | lib/governance.js:332-343 | conversely, a row that is the first of greatest positive weight is the one chosen |
| Outcomes.FinalizedOutcome | lib/governance.js:230-239 | in every run a finalized record has the plurality of its own published rows as its outcome, or no consensus if it is a protocol proposal |
| Outcomes.PublishedRows | lib/governance.js:260-298 | the one row of each option in a closed record: its ballots, their weights with zero as one, and both shares as percentages of the totals |
| Outcomes.NoOutcomeIffNoVotes | lib/governance.js:332-343 | with positive weights a closed proposal has no outcome exactly when nobody voted |
| Outcomes.MajorityDecides | lib/governance.js:304-317 | an option with more than half of the weight is the recorded outcome, wherever it is listed |
| Outcomes.VoteForOutcomeKeepsIt | lib/governance.js:304-317 | one more accepted vote for what would be the outcome leaves it the outcome |
| Tally.SupermajorityIsUnique | lib/governance.js:319-330 | at most one option reaches 66.67 percent; it is the intended first match and the simple-majority winner |
| Tally.SupermajorityIgnoresOrder | lib/governance.js:319-330 | the intended two-thirds answer does not depend on the order of the options |
| Tally.ProtocolOutcomeIsRight | lib/governance.js:319-330 | the outcome of a protocol proposal is the intended one if and only if no option other than one of that name has 66.67 percent of the weight |
| Tally.UnanimousProtocolFails | lib/governance.js:319-330 | a unanimous protocol proposal that ends in no consensus |
| BallotBox.ClosedBeforeItsEnd | lib/governance.js:225-241 | a close that is accepted takes away a vote that could still be cast if and only if the end has not passed and there is an option; after it no vote is accepted |
| BallotBox.RunKeepsGood | lib/governance.js:214-249 | in every run the results and the outcome of a closed proposal are the count of its votes, and an open one has none |
| BallotBox.RunGrows | lib/governance.js:114-129 | over every run terms stay, ballots are neither altered nor lost, and a closed proposal is frozen |
| BallotBox.AcceptedBallotCounts | lib/governance.js:97-150 | an accepted ballot is in every later state, so in the final count, and its voter cannot vote again |
| Ballots.BoxIsItsHistory | lib/governance.js:61-249 | after every list of commands a proposal has the terms of its creation, is closed at the time of the first accepted close, and has each voter's first valid ballot |
| Ballots.VoteAnswer | lib/governance.js:109-122 | by the history alone: a vote is accepted if and only if the proposal was created and not closed, its end has not passed, the voter has no ballot and the option is listed; the first condition that fails gives the error |
| Ballots.OpenForItsPeriod | lib/governance.js:75-76 | whatever happens but a close, a voter without a ballot can vote for exactly the listed options until exactly the voting period after the creation, seven days if none is given |
| Ballots.CreatedAsGiven | lib/governance.js:65-79 | at every later moment a proposal has the title, description, kind, options and author it was created with |
| Ballots.VotesAreIndependent | lib/governance.js:119-134 | an accepted vote changes the answer to no vote of another voter or on another proposal |
| Ballots.VoteOrderMakesNoDifference | lib/governance.js:125-129 | two accepted votes in either order leave the same ballots, results and outcome |
| VotingProtocol.StepRefines | lib/governance.js:61-255 | each segment keeps the invariant and is one command of the atomic ballot box, or none; its reply is the box's |
| VotingProtocol.RunRefines | lib/governance.js:61-255 | under every interleaving, cache, store and pending puts refine the atomic ballot box: draining the puts gives the box after the same commands |
| VotingProtocol.RepliesAreTheBoxs | lib/governance.js:97-150 | every caller gets the reply that the atomic box gives at that point |
| Ballots.CastVoteAnswer | lib/governance.js:109-122 | a vote on a cached proposal is answered, in every reachable state, by exactly these checks in this order |
| VotingProtocol.CacheIsDrainedStore | lib/governance.js:102-142 | draining the pending puts in order gives, for every cached proposal, exactly the cached object |
| VotingProtocol.ActiveInStoreIsCached | lib/governance.js:35-57 | a proposal that is active in the store is cached, or its creation has not returned |
| VotingProtocol.StoreReadsAreRefused | lib/governance.js:105-117 | a vote or finalization that reads the store finds a closed proposal or none, and is refused |
| VotingProtocol.ClosedIsFrozen | lib/governance.js:110-142 | a closed proposal has the results and outcome of its votes, and is the same record in every later state, in the drained store and in the cache |
| VotingProtocol.ClosedStaysOut | lib/governance.js:136-142 | a proposal that has left the cache never comes back, however late a vote continues |
| VotingProtocol.RestartIsSound | lib/governance.js:35-57 | after a crash at any moment the store alone is a sound start, and the next run refines the box again |
| Durability.AcknowledgedVoteIsStored | lib/governance.js:125-145 | once the put that castVote waits for is applied, the store has the ballot as it was cast at every later moment |
| Durability.AcknowledgedClosureIsStored | lib/governance.js:233-250 | once the put that finalizeProposal waits for is applied, the store keeps exactly the closed record |
| Durability.StoredSurvivesCrash | lib/governance.js:35-57 | what is in the store at a crash is in every state of the next life of the process, only with ballots added or closed |
| EarlyVotes.HalfCreatedIsReached | lib/governance.js:61-82 | the state in which early votes begin is reached: the proposal is in the store and its creation has not returned |
| EarlyVotes.EarlyBallotIff | lib/governance.js:82-142 | over every continuation in which the copy with the early ballot stays out of the cache, the ballot is in the drained store if and only if no other vote or closing of the proposal has been accepted, or the voter has voted again |
| EarlyVotes.HealedForGood | lib/governance.js:136-142 | if the copy is cached before any other write, the ballot is in every later state, and all is in accord with the atomic box again |
| EarlyVotes.NotHealedOnceWritten | lib/governance.js:136-142 | if it is cached after one, the cached object has the ballot, and in every continuation without a further write the drained store does not, unless the voter has voted again |
| EarlyVotes.EarlyVoteIsLost | lib/governance.js:82-250 | a run to the end, with every call answered and nothing pending, in which an accepted ballot is in neither the votes nor the results of the closed proposal |
| Governance.GovernanceSystem.LoadActiveProposals | lib/governance.js:35-57 | the loading loop caches exactly the active proposals of the store, one object each |
| Governance.GovernanceSystem.CreateCall | lib/governance.js:61-82 | createProposal up to its put does the protocol step |
| Governance.GovernanceSystem.CreateResume | lib/governance.js:84-88 | after the put the very object is cached |
| Governance.GovernanceSystem.VoteCall | lib/governance.js:97-134 | castVote up to its first await: the cached object is checked and changed in place and its put issued, or the read is issued |
| Governance.GovernanceSystem.VoteReadResume | lib/governance.js:105-134 | castVote after reading the store |
| Governance.GovernanceSystem.VoteResume | lib/governance.js:136-142 | castVote after its put |
| Governance.GovernanceSystem.FinalizeCall | lib/governance.js:214-241 | finalizeProposal up to its first await, with the count loops run on the shared object |
| Governance.GovernanceSystem.FinalizeReadResume | lib/governance.js:221-241 | finalizeProposal after reading the store |
| Governance.GovernanceSystem.FinalizeResume | lib/governance.js:240-247 | finalizeProposal after its put: the proposal leaves the cache |
| Governance.GovernanceSystem.FinalizeProposal | lib/governance.js:214-255 | run without interleaving it closes an active cached proposal and removes it, and never fails on one |
| Governance.GovernanceSystem.CheckProposalsForFinalization | lib/governance.js:350-362 | the sweep closes every cached proposal that is due, skips none although it deletes from the map it walks, and leaves the rest |
| CreditProtocol.PriceOfSum | lib/credits.js:164-173 | the price of summed usage is the sum of the prices |
| CreditProtocol.BillingIgnoresBatching | lib/credits.js:133-154 | reporting in batches is billed like reporting piece by piece |
| CreditProtocol.BillingIgnoresOrder | lib/credits.js:133-154 | the order of the reports makes no difference |
| CreditProtocol.AuditStep | lib/credits.js:222-249 | each segment keeps: every balance is its opening amount plus the replay of the log plus what the node paid itself |
| CreditProtocol.OpeningStep | lib/credits.js:94-313 | a step never changes an opening amount; the only new ones are 1000 for a party first seen by a transaction and 0 for a node first seen by an addition |
| CreditProtocol.TransferConserves | lib/credits.js:225-249 | a transfer leaves the total unchanged if and only if the parties differ or the amount is zero |
| CreditProtocol.ConservedStep | lib/credits.js:89-128 | each segment keeps: all credits are opening credits, additions, or came out of self-transfers |
| CreditLife.PlainLedger | lib/credits.js:222-249 | through every run and restart in which nobody is its own provider, each balance is the grant of 1000 or 0 plus the replay of the log, and transfers conserve the total |
| CreditLife.RunKeepsNonNegative | lib/credits.js:222-249 | with usage and additions that are not negative no balance ever is |
| CreditProtocol.EstimateIsExact | lib/credits.js:140-149 | the estimate is the sum of the prices of all updates |
| CreditProtocol.FinalIsExact | lib/credits.js:186-192 | the final price is that of the updates before the last settlement attempt; later ones are in the estimate only |
| Charges.CompletionCharges | lib/credits.js:164-249 | a thousand times the amount of a completion is 10 C + M + 50 S + 100 B for the totals of CPU, memory, storage and bandwidth reported; it succeeds exactly if the consumer has that, moves exactly that and no other balance, and marks the object either way |
| Charges.EstimateInThousandths | lib/credits.js:140-149 | so is a thousand times the estimate |
| Charges.BilledForReports | lib/credits.js:89-206 | from the start of a transaction through any run: its estimate and its charge are those of exactly the reports that name it, from its consumer to its provider |
| Settlement.InvStep | lib/credits.js:178-212 | each segment keeps: payments made = records + completions suspended + completions interrupted by a crash; a transaction is open exactly until it is recorded |
| CreditLife.SettledOnceThroughRestarts | lib/credits.js:25-212 | if the process has only stopped between settlements, a recorded transaction whose completions did not overlap was, in all lives together, paid by exactly one transfer of its final price, before its record, and is not open |
| CreditLife.PaidTwiceIff | lib/credits.js:178-252 | a transaction is paid for the second time if and only if another completion of it is suspended, or was suspended when an earlier life of the process stopped |
| CreditLife.PaidAgainAfterCrash | lib/credits.js:178-252 | after a stop between the saved payment and the removal, a completion in the next life pays once more, though nothing overlaps it |
| CreditLife.InterruptedIs | lib/credits.js:25-77 | the completions cut off by a stop are exactly those that were suspended at the end of a life |
| CreditLife.SettledForGood | lib/credits.js:195-206 | a transaction that is recorded once is never open again |
| CreditLife.SettledSurvivesRestart | lib/credits.js:25-77 | nor after a restart |
| CreditLife.RunKeepsBooks | lib/credits.js:89-206 | every interleaving of every sequence of operations keeps audit, conservation, billing and settlement discipline, and its opening amounts are those its events grant |
| CreditLife.LoadedReachable | lib/credits.js:10-23 | a ledger that has found no file, or the file of a reachable ledger saved at any moment, is a reachable ledger |
| CreditLife.BooksForEver | lib/credits.js:10-57 | through any number of restarts at any moment, balances are grants plus replay plus self-payments, the total is that of grants, additions and self-payments, billing is exact and the discipline holds |
| CreditLife.AllGrantsAre | lib/credits.js:16-313 | every grant, in all lives, is of 1000 or of 0 |
| CreditLife.AuditIsExact | lib/credits.js:222-249 | a balance is the grant plus the replay of the log if and only if the node has paid itself nothing |
| Credits.CreditSystem.constructor | lib/credits.js:10-20 | a new ledger has its own opening balance and nothing else |
| Credits.CreditSystem.LoadCreditData | lib/credits.js:25-57 | loading puts the file over the opening balance and makes one object for each transaction |
| Credits.CreditSystem.SaveCreditData | lib/credits.js:59-77 | saving writes the state by value |
| Credits.CreditSystem.Restart | lib/credits.js:10-77 | saving, constructing a ledger for the same node and loading gives a ledger with the same balances, log and open transactions |
| Credits.CreditSystem.StartResourceTracking | lib/credits.js:89-128 | both balances are made if missing and the transaction is opened, and saved |
| Credits.CreditSystem.UpdateResourceUsage | lib/credits.js:133-159 | the usage is added in place and priced; an unknown transaction is refused |
| Credits.CreditSystem.CompleteCall | lib/credits.js:178-196 | a completion up to the await after the transfer |
| Credits.CreditSystem.TransferCredits | lib/credits.js:222-249 | both balances are read before either is written; too low a balance changes nothing |
| Credits.CreditSystem.CompleteResume | lib/credits.js:198-206 | after the transfer the transaction is recorded and leaves the open set |
| Credits.CreditSystem.CompleteTransaction | lib/credits.js:178-217 | a completion from its call to its end |
| Credits.CreditSystem.AddCredits | lib/credits.js:304-324 | a missing balance is made, the amount added and logged |
| Executor.PlaySound | lib/executor.js:77-101 | over every run without overlapping operations each tracked workload has its own open transaction, with exactly its samples |
| Executor.ChargedExactly | lib/executor.js:213-229 | a charge moves exactly the price of all samples, once, if it can be paid; the workload is then untracked, and otherwise nothing changes |
| Executor.VisitedExactly | lib/executor.js:298-341 | a tick gives a workload its sample and, if it has exited and can pay, charges it the price of all of them |
| Executor.TickedPays | lib/executor.js:298-341 | the log after a tick is that before it followed by exactly one payment and record for each workload that has exited and can be paid at its turn, in order, and the balances are those after exactly these payments |
| Executor.TickedExactly | lib/executor.js:298-341 | a whole tick gives every tracked workload one sample and leaves the others alone |
| Executor.UntrackedIffPaid | lib/executor.js:327-341 | a tick untracks a workload if and only if it has exited and, at its turn, its consumer has the price of all its samples |
| Executor.FinishedExactly | lib/executor.js:103-130 | a workload that was waited for is charged the price of all samples taken while it ran, once, if and only if its consumer has it |
| Metering.ReportIsUsage | lib/executor.js:301-327 | CPU seconds times the system delta are 15 times the CPU delta times the processors; megabyte-seconds times 2^20 are 15 times the memory in use; gigabytes times 2^30 are all bytes received and sent; nothing is stored |
| Metering.ChargedForItsSamples | lib/executor.js:295-341 | a workload launched and sampled by any number of ticks, whatever other workloads do, is at its exit charged the cost of its samples in counters, exactly if its consumer has that at its turn |
| Executor.WorkloadExecutor.ExecuteWorkload | lib/executor.js:77-130 | a workload is started, tracked and, in the waiting variant, given the samples of the ticks meanwhile and charged at its end |
| Executor.WorkloadExecutor.StopWorkload | lib/executor.js:210-229 | stopping a tracked workload charges and untracks it |
| Executor.WorkloadExecutor.Visit | lib/executor.js:298-341 | the body of the tick for one workload, with its settlement |
| Executor.WorkloadExecutor.Tick | lib/executor.js:295-362 | the loop that deletes from the map it walks visits every workload tracked at its start once |
| Memory.ScanIsTheMatch | lib/executor.js:380 | scanning from left to right finds a match of the expression exactly when there is one, and there is at most one |
| Memory.SizeOrDefault | lib/executor.js:371-387 | every string is parsed: to the value of its only match, or to 268435456, which is 256 MB |
| Memory.UnitsArePowers | lib/executor.js:372-378 | there are five units, and the k-th is worth 1024^k |
| Memory.SizeParses | lib/executor.js:371-387 | a number, any white space and a unit in any letter case are parsed to the exact value, rounded up |
| Memory.DecimalIsRoundedUp | lib/executor.js:383-386 | with k fraction digits, and a unit in any letter case, the result is the least whole number not below digits times the power of 1024 over 10^k |
| Memory.WholeSizeRoundTrip | lib/executor.js:371-387 | a natural number printed with the k-th unit, in any letter case and spacing, is read back as that many times 1024^k |
| DiscoveryProtocol.MergedIs | index.js:543-552 | the merge loop adds exactly the fetched peers that are neither the node itself nor known, and changes no entry |
| DiscoveryProtocol.StepInv | index.js:488-614 | each step of rounds and broadcasts keeps the invariant, whatever interleaves |
| DiscoveryProtocol.KnowledgeIsReal | index.js:524-552 | every known entry is of a real node, under its own id, with an endpoint that reaches it; no node knows itself unless it bootstrapped from itself |
| DiscoveryProtocol.KnownOnlyGrows | index.js:524-614 | known sets only grow |
| Freshness.LastSeenIsLastContact | index.js:218-240 | in every run a node knows exactly the peers it has been in contact with, and the time of an entry is that of the last contact |
| Freshness.PostedWithinFiveMinutes | index.js:580-592 | a turn of a broadcast posts, to the known endpoint, exactly if the last contact with the peer is not more than five minutes ago; else the peer is skipped |
| DiscoveryProtocol.OneKnowsTheOther | index.js:502-553 | register before fetch: of two nodes that completed a round against one bootstrap node, one knows the other |
| DiscoveryProtocol.LaterRoundKnowsAll | index.js:502-553 | a round begun and completed after others have registered leaves its node knowing all of them |
| DiscoveryProtocol.BroadcastIsHeard | index.js:573-614 | a broadcast with no stale peer and no failed post makes everything its node knew before mutual |
| DiscoveryProtocol.BroadcastCompletesTheMesh | index.js:573-614 | two nodes that completed a round against one bootstrap node and then such a broadcast know each other |
| DiscoveryProtocol.FullMesh | index.js:488-614 | when all nodes have done so, every node knows every other |
| Discovery.ListingIsComplete | index.js:244-253 | the answer of the peers endpoint lists every known peer, once |
| Discovery.ICNNode.PostPeers | index.js:218-240 | a registration is refused exactly if id or endpoint is missing, and else stored under its id |
| Discovery.ICNNode.GetPeers | index.js:244-253 | the loop returns the values of the map in order |
| Discovery.ICNNode.MergePeers | index.js:541-552 | the merge loop, in place |
| Discovery.ICNNode.AdoptBootstrap | index.js:524-529 | the bootstrap node is stored under its id, with the URL it was reached at |
| Discovery.ICNNode.BroadcastTarget | index.js:582-585 | a peer is posted to exactly if it was seen in the last five minutes |
| Discovery.ICNNode.ServeRegister | index.js:218-240 | the bootstrap node serves a registration as the protocol does |
| Discovery.ICNNode.Adopt | index.js:524-529 | a round adopts its bootstrap node as the protocol does |
| Discovery.ICNNode.ServePeers | index.js:244-253 | the answer of the peers endpoint is one that the protocol admits, and changes nothing |
| Discovery.ICNNode.Merge | index.js:541-552 | a round merges what it fetched as the protocol does |
| Discovery.ICNNode.Visit | index.js:580-592 | a turn of the broadcast posts to the endpoint of a fresh peer and skips a stale one, as the protocol does |
| Discovery.ICNNode.ServePost | index.js:218-240 | a peer serves a broadcast as the protocol does |
| Discovery.ICNNode.Ack | index.js:594-606 | the answer to a post renews the entry as the protocol does |
| Discovery.ICNNode.Broadcast | index.js:573-618 | the loop over the live map visits every peer known at its end, newcomers included, once each and in order; each turn posts to exactly the endpoint a fresh peer has at that moment and leaves the map as renewed |
| Discovery.AdmittedIs | index.js:218-240 | after registrations the entry of a node is that of its last one, or as it was |
| FileProtocol.ListingFails | lib/storage.js:162-169 | a listing fails exactly if a private file of someone else has no read list |
| FileProtocol.ListingIsReadable | lib/storage.js:159-172 | otherwise it lists, once each, exactly the files that pass getFile's check, and the user's own without a read list |
| FileProtocol.PushedIs | lib/storage.js:228-232 | sharing gives exactly the permissions before the first unknown one, to exactly the target, and adds no one twice |
| FileProtocol.EffectiveIs | lib/storage.js:228-232 | the permissions given are the longest prefix whose permissions have lists |
| FileProtocol.SharingIsForOwners | lib/storage.js:219-232 | only the owner shares, with success exactly if every permission has a list; anyone else is refused and nothing changes |
| FileProtocol.PermissionsAreGranted | lib/storage.js:214-240 | over every run a user is in a list of a file if and only if it was at the start or its owner has shared that permission |
| FileProtocol.ListsOfStored | lib/storage.js:98-102 | in the lists of a stored file are exactly those named when it was stored, the owner if no lists were given, and those its owner has shared with since |
| FileProtocol.ReadersOfStored | lib/storage.js:83-136 | whatever happens after a file is stored, exactly these can read it: everyone if public, else, if there is a read list, its owner, those named in it at the start and those the owner shared with |
| FileProtocol.ReadersById | lib/storage.js:123-149 | over every run in which the id is stored once, getFile succeeds exactly for these users, while the entry and its data are there |
| FileProtocol.DeletersById | lib/storage.js:177-190 | over every run in which the id is stored once, a deletion is accepted exactly from its owner, those named in its write list and those the owner shared that with, while the entry is there |
| FileProtocol.ListsStayDistinct | lib/storage.js:228-232 | a list without duplicates never gets any, and only grows at its end |
| FileProtocol.OnlyWritersDelete | lib/storage.js:177-198 | a file leaves the database, and its data the disk, only after a request by its owner or a user in its write list |
| FileProtocol.DeletedStaysOut | lib/storage.js:198-206 | a deleted file of which no replication is suspended stays deleted until it is stored again |
| FileProtocol.DeletedDuringReplicationComesBack | lib/storage.js:316-319 | a run in which a deleted file returns to the database without its data |
| FileProtocol.SelectionOk | lib/storage.js:344-353 | whatever the shuffle, the selected peers are distinct and known, exactly as many as a factor that is not negative says, or all if there are fewer |
| FileProtocol.TargetsById | lib/storage.js:272-287 | a replication of a file stored once is accepted exactly while its entry and data are there, and selects as many of the known peers as the factor it was stored with says |
| FileProtocol.RunKeepsReplicas | lib/storage.js:272-328 | in every run the recorded replicas are with distinct peers and within the factor |
| FileProtocol.ReplicasAreTheAnswers | lib/storage.js:293-318 | the recorded replicas are exactly those of the selected peers that accepted |
| Storage.Metadata.Push | lib/storage.js:228-232 | the loop over the permissions, in place |
| Storage.StorageManager.StoreFile | lib/storage.js:83-108 | a new metadata object with its defaults is put into the database |
| Storage.StorageManager.ShareFile | lib/storage.js:214-240 | only the owner can share; the lists are changed in place |
| Storage.StorageManager.GetFile | lib/storage.js:123-149 | the checks of getFile in their order |
| Storage.StorageManager.ListFiles | lib/storage.js:159-172 | the loop over the entries collects the listing, or fails |
| Storage.StorageManager.DeleteCall | lib/storage.js:177-202 | deleteFile up to the removal of the data |
| Storage.StorageManager.DeleteResume | lib/storage.js:203-206 | deleteFile after the removal: the entry goes, or the error of data already gone comes out |
| Storage.StorageManager.ReplicateCall | lib/storage.js:272-293 | replicateFile up to its first await: the peers are selected |
| Storage.StorageManager.SendToAll | lib/storage.js:293-318 | the loop over the targets records exactly the answers of success |
| Storage.StorageManager.ReplicateResume | lib/storage.js:316-328 | replicateFile after the last answer: the object it holds is changed and put back |

## Left out

- HTTP, Socket.IO, Express, libp2p, Docker, LevelDB, files and logging: a request is a step, the store a map with pending puts, a container a source of samples and exit codes.
- Failures of the store, of saving and of containers, in particular the 404 that untracks a workload without settling it (`lib/executor.js:356-358`), samples without a system time difference, and `executor.stop()`.
- `lib/p2p.js`, the dashboard and the scripts: configuration and user interface.
- `lib/metrics.js` and the workload routes of `index.js`: sampling of the operating system and a simulated map, with easy properties only.
- Floating-point rounding, hashing and the generation of ids.
- Option and voter names that JavaScript objects inherit (`constructor`, `__proto__`), and option values that are not strings.
- `getTransactionHistory` and `listProposals`: sorting and slicing of a copy.
- Ids and descriptions of log entries, and the order of the keys in the saved file: nothing depends on them.
- The save of the storage metadata: it writes a copy of the database that the model does not read back.
- One access control object given for several files: each file has lists of its own in the model.
- Replication factors that are not whole numbers.
- The resources and node types that peers exchange, and a request that is served after its sender has given up on it.
- Executor.TickedExactly: operations of the executor do not overlap there, because overlapping completions of one transaction both pay (`CreditLife.PaidTwiceIff`).
- Governance.GovernanceSystem.CheckProposalsForFinalization: the sweep runs without interleaving; under interleaving its finalizations are steps of the voting protocol like any others.
