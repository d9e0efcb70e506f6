# A verified model of the rollups node

A rollups node reads the inputs of an application from a blockchain, runs them
through a machine, publishes what the machine emits, and claims the result of
each epoch back on the chain. Its services share three append-only streams (inputs,
outputs, claims), and each of them may crash and start again at any moment. This
project models those services in Dafny and proves what the node as a whole
keeps, over every run and every crash schedule.

The parts, and what is proved about each:

* **Controller** of the host runner (`Controller`, `ControllerRuns`, `ControllerSteps`,
  `ControllerTheorems`, `ControllerService`): eight FIFO queues and one-shot
  reply channels. Every channel has exactly one fate, advances are linearized,
  inspect requests go before advance requests, every reply is explained by the
  requests and replies before it, and an accepted result holds exactly the
  outputs acknowledged for it, each at the index it was given.
* **Dispatcher** (`Dispatcher`, `DispatcherContext`, `InputsStream`, `Streams`): the
  inputs stream it writes depends only on the chain, not on how blocks
  were batched or skipped, its events carry the inputs of the chain field by field,
  and the epochs of the stream are the epochs of the chain.
* **Advance runner** (`Conversions`, `ServerManager`, `Runner`, `RunnerProofs`, `CleanPass`, `RunnerService`):
  with a crash allowed at every append, the claims stream is a prefix of the claims
  of one clean pass, its claims tile the inputs, and outputs and proofs
  precede the claim that covers them. The clean pass is told input by input and
  epoch by epoch: what the machine is given, what it makes of it, what it seals.
* **Authority claimer** (`Checker`, `Claimer`, `ClaimerService`): the cache equals the
  log, a verdict means coverage, and each claim reaches the chain in order and
  exactly once: never twice across restarts, and once the claimer has caught up.
* **Pipeline** (`Pipeline`): runner and claimer joined. What is on the chain is
  a prefix of one clean pass over the inputs, and all of it once both have caught
  up, which they do in as many turns without a fault as there are events; each
  claim there covers exactly the inputs of one epoch of the chain, and its hash is
  the one that the machine seals for them.
* **Indexer** (`Repository`, `Indexer`, `IndexerRuns`, `IndexerPipeline`,
  `IndexerService`): what any sequence of writes leaves in the tables, that order
  and repetition do not matter, that the indexer never fails, and that the tables end up as
  those of one clean pass although runner and indexer repeat their work: each input
  as it was sent, with its result, reports, vouchers and notices under its number.
* **Pagination** (`Cursors`, `Pagination`, `PaginationTheorems`, `LargeTables`): cursors round-trip
  through decimal and base64, a page is the one of section 4.4 of the Relay
  GraphQL Cursor Connections Specification, and walks by cursor visit every row once.
* **Input box** (`InputBox`): folding block by block agrees with reading the chain at once.
* **Small components**: the preimages of voucher and notice hashes against the
  Solidity contract ABI encoding (`AbiEncoding`), the line writer (`LineWriter`), and the
  supervisor (`Supervisor`).

Each stateful part has a value model (a state datatype and step functions over which
the theorems are stated) and, where the source updates objects in place,
a class whose methods are proved against those step functions.

These properties turned out to be false without a condition. Each has a witness
and the exact condition:

* The checker's verdict is right if and only if the history has not reached the
  last 128-bit index (`VerdictMeansCoverage`, `LastIndexWrapsAround`): the next
  index is computed with wrap-around.
* A claim is not submitted twice as long as the cache has, at each check, all
  the events of the application or the claim itself, and that is exactly when
  the verdict is right (`StaleCacheVerdict`). A claim that is not confirmed when
  the claimer starts again is submitted twice (`UnconfirmedSubmissionIsRepeated`).
* A page stays within the table if and only if the end of a forward page fits
  32 bits (`PageIsInTable`, `CursorPageCanLeaveTable`).
* A query returns the edges of the Relay specification if and only if the rows
  can be counted in 32 bits or the page does not depend on the count
  (`RefinesRelayIff`, `UncountedTableLooksEmpty`), and a walk returns every row
  if and only if they can be counted (`ForwardWalkIsCompleteIff`,
  `BackwardWalkIsCompleteIff`).
* `hasNextPage` and `hasPreviousPage` agree with the Relay specification if and
  only if the page was not asked to be empty while there are rows
  (`HasNextPageIsTrue`, `HasPreviousPageIsTrue`, `EmptyPageHidesRows`).
* A processed status is kept if and only if one of its deliveries comes after
  the input's (`ResultsAreKept`, `EarlyResultIsLost`); without a row the update
  is silently lost.

Voucher preimages are injective for destinations of equal length
(`EqualLengthsAreInjective`), which covers addresses, and not for destinations
of any length (`ShortDestinationsCollide`).

Where code and comments disagree the model follows the code: the metadata of an
input documents its index as the index within the epoch
(`offchain/rollups-events/src/rollups_inputs.rs`), but the dispatcher fills in the
number of inputs sent before, over all epochs. And the parameters of the epoch
hash are named in the order machine, vouchers, notices
(`offchain/advance-runner/src/server_manager/claim.rs`), but its caller passes
vouchers, notices, machine.

## Model

| member | source | states |
|---|---|---|
| `ControllerRuns.HandleSettles` | offchain/host-runner/src/controller.rs:279-555 | handling any request in any state answers or holds its channel and the channel the state held, and loses none |
| `ControllerRuns.CloseUnanswered` | offchain/host-runner/src/controller.rs:171-175 | shutdown answers its own channel and accounts for every other unanswered one |
| `ControllerRuns.ProcessAccounted` | offchain/host-runner/src/controller.rs:141-150 | a call to process keeps the ledger of all eight kinds in submission order |
| `ControllerRuns.SubmitAccounted` | offchain/host-runner/src/controller.rs:192-204 | so does a submission, before and after shutdown |
| `ControllerRuns.HandleExplains` | offchain/host-runner/src/controller.rs:279-555 | every reply sent while handling a request is justified by the requests and replies before it, and the next state agrees with them |
| `ControllerRuns.RunInvariant` | offchain/host-runner/src/controller.rs:141-560 | the ledger and the explanation of every reply hold after every run |
| `ControllerTheorems.EveryChannelHasOneFate` | offchain/host-runner/src/controller.rs:141-217 | in every run an issued reply channel is exactly one of queued, held, answered, dropped; dropped ones exist only after shutdown |
| `ControllerTheorems.NoChannelIsAnsweredTwice` | offchain/host-runner/src/controller.rs:192-226 | no two replies of a run use the same channel |
| `ControllerTheorems.DeliveriesMatchAnswers` | offchain/host-runner/src/controller.rs:333-555 | one request is delivered for each advance or inspect answered, plus one while a request is open |
| `ControllerTheorems.AdvancesAreLinearized` | offchain/host-runner/src/controller.rs:333-560 | before shutdown, answered, current and queued advances are together the submission order, and the application was given exactly the answered ones and the current one, in that order |
| `ControllerTheorems.VoucherIndexIsTrue` | offchain/host-runner/src/controller.rs:512-520 | the index returned for a voucher is its place among the vouchers of the current request |
| `ControllerTheorems.NoticeIndexIsTrue` | offchain/host-runner/src/controller.rs:521-529 | likewise for a notice |
| `ControllerTheorems.ResultsAreExact` | offchain/host-runner/src/controller.rs:411-555 | in every run the result of every advance and inspect request is about the open request and holds exactly the reports, and if accepted the vouchers and notices, acknowledged since its delivery; its status is what the application said |
| `ControllerTheorems.FreshRequestIsEmpty` | offchain/host-runner/src/controller.rs:471-555 | a request that ends right after its delivery has an empty result: nothing of an earlier one leaks into it |
| `ControllerTheorems.AcceptedIndexes` | offchain/host-runner/src/controller.rs:512-529 | the index returned for a voucher or a notice is its position in the accepted result |
| `ControllerTheorems.ProcessingIsBounded` | offchain/host-runner/src/controller.rs:141-150 | without new requests the service takes a bounded number of effective steps, whatever the timeouts |
| `ControllerTheorems.BlockedMeansDrained` | offchain/host-runner/src/controller.rs:279-555 | when no branch is ready, only advance and inspect requests can be waiting, and only outside the fetch state |
| `ControllerSteps.SelectIsBiased` | offchain/host-runner/src/controller.rs:281-306 | a biased select takes the first branch that is ready; which branches a state has is stated by `PollingOrder` |
| `ControllerSteps.PollingOrder` | offchain/host-runner/src/controller.rs:279-541 | which waiting request is taken, in each state: inspect and then advance requests first while fetching, finish requests first otherwise, shutdown last |
| `ControllerSteps.InspectIsDelivered` | offchain/host-runner/src/controller.rs:344-351 | while fetching, the held finish request is answered with the first inspect request, whatever else waits |
| `ControllerSteps.AdvanceIsDelivered` | offchain/host-runner/src/controller.rs:352-359 | and with the first advance request when no inspect request waits |
| `ControllerSteps.FinishIsReplaced` | offchain/host-runner/src/controller.rs:360-367 | a newer finish request answers the held one with a timeout and takes its place |
| `ControllerSteps.FinishComesFirst` | offchain/host-runner/src/controller.rs:281-541 | in the other states a finish request is taken before anything else and answers the request in progress with what was collected |
| `ControllerSteps.ExceptionEndsRequest` | offchain/host-runner/src/controller.rs:435-444 | an exception answers the request in progress and its own caller, and the service is idle again |
| `ControllerSteps.RefusalsNameState` | offchain/host-runner/src/controller.rs:288-386 | a request that the state does not expect is answered with its own name and the name of the state, and nothing else changes |
| `ControllerSteps.ShutdownComesLast` | offchain/host-runner/src/controller.rs:298-305 | shutdown is handled if and only if nothing else that the state polls waits; it then closes every other channel |
| `ControllerSteps.TimeoutStep` | offchain/host-runner/src/controller.rs:338-343 | an elapsed timeout answers the held finish request before anything is polled, and matters in no other state |
| `ControllerSteps.InspectsGoFirst` | offchain/host-runner/src/controller.rs:333-359 | in every run, no advance request is delivered while an inspect request waits |
| `ControllerService.Service.Submit` | offchain/host-runner/src/controller.rs:192-204 | the object's submission refines the model's |
| `ControllerService.Service.HandleInvalid` | offchain/host-runner/src/controller.rs:152-169 | an illegal request is refused with its name and the state's name |
| `ControllerService.Service.ShutDown` | offchain/host-runner/src/controller.rs:171-175 | shutdown refines the model's |
| `ControllerService.Service.HandleInIdle` | offchain/host-runner/src/controller.rs:279-306 | the branches of the idle state refine the model's |
| `ControllerService.Service.HandleInFetchRequest` | offchain/host-runner/src/controller.rs:333-384 | the branches of the fetch state refine the model's |
| `ControllerService.Service.HandleInInspect` | offchain/host-runner/src/controller.rs:411-455 | the branches of the inspect state refine the model's |
| `ControllerService.Service.HandleInAdvance` | offchain/host-runner/src/controller.rs:486-555 | the branches of the advance state refine the model's |
| `ControllerService.Service.Process` | offchain/host-runner/src/controller.rs:141-150 | one call to process is one step of the model |
| `ControllerService.Service.RunAll` | offchain/host-runner/src/controller.rs:141-150 | the service loop is a run of the model |
| `Streams.ReadsInOrder` | offchain/rollups-events/src/broker/mod.rs:188-244 | a reader that follows the identifiers is given each event once, in order |
| `InputsStream.ProducedWellFormed` | offchain/test-fixtures/src/broker.rs:118-151 | the producer rule keeps the stream parent-linked, with true epochs and input counts |
| `InputsStream.EveryStreamIsWellFormed` | offchain/test-fixtures/src/broker.rs:118-151 | every stream built by the rule is well formed and holds the data in order |
| `InputsStream.ConsumedInOrder` | offchain/advance-runner/src/broker.rs:71-87 | on a well-formed stream the parent check never fails, and the runner's index does not underflow and counts 0, 1, 2 and so on |
| `Dispatcher.QuotientIsFloor` | offchain/dispatcher/src/drivers/context.rs:93-96 | repeated subtraction gives the quotient rounded down |
| `Dispatcher.EpochIsDivision` | offchain/dispatcher/src/drivers/context.rs:93-96 | the epoch of a block is the distance from the genesis block divided by the epoch length, rounded down |
| `Dispatcher.SentInStep` | offchain/dispatcher/src/drivers/context.rs:64-90 | an input is sent only from the genesis block on, only if the stream has as many inputs as were sent, and only into an epoch that was not ended |
| `Dispatcher.FinishTracks` | offchain/dispatcher/src/drivers/context.rs:98-148 | moving to a later epoch ends the epoch of the last input once, only if it has inputs, and trips no sanity check |
| `Dispatcher.EnqueueTracks` | offchain/dispatcher/src/drivers/context.rs:62-89 | enqueueing an input keeps the stream equal to what the chain calls for |
| `Dispatcher.ReactTracks` | offchain/dispatcher/src/drivers/machine.rs:23-68 | so does reacting to a block, with the inputs already sent skipped |
| `Dispatcher.DeliveryDoesNotMatter` | offchain/dispatcher/src/drivers/machine.rs:23-68 | for every chain and every non-decreasing block schedule the dispatcher never panics and the stream depends only on the chain up to the last block |
| `Dispatcher.SameEpoch` | offchain/dispatcher/src/drivers/context.rs:93-124 | two inputs are in the same epoch of the stream if and only if they are in the same epoch of the chain |
| `Dispatcher.SameWholeEpochs` | offchain/dispatcher/src/drivers/context.rs:93-96 | the same, with the distance from the genesis block divided by the epoch length |
| `Dispatcher.LastEpochEnds` | offchain/dispatcher/src/drivers/context.rs:98-148 | the epoch of the last input is ended if and only if the chain has reached a block of a later epoch |
| `Dispatcher.StreamEpochs` | offchain/dispatcher/src/machine/rollups_broker.rs:250-283 | input number i is in the stream with index i and with the number of epoch changes before it as its epoch |
| `Dispatcher.StreamTellsInputs` | offchain/dispatcher/src/machine/rollups_broker.rs:250-274 | the event of input number i has its payload, transaction hash, sender, block and timestamp, epoch 0 and index i |
| `Dispatcher.StreamNumbers` | offchain/dispatcher/src/machine/rollups_broker.rs:250-274 | every input in the stream carries the number of inputs before it |
| `DispatcherContext.Context.FinishEpochIfNeeded` | offchain/dispatcher/src/drivers/context.rs:50-60 | the object refines the model |
| `DispatcherContext.Context.EnqueueInput` | offchain/dispatcher/src/drivers/context.rs:62-89 | the object refines the model |
| `DispatcherContext.Context.ProcessInputs` | offchain/dispatcher/src/drivers/machine.rs:48-68 | the loop enqueues exactly the inputs not sent before |
| `DispatcherContext.Context.React` | offchain/dispatcher/src/drivers/machine.rs:23-43 | the object refines the model |
| `Conversions.ProofIsKept` | offchain/advance-runner/src/server_manager/conversions.rs:86-135 | a proof is converted if and only if every field is there and every hash has 32 bytes, and then it tells the whole answer |
| `Conversions.ProofsAreKept` | offchain/advance-runner/src/server_manager/facade.rs:316-320 | all proofs are converted if and only if all are complete, each at its place |
| `Conversions.EpochPreimageIsInjective` | offchain/advance-runner/src/server_manager/facade.rs:303-313 | answers with different vouchers, notices or machine hash give different epoch preimages |
| `Conversions.EpochHashNeeds` | offchain/advance-runner/src/server_manager/facade.rs:303-313 | the epoch hash can be computed if and only if its three hashes are there; otherwise the first that is not is named |
| `Conversions.ProofErrorNamesField` | offchain/advance-runner/src/server_manager/conversions.rs:87-134 | a proof that is not complete is refused for its first wrong field |
| `ServerManager.OutputsTellResult` | offchain/advance-runner/src/server_manager/facade.rs:219-272 | the outputs of an input tell its status, its reports, and its vouchers and notices if and only if it was accepted, all in order |
| `ServerManager.OutputsAreNumbered` | offchain/advance-runner/src/server_manager/facade.rs:219-268 | where each output is: the result, then reports, vouchers and notices in order, each kind numbered from zero, with the index of the input and its own destination and payload |
| `ServerManager.ServerManagerFacade.WaitForPendingInputs` | offchain/advance-runner/src/server_manager/facade.rs:337-370 | succeeds if and only if one of the allowed polls finds nothing pending, and lists the inputs of the epoch |
| `ServerManager.ServerManagerFacade.AdvanceState` | offchain/advance-runner/src/server_manager/facade.rs:174-272 | feeds the input if it is the expected one, and returns its outputs or an error |
| `ServerManager.ServerManagerFacade.CollectOutputs` | offchain/advance-runner/src/server_manager/facade.rs:219-268 | the loops make exactly the outputs that `OutputsAreNumbered` describes; the first destination that is missing or no address is named as the error |
| `ServerManager.ServerManagerFacade.CollectProofs` | offchain/advance-runner/src/server_manager/facade.rs:316-320 | the loop converts the proofs in order, or stops at the first that cannot be converted |
| `ServerManager.ServerManagerFacade.FinishEpoch` | offchain/advance-runner/src/server_manager/facade.rs:277-332 | the claim spans exactly the inputs of the epoch; an empty epoch is finished but has no claim, and so is one whose answer cannot be converted, each with its error |
| `RunnerProofs.HandleIsClean` | offchain/advance-runner/src/runner.rs:84-145 | on a well-formed stream handling event n after n events gives what one clean pass gives there, and fails if and only if the server-manager answers with a missing or ill-sized field |
| `RunnerProofs.ClaimOnce` | offchain/advance-runner/src/broker.rs:91-129 | a claim that an earlier runner appended is recognized, and a new one is appended |
| `RunnerProofs.CanonicalClaimsTile` | offchain/advance-runner/src/server_manager/facade.rs:277-332 | claims tile the inputs from 0 on without gap or overlap, with increasing epochs, although empty epochs make no claim |
| `RunnerProofs.ClaimsArePrefixOfCanonical` | offchain/advance-runner/src/runner.rs:46-145 | after every run with crashes at any append, the claims stream is a prefix of the claims of one clean pass |
| `RunnerProofs.OutputsPrecedeClaims` | offchain/advance-runner/src/runner.rs:84-145 | if the claim of an epoch is in the claims stream, all outputs of its inputs and all its proofs are in the outputs stream |
| `RunnerProofs.OutputsAreCanonical` | offchain/advance-runner/src/broker.rs:133-147 | whatever is appended to the outputs stream, even before a crash, is an output of the clean pass |
| `RunnerProofs.RunnerMovesOn` | offchain/advance-runner/src/runner.rs:46-81 | without faults the runner moves on by one event at a time |
| `RunnerProofs.OutOfOrderStops` | offchain/advance-runner/src/broker.rs:70-87 | an event with another parent, epoch or number than comes next stops the runner and nothing is appended |
| `RunnerProofs.CaughtUpMeansComplete` | offchain/advance-runner/src/runner.rs:46-81 | a runner that has caught up has produced every claim and every output |
| `CleanPass.MachineSeesChain` | offchain/advance-runner/src/runner.rs:83-112 | with the dispatcher feeding the node, input number i of the machine is input number i of the chain: its payload, sender, block and timestamp |
| `CleanPass.HistoryTellsEvents` | offchain/advance-runner/src/runner.rs:83-112 | input number i of the machine is the metadata and the payload of the event that carries it |
| `CleanPass.OutputsOfInput` | offchain/advance-runner/src/runner.rs:83-112 | input number i adds to the clean pass what the machine makes of the inputs up to it |
| `CleanPass.EpochEndAdds` | offchain/advance-runner/src/runner.rs:115-147 | the end of an epoch adds the claim sealed for its inputs and the proofs sealed with it |
| `CleanPass.EmptyEpochAddsNothing` | offchain/advance-runner/src/runner.rs:115-147 | the end of an epoch without inputs adds nothing |
| `CleanPass.ClaimsAreSealed` | offchain/advance-runner/src/server_manager/facade.rs:277-332 | the hash of every claim is the hash of the vouchers, notices and machine hashes that the machine seals for the inputs that the claim covers |
| `RunnerService.AdvanceRunner.ConsumeInput` | offchain/advance-runner/src/broker.rs:71-87 | the next event is read if and only if its parent is the last one |
| `RunnerService.AdvanceRunner.ProduceOutputs` | offchain/advance-runner/src/broker.rs:133-147 | outputs are appended in order, up to the append that fails |
| `RunnerService.AdvanceRunner.ProduceRollupsClaim` | offchain/advance-runner/src/broker.rs:91-129 | the claim is appended unless the latest one is not older, and never in reader mode |
| `RunnerService.AdvanceRunner.HandleAdvance` | offchain/advance-runner/src/runner.rs:84-113 | the object refines the model, with the outputs written before a failure |
| `RunnerService.AdvanceRunner.ProduceEpoch` | offchain/advance-runner/src/runner.rs:122-135 | proofs are appended first and then the claim, up to the append that fails |
| `RunnerService.AdvanceRunner.HandleFinish` | offchain/advance-runner/src/runner.rs:116-145 | the object refines the model, for empty epochs and answers that cannot be converted too |
| `RunnerService.AdvanceRunner.Iterate` | offchain/advance-runner/src/runner.rs:46-81 | one turn of the main loop is one step of the model |
| `Checker.UpdateKeeps` | offchain/authority-claimer/src/checker.rs:149-193 | an update with any answer keeps the cache equal to the log and never moves back |
| `Checker.UpdateReadsConfirmed` | offchain/authority-claimer/src/checker.rs:149-193 | an update reads exactly the blocks with enough confirmations; it fails without a block number, without enough blocks, or when blocks are to be read and the query fails |
| `Checker.CacheAlwaysEqualsLog` | offchain/authority-claimer/src/checker.rs:149-210 | after any updates, failures, decreasing block numbers and reorganizations above the confirmed blocks, the cache of every application is its events from genesis to the next block to read, each once |
| `Checker.VerdictMeansCoverage` | offchain/authority-claimer/src/checker.rs:118-145 | the verdict says covered, next, or neither truthfully if and only if the history has not reached the last 128-bit index |
| `Checker.MismatchTells` | offchain/authority-claimer/src/checker.rs:131-144 | a mismatch names the claim and the first input that is not on the chain |
| `Checker.LastIndexWrapsAround` | offchain/authority-claimer/src/checker.rs:118-145 | one claim up to that index is a case where it does not: input 0 is covered and taken for the next one |
| `Claimer.VerdictByCount` | offchain/authority-claimer/src/checker.rs:118-145 | with the first n claims known, claim k is a duplicate iff k is below n, next iff k is n, an error iff k is above n |
| `Claimer.ClaimsAreSubmittedInOrder` | offchain/authority-claimer/src/claimer.rs:86-113 | in every legal run with restarts the on-chain history of each application is a prefix of its claims |
| `Claimer.HistoryTellsClaims` | offchain/authority-claimer/src/sender.rs:83-98 | in every legal run, entry number k of the history has the epoch hash, first index and last index of claim number k of the application |
| `Claimer.ClaimsAreSubmittedOnce` | offchain/authority-claimer/src/claimer.rs:86-113 | no claim is in that history twice |
| `Claimer.CaughtUpMeansOnChain` | offchain/authority-claimer/src/claimer.rs:86-113 | a claimer that has caught up has put every claim of every application on the chain |
| `Claimer.EveryClaimReachesChain` | offchain/authority-claimer/src/claimer.rs:86-113 | after any legal run, as many turns without a fault as there are claims put all of them on the chain |
| `Claimer.SmoothTurnExists` | offchain/authority-claimer/src/claimer.rs:86-113 | after every legal run such a turn is possible |
| `Claimer.NoMismatch` | offchain/authority-claimer/src/claimer.rs:86-113 | in a legal run the checker never reports a mismatch |
| `Claimer.FailedUpdateStops` | offchain/authority-claimer/src/claimer.rs:86-113 | a failed update of the cache ends the claimer; nothing is submitted |
| `Claimer.StaleCacheVerdict` | offchain/authority-claimer/src/checker.rs:118-145 | a cache that misses some submissions gives the right verdict if and only if it misses none of the application or has the claim itself; legal runs ask for no more |
| `Claimer.UnconfirmedSubmissionIsRepeated` | offchain/authority-claimer/src/claimer.rs:86-113 | a claim mined but not confirmed when the claimer restarts is submitted a second time, with a provider that is up to date |
| `ClaimerService.DuplicateChecker.UpdateClaims` | offchain/authority-claimer/src/checker.rs:149-193 | the object refines the model |
| `ClaimerService.DuplicateChecker.Append` | offchain/authority-claimer/src/checker.rs:196-210 | the loop appends each claim to the list of its application |
| `ClaimerService.DuplicateChecker.IsDuplicatedRollupsClaim` | offchain/authority-claimer/src/checker.rs:118-145 | updates first and then gives the model's verdict |
| `ClaimerService.BrokerListener.Listen` | offchain/authority-claimer/src/listener.rs:59-70 | returns the next claim and remembers its identifier |
| `ClaimerService.Claimer.Iterate` | offchain/authority-claimer/src/claimer.rs:86-113 | one turn of the main loop is one step of the model |
| `Pipeline.HistoryIsPrefixOfCanonical` | offchain/authority-claimer/src/claimer.rs:86-113 | with runner and claimer crashing at will, the on-chain history is a prefix of the claims of one clean pass over the inputs |
| `Pipeline.HistoryIsSealed` | offchain/advance-runner/src/server_manager/facade.rs:277-332 | in every legal run, with crashes at will, the hash of every claim on the chain is the hash of the three hashes that the machine seals for the inputs it covers |
| `Pipeline.CaughtUpMeansOnChain` | offchain/authority-claimer/src/claimer.rs:86-113 | when both have caught up it is exactly those claims |
| `Pipeline.EveryEpochReachesChain` | offchain/advance-runner/src/runner.rs:46-81 | after any legal run, as many turns of the runner as there are inputs and then of the claimer as there are claims, without a fault, put every claim of the clean pass on the chain |
| `Pipeline.ClaimCoversItsEpoch` | offchain/advance-runner/src/server_manager/facade.rs:277-332 | a claim covers an input if and only if the input was sent in the claim's epoch |
| `Pipeline.ClaimsAreChainEpochs` | offchain/dispatcher/src/drivers/context.rs:93-148 | with the dispatcher feeding the node, a claim on the chain that covers an input covers exactly the inputs of the same epoch of the chain |
| `Pipeline.ClaimsAreWholeEpochs` | offchain/dispatcher/src/drivers/context.rs:93-96 | the same, with the distance from the genesis block divided by the epoch length |
| `Repository.ToI32IsCongruent` | offchain/indexer/src/conversions.rs:38-126 | the cast to 32 bits keeps the number modulo 2^32 |
| `Repository.KeysCollide` | offchain/indexer/src/conversions.rs:38-126 | two indexes become the same key if and only if they agree modulo 2^32, and keep their value if and only if below 2^31 |
| `Repository.TablesAre` | offchain/data/src/repository.rs:148-242 | for every sequence of writes: success if and only if foreign keys come first, and then the tables hold the first row of each key and the last result after each input |
| `Repository.OrderAndRepetitionDoNotMatter` | offchain/data/src/repository.rs:148-242 | two deliveries of the same consistent writes, inputs first, in any order and with any repetition, leave the same tables |
| `Repository.EveryWriteIsStored` | offchain/data/src/repository.rs:148-242 | nothing of such a delivery is missing from the tables |
| `Repository.ResultsAreKept` | offchain/data/src/repository.rs:228-242 | the tables keep a result if and only if one of its deliveries follows its input; otherwise the input stays unprocessed |
| `Repository.LastResultIsStored` | offchain/data/src/repository.rs:228-242 | a result that comes after its input is stored, whatever came before it |
| `Repository.OnlyProofsStandAlone` | offchain/data/migrations/20230110182039_rollups/up.sql:15-58 | vouchers, notices and reports are refused without their input, and proofs are not |
| `Repository.EarlyResultIsLost` | offchain/data/src/repository.rs:228-242 | a result delivered before its input is lost, until it is delivered again |
| `Repository.WritesOnlyAdd` | offchain/data/src/repository.rs:148-242 | from any database and for any writes, rows stay, outputs are not overwritten, and a processed input never becomes unprocessed |
| `Indexer.OutputIsKept` | offchain/indexer/src/conversions.rs:18-126 | the written row tells the output back if and only if all its numbers are below 2^31 |
| `Indexer.InputIsKept` | offchain/indexer/src/conversions.rs:38-49 | likewise for an input and its block number |
| `Indexer.OutputsAgree` | offchain/indexer/src/conversions.rs:51-126 | two outputs get the same row if and only if they are of the same kind, input and index |
| `Indexer.CleanPassIsConsistent` | offchain/indexer/src/indexer.rs:92-130 | deterministic outputs over numbered inputs never contradict each other in the tables |
| `IndexerRuns.IndexerNeverFails` | offchain/indexer/src/indexer.rs:51-65 | in every legal run no write is refused, as inputs are read before outputs |
| `IndexerRuns.TablesAreOfOneCleanPass` | offchain/rollups-events/src/broker/indexer.rs:51-105 | in every state, however often the indexer restarted, the tables are those of one clean pass over a prefix of each stream |
| `IndexerRuns.ReplayLeavesNoTrace` | offchain/indexer/src/indexer.rs:51-130 | once it has caught up the tables are those of one clean pass over both streams |
| `IndexerRuns.EveryEventIsStored` | offchain/indexer/src/indexer.rs:51-65 | after any legal run, as many turns without a stop as there are events complete the tables |
| `IndexerPipeline.CanonicalOutputsAreSound` | offchain/advance-runner/src/server_manager/facade.rs:219-268 | the outputs of a clean pass are about inputs already sent, and no two contradict each other |
| `IndexerPipeline.DispatcherNumbers` | offchain/dispatcher/src/machine/rollups_broker.rs:250-274 | a stream the dispatcher wrote numbers its inputs as the indexer's keys need |
| `IndexerPipeline.RunnerFeedsIndexer` | offchain/advance-runner/src/runner.rs:84-145 | in every run of the runner, crashes included, the streams are what the indexer relies on |
| `IndexerPipeline.TablesAreCanonical` | offchain/indexer/src/indexer.rs:51-130 | when runner and indexer have caught up, the tables are those of every input and every output of one clean pass, although both repeated work |
| `IndexerPipeline.TablesHoldResults` | offchain/indexer/src/indexer.rs:51-130 | when runner and indexer have caught up, the tables hold each input as it was sent and, under its number, its result, reports, vouchers and notices as the machine made them, in order |
| `IndexerService.Tables.InsertInput` | offchain/data/src/repository.rs:148-158 | an input is inserted unless its key is there |
| `IndexerService.Tables.UpdateInputStatus` | offchain/data/src/repository.rs:228-242 | the status of an input is set if its row is there |
| `IndexerService.Tables.InsertOutput` | offchain/data/src/repository.rs:160-223 | an output is inserted unless its key is there, and refused if its foreign key is missing |
| `IndexerService.IndexerLoop.Consume` | offchain/rollups-events/src/broker/indexer.rs:51-105 | an input if there is one, otherwise an output, and only that identifier moves |
| `IndexerService.IndexerLoop.StoreInput` | offchain/indexer/src/indexer.rs:92-105 | an input is stored, an epoch end is ignored |
| `IndexerService.IndexerLoop.StoreOutput` | offchain/indexer/src/indexer.rs:108-130 | each kind of output goes to its table |
| `IndexerService.IndexerLoop.Iterate` | offchain/indexer/src/indexer.rs:51-65 | one turn of the main loop is one step of the model |
| `Cursors.Base64RoundTrip` | offchain/data/src/pagination.rs:153-161 | decoding undoes encoding for all bytes |
| `Cursors.Base64IsCanonical` | offchain/data/src/pagination.rs:158-161 | what decodes is what encoding gives, so no two strings decode to the same bytes |
| `Cursors.CursorRoundTrip` | offchain/data/src/pagination.rs:151-168 | decoding undoes encoding for every 32-bit offset |
| `Cursors.StandardAlphabet` | offchain/data/src/pagination.rs:153-155 | the characters are those of the standard base64 alphabet, in order |
| `Cursors.SameBits` | offchain/data/src/pagination.rs:153-155 | four characters hold the bits of three bytes, the highest first |
| `Cursors.ParsesIff` | offchain/data/src/pagination.rs:162-167 | a number is read if and only if it is digits with or without a sign and fits 32 bits |
| `Cursors.DecodeFailsIff` | offchain/data/src/pagination.rs:158-168 | which of the two errors a value gives |
| `Cursors.TenIsWritten` | offchain/data/src/pagination.rs:153-155 | row 10 is written MTA= |
| `Pagination.CreateConnection` | offchain/data/src/pagination.rs:113-143 | the loop numbers the edges from the offset on |
| `PaginationTheorems.SucceedsIff` | offchain/data/src/pagination.rs:16-103 | a page exists if and only if the directions are not mixed, cursors stand for rows and limits are not negative |
| `PaginationTheorems.RefusalNamesArgument` | offchain/data/src/pagination.rs:16-103 | a refused query names mixed arguments first, then the cursor of its direction, then the limit |
| `PaginationTheorems.PageIsInTable` | offchain/data/src/pagination.rs:54-103 | the page is within the table if and only if the query goes backward or the row of the cursor plus the capped limit fits 32 bits, which holds up to a total of i32::MAX - 1000 |
| `PaginationTheorems.PageCanLeaveTable` | offchain/data/src/pagination.rs:84-101 | the last row of the largest table is a case where it does not, for any codec that round-trips |
| `PaginationTheorems.CursorPageCanLeaveTable` | offchain/data/src/pagination.rs:84-101 | the same with the cursors of the source |
| `LargeTables.RefinesRelayIff` | offchain/data/src/repository.rs:281-313 | for every table and all arguments, a query that succeeds returns the edges of the Relay slicing algorithm with limits capped at 1000 if and only if the rows can be counted in 32 bits, or the page is empty, or it ends within the count or at a cursor |
| `LargeTables.UncountedTableLooksEmpty` | offchain/data/src/repository.rs:294-299 | a table of 2^31 rows looks empty |
| `PaginationTheorems.HasNextPageIsTrue` | offchain/data/src/pagination.rs:127-131 | the flag is the one of the specification if and only if the page was not asked to be empty while rows follow |
| `PaginationTheorems.HasPreviousPageIsTrue` | offchain/data/src/pagination.rs:121-126 | likewise backward |
| `PaginationTheorems.EmptyPageHidesRows` | offchain/data/src/pagination.rs:121-131 | an empty page of a table with one row is a case where it is not, in both directions |
| `PaginationTheorems.ForwardWalkIsComplete` | offchain/data/src/pagination.rs:54-143 | following the end cursor ends, and returns every row after the cursor once, in order, in as many pages as it takes |
| `PaginationTheorems.BackwardWalkIsComplete` | offchain/data/src/pagination.rs:54-143 | following the start cursor yields the same list |
| `PaginationTheorems.WalksByCursor` | offchain/data/src/pagination.rs:54-168 | with the cursors of the source, walks from either end exist and visit every row once, in the number of rows divided by the capped size, rounded up, pages |
| `LargeTables.ForwardWalkIsCompleteIff` | offchain/data/src/pagination.rs:54-143 | for every table, a forward walk that ends has returned every row if and only if the rows can be counted in 32 bits |
| `LargeTables.BackwardWalkIsCompleteIff` | offchain/data/src/pagination.rs:54-143 | for every table, so does a backward walk |
| `InputBox.FetchAllNewInputs` | offchain/types/src/foldables.rs:160-187 | the loop builds the inputs of the matching events, or stops at the first error |
| `InputBox.UpdatedInputs` | offchain/types/src/foldables.rs:119-158 | the loop appends them to the boxes, or changes nothing on an error |
| `InputBox.ReadsIffConsistent` | offchain/types/src/foldables.rs:190-240 | reading succeeds if and only if every log agrees with its block in hash and number |
| `InputBox.ErrorNamesBlock` | offchain/types/src/foldables.rs:190-240 | an error is about the first log that does not agree with its block, and tells how |
| `InputBox.InputTellsLog` | offchain/types/src/foldables.rs:190-222 | each input tells sender, application, payload and metadata of its own log |
| `InputBox.FindsInOrder` | offchain/types/src/foldables.rs:160-187 | a log is found if and only if its contract, signature and application are the ones asked for, and logs are found in their order |
| `InputBox.FindsBlockByBlock` | offchain/types/src/foldables.rs:160-187 | what is found in the blocks is what is found in all their logs, one block after the other |
| `InputBox.SyncHoldsAllInputs` | offchain/types/src/foldables.rs:59-81 | reading at once gives one box with the inputs of all matching events, in order |
| `InputBox.SkipIsRightIff` | offchain/types/src/foldables.rs:83-116 | skipping a block is right if and only if it holds no event of the application |
| `InputBox.FoldAgreesWithSync` | offchain/types/src/foldables.rs:59-158 | for every chain and split point, folding the rest from the synced state equals syncing all, errors included, if bloom filters have no false negatives |
| `AbiEncoding.WritePadding` | offchain/host-runner/src/driver.rs:24-31 | zeros fill the word, none if it is full |
| `AbiEncoding.ComputeVoucherPreimage` | offchain/host-runner/src/driver.rs:9-15 | the hasher is given the padded destination, the offset and the payload words |
| `AbiEncoding.ComputeNoticePreimage` | offchain/host-runner/src/driver.rs:17-22 | the hasher is given the offset and the payload words |
| `AbiEncoding.VoucherIsAbi` | offchain/host-runner/src/driver.rs:9-47 | the preimage is abi.encode(address, bytes), for every payload |
| `AbiEncoding.NoticeIsAbi` | offchain/host-runner/src/driver.rs:17-47 | the preimage is abi.encode(bytes), for every payload |
| `AbiEncoding.PreimagesFillWords` | offchain/host-runner/src/driver.rs:24-47 | both lengths are divisible by 32, whatever the destination |
| `AbiEncoding.VouchersAreInjective` | offchain/host-runner/src/driver.rs:9-47 | vouchers with 20-byte destinations have the same preimage only if they are the same |
| `AbiEncoding.EqualLengthsAreInjective` | offchain/host-runner/src/driver.rs:9-47 | the same for any two destinations of equal length |
| `AbiEncoding.NoticesAreInjective` | offchain/host-runner/src/driver.rs:17-47 | notices have the same preimage only if they are the same |
| `AbiEncoding.ShortDestinationsCollide` | offchain/host-runner/src/driver.rs:38-41 | for destinations of different lengths that is false: leading zeros are lost in the padding |
| `LineWriter.Writer.Write` | internal/services/linewriter.go:25-48 | the loop ends and does what the model's write step does |
| `LineWriter.LinesAreTheText` | internal/services/linewriter.go:25-48 | lines and tail together are the text |
| `LineWriter.LinesEndInNewline` | internal/services/linewriter.go:31-46 | every line ends in its only newline, and the tail has none |
| `LineWriter.LinesAreUnique` | internal/services/linewriter.go:31-46 | there is only one way to cut a text like that |
| `LineWriter.ChunkingDoesNotMatter` | internal/services/linewriter.go:25-48 | however a text is cut into writes, the inner writer gets exactly its non-empty lines, in order, and the buffer holds the tail |
| `LineWriter.EveryLineIsPassedOn` | internal/services/linewriter.go:25-48 | exactly the bare newlines are left out; all other lines are passed on in order, each as often as it is there |
| `Supervisor.StartsAfterReady` | internal/services/supervisor.go:62-93 | in every interleaving a service that was started has only ready services before it |
| `Supervisor.LaunchFindsReady` | internal/services/supervisor.go:62-93 | the step that starts a service finds all services before it ready and the service itself not started |
| `Supervisor.ReadyOnceAndLast` | internal/services/supervisor.go:95-99 | the supervisor announces itself at most once, and only after all services signalled |
| `Supervisor.ServingMeansReady` | internal/services/supervisor.go:95-102 | while it serves and there is no reason to stop, it has announced itself |
| `Supervisor.LastServiceMakesReady` | internal/services/supervisor.go:95-99 | once the last service is ready and nothing went wrong, the next steps announce it |
| `Supervisor.ReturnValueIsTrue` | internal/services/supervisor.go:104-120 | a return other than the supervisor timeout means no started service runs; it is a service timeout, or else the first error of a service |
| `Supervisor.RunsUntilFirstError` | internal/services/supervisor.go:101-102 | it returns only after cancellation, a late service, or a failed service |
| `Supervisor.EventsAreRemembered` | internal/services/supervisor.go:44-93 | a cancellation is never lost, and only a late service is taken for one |
| `Supervisor.StoppedMeansReturns` | internal/services/supervisor.go:101-117 | once there is a reason to stop and all services have stopped, it returns |
| `Supervisor.SupervisorService.StartNext` | internal/services/supervisor.go:62-77 | starting a service refines the model's step |
| `Supervisor.SupervisorService.AwaitReady` | internal/services/supervisor.go:79-92 | the select of the start loop refines the model's steps |
| `Supervisor.SupervisorService.Finish` | internal/services/supervisor.go:95-120 | what follows the loop refines the model's steps |
| `Supervisor.SupervisorService.StartServices` | internal/services/supervisor.go:60-93 | the loop over the services takes exactly the given cases of its select, one per service, up to the first that is not a ready service; it ends blocked, broken or with all services started |
| `Supervisor.SupervisorService.AwaitStop` | internal/services/supervisor.go:104-120 | the last select takes the given case: it returns a timeout of the supervisor if and only if that case is the timeout |
| `Supervisor.SupervisorService.Start` | internal/services/supervisor.go:44-121 | the whole of Start follows a run of the model with the given cases, and returns what that run returned, unless it is blocked; blocked while serving, it has announced itself |

## Left out

- Dispatcher failures: a broker error and a restart of the dispatcher are not modelled; it refuses to start on a stream that is not empty (offchain/dispatcher/src/setup.rs).
- Broker retries: an append that succeeds but is reported as failed, and is then repeated by the backoff layer, is not modelled.
- Redis, Postgres, gRPC, HTTP, ethers, the transaction manager, metrics, logging and backoff are replaced by streams, tables, a session and a log.
- Server manager: the machine is any deterministic function of the inputs, and the epoch hash any function of its preimage; the deletion of an old session is not modelled.
- Server manager proofs: that no two proofs for the same output contradict each other is assumed of the machine (`Tame` in `IndexerPipeline`), as Merkle proofs are not part of this model.
- Stream identifiers of the outputs and claims streams do not appear in the runner's model, which only appends to them; the claimer's and the indexer's models have them.
- The runner's subtraction on the number of inputs sent wraps around as in release builds.
- Timestamps: the conversion of a timestamp that does not fit a system time is not modelled.
- PaginationTheorems.ForwardWalkIsComplete: is about tables of at most 2^31 - 1 rows, as are the page flags; what a query returns for larger tables is stated by `RefinesRelayIff`, and that walks are then not complete by `ForwardWalkIsCompleteIff`. Additions wrap around as in release builds and do not panic as in debug builds.
- Cursors.CursorRoundTrip: bytes that are not UTF-8 and text that is not a number are one error here, two in the source.
- Query filters, and the getters of single rows, would only add easy members.
- Real time: timeouts of the controller and the supervisor are steps that may happen at any moment; at least one handle of the controller stays alive.
- Supervisor: services and the caller act between the blocking operations of the supervisor; goroutine scheduling below the level of channel operations is not.
- Keccak is not modelled; hashes are reasoned about through their preimages only, and the preimages of vouchers and notices are not claimed to be disjoint.
- The interning of addresses (offchain/types/src/user_data.rs) and the merging of maps (offchain/types/src/utils.rs) would only add easy members.
- Configuration, command lines, signers, health checks, reverse proxies, generated bindings and the Merkle tree are not modelled.
