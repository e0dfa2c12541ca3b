# Nerthus: execution, storage and codecs, modelled and proved

Nerthus keeps one chain of units per account and per contract. A transaction is a sequence of *actions* on several
chains: a transfer is paid on one and received on another; a contract call is frozen on the caller's chain, dealt with
on the contract's, and its coin flows and refund are received wherever they go. This project models that machine, the
store of the units, and the codecs and containers underneath, and proves what they keep.

Check everything with `dafny verify dfyconfig.toml`.

## How it is laid out

* **Execution.** `Ledger`, `Transition` and `Processor` specify the state, one message, and every action as functions.
  `StateObjects`, `TransitionRun`, `ProcessorRun` and `MiningRun` are the objects and loops of the program, each proved
  to do what the specification says. `ActionLaws`, `DealLaws` and `DeployLaws` say what each action costs and changes, in numbers;
  `GasLaws`, `Conservation`, `Lifecycle`, `DealCalls`, `MultiChain`, `Journeys`, `Guards`, `Runs`, `Mining`, `Filing` and
  `Agreement` hold the other theorems; `DealFailures` and `Disagreement` are runs in which a wished-for property
  fails.
* **Store.** `Dag`, `Store` and `Clearing` specify the index, the tails, the child links and clearing; `StoreRuns` and
  `Background` are runs with bodies written at once and in the background, `Recovery` is what happens after a crash,
  `Restart` what happens when that crashes too; `OldLinks` is a crash where it matters in which order chains are
  recovered, `BusyClear` a clearing that comes at the wrong time. `DagStore` is the object with its caches. `TxStatusLog` is the log
  of transaction stages.
* **Concurrency.** `Ring` is the lock-free ring as a state machine over single loads, stores and compare-and-swaps;
  `RingCalls` says what calls that came back have done, `RingAlone` what a call does that nobody disturbs, `RingSize` is
  its rounding. `Feed` is the event feed as a state machine, `FeedRun` the object with its buffer.
* **Codecs and sets.** `Polymod`, `Bech32`, `KnownString`, `Bech32Run`, `BitGroups`, `Account`, `Bitset`, `Radix`, `Base58`, `DataSet`,
  `DataSetRun`. `Options`, `Sums` and `Arith` are shared.

The virtual machine is a parameter. It promises what the program relies on: it returns no more gas than it got; an error
leaves balances alone, and a lack of balance is reported only to a caller who has less than the value; a success adds
nothing to the total, though contracts can destroy what they have; of the users only the caller loses, and at most the
value. Hashes are injective: a unit *is* its content, so references cannot be circular.

## What turned out

Some properties one would wish for do not hold of the code. For each there is a concrete example and the exact condition.

* **Conservation.** Balances, value in flight, fees and what contracts destroyed add up to the same total over a run if
  and only if every deal is *sound* (`Runs.RunConservesIff`), which is said of the accounts the virtual machine is called on and of its answer. Deal
  by deal: an error keeps the total (`Guards.ErrorsConserve`); output the gas cannot pay for after a successful call
  changes it by what the call took from users (`Guards.UnpaidAdds`); proof of work and the first stage of a deployment lose what they pay
  to users (`Guards.SilentConservesIff`); any other deal keeps it whatever the machine does if and only if the other users
  of the chain are measured from their present balances or there is nothing to pay with (`Guards.AlwaysConservesIff`).
  `DealFailures` has a run from balances only for each way to fail.
* **Miner and validator** always agree on accounts, marks and gas (`Agreement.ReplayAlwaysSucceeds`). They agree on receipts
  if and only if no receipt shows that a failed message left a measuring base behind, which no snapshot restores. A message
  does that if it resets its sender's base and then fails, for one of two reasons: the pool is too low for its gas, or it
  is free and its call fails (`Mining.FailsLateIff`). `Agreement.DirtyTakeShows` says when the next deal shows it, and
  `Disagreement.ReceiptsDiffer` is such a queue: the system contract pays Bob 1 coin, a free transaction of Bob's fails
  and resets Bob's base to 0, and when Bob is paid 5 more the miner's receipt shows 6 and the validator's 5.
* **Free gas** with a price can pay the sender (`GasLaws.FreeGasFeeExactIff`); validation of transactions excludes it.
* **Recovery** after a crash depends on child links left over from an earlier life of units without a body and on the order
  in which marked chains come, which is that of a hash table. `Recovery.RestoredIff` is the exact condition for an order;
  runs without such links always satisfy it (`Recovery.FreshRunIsRestored`), also if recovery itself is cut short between
  any two removals and started again (`Restart.FreshRunSurvives`); `OldLinks.OrderMatters` is a crash that is survived in
  one order only, and `Restart.TailLowered` the one place inside a removal where a crash leaves a header for good.
* **Clearing while bodies are being written** keeps the store readable after any crash if and only if the writer holds
  nothing that refers to what is cleared (`Background.ClearKeepsIff`), which replacing a unit does not check:
  `BusyClear.ClearedFromUnder` ends with a complete unit whose reference is gone.
* **Deleting from the status log** reverses what is left, against its own comment (`TxStatusLog.DeleteKeepsOrderIff`).
* **Replacing a unit** of the special proposer keeps the store in order unless the new unit refers to what is cleared
  with the old one (`StoreRuns.ReplaceKeepsIff`).
* **A deployment's gas.** The pool pays for the rehearsal and for the call on the system chain, the receipt of a deployment
  that succeeds shows the second only (`DeployLaws.DeployRuns`).
* **The ring** is not free of waiting: a put or get whose ticket another has won goes round until the other is done, and
  otherwise it goes on with the next ticket (`RingAlone.PutGoesOn`, `PutHangs`, `GetGoesOn`, `GetHangs`).
* **Sets** break on the empty key and when the 32-bit count wraps (`DataSet.AddKeepsIff`).

## Model

| member | source | states |
|---|---|---|
| Runs.RunConservesIff | core/state_processor.go:168-694 | In a run of any number of transactions on any number of chains, in any order, own-chain balances + value in flight + fees + what contracts destroyed is the same in every state if and only if every deal is sound, by the accounts its machine is called on and the machine's answer |
| Runs.SafeRunConserves | core/state_processor.go:168-694 | A run in which every deal errs, or pays for its output and finds the other users measured afresh or nothing to pay with, or pays no user where nobody delivers flows, keeps the total in every state |
| Runs.StepConservesIff | core/state_processor.go:115-158 | One step (submission, execution of an action, reading a chain back) keeps the total exactly when it is sound |
| Runs.RunKeepsInv | core/api_unit.go:227-300 | What is in flight stays well formed in every run: each action fits its transaction, at most one payment, freeze or deal of a transaction at a time, none already marked on its chain |
| Runs.ExecutedAtMostOnce | core/state_transition.go:300-316 | In every run no (chain, transaction, mark) executes twice |
| Runs.LifeIsBounded | core/api_unit.go:227-300 | In every run a transaction executes at most four actions plus one per coin flow of its deals, what is still in flight included |
| Runs.CreditsNeverStuck | core/state_processor.go:486-523 | A receipt or refund in flight can always be executed on its chain, whatever state the chain is in |
| Runs.EveryRun | core/api_unit.go:80-121 | From balances only: order in every reachable state, nothing twice, at most four actions and one per coin flow for every transaction |
| MultiChain.ExecKeepsInv | core/api_unit.go:227-300 | Executing any action in flight keeps the invariant of the whole system |
| MultiChain.DealChanges | core/state_processor.go:270-421 | A deal that hands out its flows never adds value and keeps it exactly if no user with a stale base gains; any other adds exactly what its call took from users |
| MultiChain.DealConservesIff | core/state_processor.go:270-421 | A deal keeps the total if and only if it is sound |
| Guards.ErrorsConserve | core/state_transition.go:369-396 | A deal whose rehearsal failed or whose machine reports an error fails and keeps the total |
| Guards.UnpaidAdds | core/state_transition.go:361-368 | A call that succeeds with output its gas cannot pay for makes the deal fail and changes the total by exactly what the call took from users |
| Guards.SilentConservesIff | core/api_unit.go:227-300 | Proof of work and the first stage of a deployment never add value, and keep it exactly if no user gained |
| Guards.AlwaysConservesIff | core/state/state_object.go:340-352 | Any other deal keeps the total under every admissible virtual machine if and only if every other user on the chain is measured from its present balance or there is nothing to pay with |
| DealCalls.MakesCall | core/state_processor.go:354-366 | A deal that is unmarked, not failed before and covered by the pool meets the machine, on accounts that can be told beforehand |
| DealCalls.DeployMakesCall | core/state_processor.go:296-366 | So does the first stage of a deployment once its rehearsal succeeded: with the gas the rehearsal left, and the sender holding the value and the price of what the rehearsal used |
| DealCalls.NeverMisses | core/state_processor.go:354-366 | The machine never reports a lack of balance in a funded deal, whether or not it was rehearsed |
| DealCalls.DealByCall | core/state_processor.go:345-421 | Whether a deal fails, what it keeps, who gains and what output its receipt has, from the accounts and the answer of its one call |
| DealLaws.CallIs | core/state_transition.go:332-360 | The machine is called once, by the sender, with the remaining and the free gas, the data and the value of the transaction |
| DealLaws.DealGasIs | core/state_processor.go:345-421 | The receipt of a deal and the pool show the gas the call used and 68 or 4 for each byte it returned, less the storage refund, which is the lesser of the counter and half of that; a call that fails is charged its gas |
| DealLaws.UnpaidIs | core/state_transition.go:361-368 | Output is unpaid exactly if the gas left is less than 68 for each byte that is not zero and 4 for each that is |
| DealLaws.DealNonces | core/state_transition.go:332-341 | A deal moves the nonce of its chain on by one before the machine is called, except where a contract is created by the first unit of its chain, and keeps the nonces the machine leaves |
| DealLaws.DealFlows | core/state_processor.go:387-419 | The coin flows of a deal that does not fail, entry by entry: to each user exactly what the call left it beyond its base, to the sender what the contract paid it |
| DealLaws.TurnedAwayIs | core/state_processor.go:424-471 | Which deals are turned away before anything is run, with what error; they cost nothing and change no account |
| DeployLaws.StageCall | core/state_processor.go:296-316 | The rehearsal of a deployment calls the machine on the genesis accounts with just the value in the sender's, to create in the first unit of a new chain, with all the gas |
| DeployLaws.DeployIsShort | core/state_processor.go:310-315 | A first stage whose gas the pool does not cover runs nothing and leaves the pool as it was |
| DeployLaws.DeployFails | core/state_processor.go:316-338 | If the rehearsal's call fails or cannot pay for what it returns, the whole outcome: a failed receipt at the price of that call, and a mark is all that happens to the chain |
| DeployLaws.DeployRuns | core/state_processor.go:296-366 | Otherwise the system contract is called with the gas the rehearsal left and no value; the pool pays for both calls, the receipt for the second, and for the first only if the second fails; no flows |
| DeployLaws.ErrorDrainsTwice | core/state_processor.go:316-338 | A rehearsal that ends in an error other than want of pool gas costs what it drained, and the pool pays it once more |
| Journeys.StartsThere | core/api_unit.go:80-121 | A submitted transaction has one action in flight, on the chain its kind says: payment, deployment, invocation, report of an idle chain, proof of work |
| Journeys.GoesOnward | core/api_unit.go:227-300 | Once a payment, freeze or deal has run, exactly these actions of its transaction are in flight, by its kind: the receipt, the deal, the second stage of a deployment, or one flow to each user paid and the refund; nothing after a proof of work |
| Journeys.CausedBy | core/api_unit.go:227-300 | For every receipt: what a receipt, a flow, a refund and a deal are caused by, and that nothing else is caused |
| Journeys.CreditEnds | core/api_unit.go:227-300 | A receipt or refund that has run only leaves what is in flight |
| MultiChain.DeploymentContinues | core/api_unit.go:227-300 | Once the first stage of a deployment succeeded and its output is paid for, the one action of the transaction in flight is the second stage, on the chain of the contract that output names |
| DealCalls.RunDealErrIff | core/state_processor.go:365-386 | A funded deal is an error if and only if the pool is too low for its gas, or it is free and its call fails or is not paid for |
| DealCalls.MovedWithoutValue | core/state_processor.go:345-421 | A call without value takes nothing from users, and gives them nothing exactly if no user gains |
| MultiChain.ReloadedIsMeasured | core/state/state_object.go:140-150 | A state just read from the store is measured from its present balances |
| MultiChain.OtherActionsConserve | core/state_processor.go:168-195 | Payments, freezes, receipts and refunds keep the total, self-transfers included |
| Lifecycle.MarkedOnce | core/state_transition.go:300-316 | An action that succeeds was not marked before, is marked afterwards, and leaves all other marks alone; the three kinds of deal share one mark |
| Conservation.PaymentAccount | core/state_processor.go:168-195 | A payment takes the value, unless it is to oneself, and the price of exactly the gas its receipt shows from the chain, which is 21000, 68 for each byte of data that is not zero and 4 for each that is |
| ActionLaws.StagePays | core/state_transition.go:158-267 | For every action, gas and allowance: which of the four refusals comes first, and otherwise the gas bought, the gas left once 21000 or 53000 and the price of the data are paid, the balance and the pool |
| ActionLaws.GenesisGas | core/ovm.go:32-50 | On the first unit of the system chain the allowance is the largest word: a message gets one unit of gas less than it asks for, and one that asks for none gets the whole word |
| ActionLaws.DataCostIs | core/state_transition.go:99-118 | Data costs 68 times the number of bytes that are not zero plus 4 times the number of those that are |
| ActionLaws.PaymentIff | core/state_processor.go:168-195 | A payment succeeds if and only if it is not marked, the sender has the price of all its gas and the value, the pool covers the gas, and the gas covers its cost; otherwise the error is the first of five reasons, the last two of which take the gas out of the pool |
| ActionLaws.PaymentIs | core/state_processor.go:168-195 | The whole state, pool and receipt of a payment: two balances, one nonce, one mark, and the flows are what users have above their bases |
| ActionLaws.FreezeIff | core/state_processor.go:525-614 | The same for a freeze |
| ActionLaws.FreezeIs | core/state_processor.go:525-614 | The whole state, pool and receipt of a freeze: one balance, one nonce, one mark, no flow |
| ActionLaws.ReceiveIff | core/state_processor.go:486-523 | When a transfer is received, and then the one balance, nonce and mark that change, and the receipt |
| ActionLaws.RefundIff | core/state_processor.go:617-655 | The same for a refund |
| ActionLaws.FlowIff | core/state_processor.go:657-694 | The same for a coin flow |
| Conservation.FreezeAccount | core/state_processor.go:584-614 | A freeze takes the price of the whole gas and the value; the receipt splits that gas into used, which is 53000 for a deployment and else 21000 and the price of the data, and remaining |
| Conservation.CreditAccount | core/state_processor.go:657-694 | A receipt or refund gives its chain exactly what it carried, at no fee |
| Conservation.ReportedAgainstGained | core/state_processor.go:219-239 | The flows of a receipt never exceed what users gained, and equal it exactly when no user measured from a stale base gained |
| Conservation.DeliveredIff | core/state_processor.go:387-419 | A delivering deal pays out what it took in exactly when no user with a stale base gained; its flows are positive and go to users |
| Conservation.SenderBaseAfterDeal | core/state_processor.go:387-389 | After a deal its sender is measured from what it had left, while its balance on that chain is zero |
| Conservation.RehearsalGas | core/state_processor.go:296-343 | The rehearsal of a deployment uses, or on an error drains, no more gas than it is given |
| Conservation.DealAccount | core/state_processor.go:424-471 | A contract deal: own-chain balance, gas used and remaining, and flows accounted for, with the two-stage deployment and failed deals |
| DealFailures.UnpaidOutputMints | core/state_transition.go:361-368 | A run from one funded account (submit, freeze, deal) after which 5 coins more exist: the call succeeded, its output was not paid for, nothing was rolled back |
| DealFailures.StaleBaseLoses | core/state_processor.go:387-389 | A run from two funded accounts (two calls, each submitted, frozen and dealt with) after which value is missing: the first call left its sender with a stale base, the second paid that user |
| DealFailures.ProofOfWorkLoses | core/api_unit.go:227-300 | A run from a funded system contract after which all its 7 coins are missing: a proof-of-work deal paid them out and nothing delivers them |
| Disagreement.FreeReverts | core/state_processor.go:375-377 | A free transaction whose call fails is reverted, and the pool is not what stops it |
| Disagreement.ReceiptsDiffer | witness/mining.go:311-480 | A queue on the empty system chain, two priced calls that pay Bob 1 and 5 coins around a free transaction of Bob's that fails: the miner packs the calls and drops the transaction, the replay of the calls succeeds, and its last receipt shows 5 coins for Bob where the miner's shows 6 |
| GasLaws.NetFeeWithoutFree | core/state_transition.go:410-431 | Without free gas the sender pays the price of exactly the gas used, although the arithmetic is on 64-bit words |
| GasLaws.NetFeeAtNoPrice | core/state_transition.go:410-431 | At price zero nothing is paid |
| GasLaws.FreeGasFeeExactIff | core/state_transition.go:226-267 | With free gas the fee is the price of the gas beyond it if and only if the price, the allowance or the gas of the message is zero |
| GasLaws.FreeGasCanPayTheSender | core/state_transition.go:226-267 | Otherwise a message can end up paying its sender |
| GasLaws.MessageGas | core/state_transition.go:320-396 | A completed message uses at most the gas bought, the pool gets back the rest, and the storage refund leaves at least half of the gas consumed |
| GasLaws.MessageBalance | core/state_transition.go:320-408 | What a completed message does to each balance: the purchase, the moves of its body, the refund |
| GasLaws.MessageFailPool | core/state_transition.go:158-267 | A failed message adds nothing to the pool and drains at most what it bought |
| GasLaws.ProcessPool | core/state_processor.go:115-158 | Every action with every outcome takes at least the gas of its receipt out of the pool and adds nothing to it |
| GasLaws.BatchWithinLimit | core/state_processor.go:85-113 | Over any sequence of successful and failed actions, pool + gas of the receipts stays within the gas limit of the unit |
| Mining.ProcessMore | core/gaspool.go:21-28 | An action that does not fail for want of pool gas does the same with more gas in the pool |
| Mining.CleanRevertIff | witness/mining.go:567-658 | After a failed action, going back to the snapshot restores the state if and only if the action is not a deal that reached funding with a sender measured from another amount |
| Mining.FailsLateIff | core/state_processor.go:360-386 | Once its sender's base is reset, a deal is an error if and only if the pool is too low for its gas, or it is free and its call fails or is not paid for; a rehearsed deployment never is |
| Mining.TakeAgrees | witness/mining.go:567-658 | Taking one more message keeps the agreement between what is packed and its replay |
| Mining.MinerAndValidatorAgree | witness/mining.go:311-480 | For every queue content, clock and interruption, if no message resets a base and then fails (`FailsLate`), replaying just the packed unit succeeds with the same receipts, gas and state |
| Agreement.ProcessIsBlind | core/state/state_object.go:340-352 | From states that differ in measuring bases only, every action fails with the same error or succeeds with the same state and a receipt that differs in flows at most, and differs exactly if some other user ends up above one of its two bases |
| Agreement.ReplayAlwaysSucceeds | witness/mining.go:311-480 | For every queue, clock and interruption, with no condition on what failed: replaying the packed unit succeeds with the same accounts, marks and gas, and the receipts are the miner's if and only if each hides the bases that failed messages left |
| Agreement.DirtyTakeIs | witness/mining.go:567-658 | A message that resets its sender's base and then fails leaves the miner's state as it was but for that base, which is the frozen amount |
| Agreement.CleanTakeIs | witness/mining.go:567-658 | Any other message that is not packed leaves the miner's state as it was |
| Agreement.DirtyTakeShows | witness/mining.go:311-480 | After such a failure, the next packed deal makes the receipts differ if and only if it is another sender's and leaves the first with more than either base |
| Filing.PackFiles | witness/mining.go:311-480 | For every queue, clock and interruption: the unit holds, in order and with their receipts, exactly the messages that fit; exactly those that fail are deleted, exactly the invalid dropped; exactly those that wait are put back, with everything packed after an interruption |
| Filing.DeletedIsHopeless | witness/mining.go:567-658 | Whatever is deleted as failed would fail with any larger pool |
| Filing.PutBackIsShort | witness/mining.go:567-658 | Whatever is put back other than by an interruption found the unit shut, came too early, or failed for want of pool gas, and with the largest pool does not |
| Filing.PoolAccount | witness/mining.go:567-658 | The gas limit is what is left in the pool and what each message tried took out of it; failed messages are not given back what they took |
| Filing.NoGasIsCounted | witness/mining.go:353-410 | The count of messages without gas that a message meets is the number taken before it while the pool held 21000 |
| Filing.PoolHelps | core/gaspool.go:21-28 | With the largest pool no action fails for want of pool gas |
| Mining.NothingLost | witness/mining.go:311-480 | Every message taken is packed, put back, failed or dropped, exactly once |
| StateObjects.GasPool.AddGas | core/gaspool.go:13-19 | Adds to the pool |
| StateObjects.GasPool.SubGas | core/gaspool.go:21-28 | Withdraws, or leaves the pool alone when its low 64 bits do not cover the amount |
| StateObjects.StateDB.GetOrNew | core/state/statedb.go:397-406 | Creates a missing account, measured from zero |
| StateObjects.StateDB.SetBalance | core/state/statedb.go:289-294 | Sets one balance, nothing else |
| StateObjects.StateDB.AddBalance | core/state/statedb.go:274-280 | Adds to one balance |
| StateObjects.StateDB.SubBalance | core/state/statedb.go:282-287 | Takes from one balance |
| StateObjects.StateDB.BumpNonce | core/state_transition.go:334-341 | Advances one nonce |
| StateObjects.StateDB.SetMark | core/state_transition.go:314-318 | Marks an action |
| StateObjects.StateDB.RevertToSnapshot | core/state/statedb.go:539-553 | Undoes balances, nonces and marks; bases of accounts that still exist stay |
| StateObjects.StateDB.ResetInitBalance | core/state/state_object.go:340-343 | Sets one base |
| StateObjects.StateDB.GetBalanceChanged | core/state/statedb.go:600-625 | Lists every account once with its gain and starts measuring afresh |
| TransitionRun.GetGasByData | core/state_transition.go:99-118 | The counting loop gives the price of the data |
| TransitionRun.StateTransition.UseGas | core/state_transition.go:217-224 | Takes gas, or fails and leaves it |
| TransitionRun.StateTransition.BuyGas | core/state_transition.go:226-267 | Buys gas from sender and pool as specified, or fails with the state unchanged but for the touched account |
| TransitionRun.StateTransition.PreApply | core/state_transition.go:158-191 | Gas is bought and the intrinsic part paid as specified, so `ActionLaws.StagePays` says in numbers what is left; a mere check restores the state but not the pool |
| TransitionRun.StateTransition.Execute | core/state_transition.go:332-360 | The action is marked before the run; a plain transfer moves the value or fails for want of it |
| TransitionRun.StateTransition.CalcRefundValue | core/state_transition.go:410-431 | The refund in 64-bit arithmetic (`GasLaws.NetFeeWithoutFree` says what is kept) |
| TransitionRun.StateTransition.RefundGas | core/state_transition.go:398-408 | All gas left goes back to the pool, its price to the sender |
| TransitionRun.StateTransition.Settle | core/state_transition.go:361-396 | Output that cannot be paid for makes the message fail without undoing its run |
| TransitionRun.StateTransition.TransitionDb | core/state_transition.go:320-396 | The whole message, so `GasLaws.MessageGas` and `GasLaws.MessageBalance` hold of it |
| ProcessorRun.CreateReceipt | core/state_processor.go:197-267 | The receipt holds the flows measured from the bases and the output (`DealCalls.DealByCall` ties it to the call), and measuring starts afresh |
| ProcessorRun.CollectFlows | core/state_processor.go:219-239 | The loop keeps exactly the users that gained, and the one to keep anyway |
| ProcessorRun.ApplyPayment | core/state_processor.go:168-195 | State, pool, receipt and every refusal of a payment as specified, so `Conservation.PaymentAccount` holds of it |
| ProcessorRun.ApplyFreeze | core/state_processor.go:525-614 | A freeze or its refusal as specified: check, restore, take the whole amount (`Conservation.FreezeAccount`) |
| ProcessorRun.Fund | core/state_processor.go:354-363 | Balance and base of the sender are the frozen amount |
| ProcessorRun.CloseDeal | core/state_processor.go:387-419 | The sender leaves the chain; its flow is what the contract paid it |
| ProcessorRun.RunDeal | core/state_processor.go:345-421 | One funded run of a contract, as accounted for by `Conservation.DeliveredIff` |
| ProcessorRun.FailRehearsal | core/state_processor.go:316-338 | A failed rehearsal still yields a receipt, and an erroneous one drains the pool a second time |
| ProcessorRun.ApplyDeal | core/state_processor.go:270-421 | A deal with its rehearsal, state of the rehearsal thrown away, as accounted for by `Conservation.DealAccount` |
| ProcessorRun.ApplyToContract | core/state_processor.go:424-471 | Every entry check and the mark, then the deal |
| ProcessorRun.ApplyReceive | core/state_processor.go:486-523 | A transfer is received once, only by its receiver, only if it did not fail (`Conservation.CreditAccount`) |
| ProcessorRun.ApplyRefund | core/state_processor.go:617-655 | The sender gets back the remaining gas at its price, and the value if the deal failed |
| ProcessorRun.ActionContractReceipt | core/state_processor.go:657-694 | A flow is received once, by the account it names |
| ProcessorRun.ProcessTransaction | core/state_processor.go:115-158 | Every action goes to its own procedure, so `GasLaws.ProcessPool` and `Lifecycle.MarkedOnce` hold of it |
| ProcessorRun.Process | core/state_processor.go:45-67 | The replay of a unit: receipts, total gas and state, or nothing after the first error (`Mining.MinerAndValidatorAgree`) |
| ProcessorRun.ProcessMultiTransaction | core/state_processor.go:85-113 | Failed actions are skipped, and the gas of the receipts stays within the limit |
| MiningRun.Miner.HandleTx | witness/mining.go:567-658 | A message runs on a snapshot; a failure puts back everything but the bases |
| MiningRun.Miner.ProcessTx | witness/mining.go:353-410 | One message is packed, put back, deleted or dropped as specified, and the answer says whether the unit is full (`Filing.PackFiles` says which messages go where) |
| MiningRun.Miner.PackTxs | witness/mining.go:311-480 | The loop over queue, clock and interruptions packs what `Mining.Pack` packs, so `Mining.NothingLost` holds of it |
| MiningRun.MineAndReplay | witness/mining.go:216-297 | A unit mined from scratch and replayed by the processor: the replay succeeds with the same accounts and gas, with the same receipts exactly if each hides the bases left by failures, and with the same state if nothing resets a base and then fails |
| Dag.RefRank | core/db_util.go:580-600 | References are acyclic |
| Store.Contiguous | core/db_util.go:62-80 | Below a stored unit every height of its chain is taken, each by the parent of the next |
| Store.TopIsTail | core/db_util.go:96-123 | A unit nothing is built on is the tail of its chain |
| Store.DownAll | core/db_util.go:580-636 | All that a stored unit refers to, directly or not, is stored |
| Store.InsertKeepsIff | core/dagchain_store.go:97-139 | Inserting on top of a chain keeps the store in order if and only if everything referenced is stored |
| Store.ReplacementExtends | core/dagchain_store.go:77-82 | Once the unit of a slot is cleared, a new unit for that slot goes on top of its chain |
| Clearing.ThroughChild | core/db_util.go:638-662 | If all that refers to a unit has bodies, it is or refers to one of the recorded children |
| Clearing.ClearIsExact | core/chain_branch.go:97-161 | If all that refers to the unit has bodies, clearing removes exactly the unit and everything that refers to it, despite diamonds, second visits and stale child entries; then, and for a unit without a body in a quiet store, it keeps the store in order |
| StoreRuns.ChainIndex | core/db_util.go:62-123 | Each chain is indexed contiguously from 1 to its tail and linked by parents |
| StoreRuns.ReplaceKeepsIff | core/dagchain_store.go:77-82 | Replacing the unit of a slot keeps the store in order if and only if the new unit refers to nothing cleared with the old one |
| StoreRuns.RunKeepsFull | core/dagchain_store.go:60-186 | Every run of validated insertions, replacements and clearings keeps the store in order |
| Background.AnyCrashPoint | core/dagchain_store.go:97-290 | Between any two writes of any run (queueing before the header is committed, committing, each count and each entry of a child list, body, marker, clearing what the writer does not hold) chains are in order, units with a body are recorded with all they reference, and every unit without a body is marked |
| Background.ClearKeepsIff | core/dagchain_store.go:77-82 | Clearing a stored unit while the writer is busy keeps all that in order if and only if nothing that is queued or about to be committed refers to the unit |
| BusyClear.ClearedFromUnder | core/dagchain_store.go:77-290 | From the empty store: a unit is stored, the header of one that links to it is committed, the first is cleared, and the writer goes on to store a complete unit whose reference is gone |
| Background.FillAddsKid | core/db_util.go:614-630 | A count without its entry is a hole that adds no child; the entry then adds exactly one |
| Background.NewUnitsAreQuiet | core/dagchain_store.go:292-340 | Without child links left over from an earlier life of a unit, no unit without a body has a stored recorded child |
| Background.FreshStaysFresh | core/dagchain_store.go:188-290 | A run that queues only units never recorded before brings no such links |
| Recovery.ClearIsPost | core/chain_branch.go:97-161 | Clearing takes out, in order, exactly what a walk over the recorded links finds |
| Recovery.TailAfter | core/chain_branch.go:131-140 | A chain's tail is the unit below the one taken last, whatever was taken |
| Recovery.Turn | core/dagchain_store.go:315-337 | Recovering a chain is fatal unless the lowest of its units taken before was taken last, and then takes what the links say |
| Recovery.RestoredIff | core/dagchain_store.go:292-340 | From any crash and in any order of the marked chains, recovery ends in order with exactly the units that have bodies if and only if, chain by chain, the links of earlier chains took the lowest unit last and after its turn all units without a body are taken |
| Recovery.RestartedIff | core/dagchain_store.go:292-340 | The same after any removals of an earlier recovery, in any order: the exact condition for a recovery that is started again |
| Recovery.QuietIsRestorable | core/dagchain_store.go:292-340 | If no unit without a body has a stored recorded child whose successor is unrecorded, that holds in every order |
| Recovery.FreshRunIsRestored | core/dagchain_store.go:188-340 | Recovery restores the store, whatever the order of chains, at any crash of a run that queues only units never recorded before |
| Restart.ClearIsSmooth | core/chain_branch.go:97-161 | In a quiet store, every single removal of a clearing leaves a quiet store in order |
| Restart.AnyNumberOfCrashes | core/dagchain_store.go:292-340 | From a quiet store, recovery can be cut short at any removal, any number of times, in any order of chains: the one that is not cut short ends in order with exactly the units that had bodies |
| Restart.FreshRunSurvives | core/dagchain_store.go:188-340 | So at any crash of a run that queues only units never recorded before, by the markers of the units still stored |
| Restart.IndexGone | core/chain_branch.go:130-140 | A removal that is cut short after the index entry is done again as if it had not begun |
| Restart.TailLowered | core/chain_branch.go:134-160 | Cut short between lowering the tail and deleting the header, the removal of the lowest unit without a body of a chain is never done again: recovering the chain leaves the header |
| OldLinks.OrderMatters | core/dagchain_store.go:292-340 | From the empty store, by inserting two units, clearing one and inserting headers again, a crash is reached that recovery survives in one order of the two marked chains and not in the other |
| DagStore.DagStore.GetHeader | core/dagchain.go:489-528 | Cache and database agree |
| DagStore.DagStore.GetChainTail | core/dagchain.go:427-462 | A cached tail is the stored tail |
| DagStore.DagStore.ClearUnit | core/chain_branch.go:97-161 | The recursion over the entries, holes passed over, is the specified clearing, and terminates |
| DagStore.DagStore.RemoveOne | core/chain_branch.go:121-160 | Index, tail, header, body and caches of one unit |
| DagStore.DagStore.WriteCount | core/db_util.go:614-627 | One count is raised |
| DagStore.DagStore.WriteEntry | core/db_util.go:628-630 | One entry is written |
| DagStore.DagStore.WriteChildrens | core/db_util.go:580-636 | Records the unit with everything it references |
| DagStore.DagStore.WriteHead | core/dagchain_store.go:107-124 | Header, index and tail together |
| DagStore.DagStore.Insert | core/dagchain_store.go:60-152 | Order after an insertion or replacement, with the exact condition |
| DagStore.DagStore.ClearSlot | core/dagchain_store.go:77-82 | Clearing the slot of a special unit while the writer is busy leaves things in order exactly if nothing the writer holds refers to what goes; then exactly the descendants go and the slot is free |
| DagStore.DagStore.CommitHeader | core/dagchain_store.go:107-132 | Header, index, tail and marker: a step of the protocol |
| DagStore.DagStore.InsertAsync | core/dagchain_store.go:97-139 | Queued first, committed after any number of the writer's steps; the invariant holds throughout |
| DagStore.DagStore.WriterStep | core/dagchain_store.go:217-290 | The writer's next single write is a step of the protocol |
| DagStore.DagStore.RecoverOn | core/dagchain_store.go:315-337 | One chain's recovery, fatal if the tail is not stored; only units that are gone lose their markers |
| DagStore.DagStore.CheckData | core/dagchain_store.go:292-340 | The whole recovery; its result is in order if and only if the store was restorable in the order taken, and a fatal end means it was restorable in no continuation of that order; units still stored keep their markers, so it can be started again |
| TxStatusLog.Database.WriteBody | core/db_util.go:178-212 | Through a batch that cannot see its own writes, every log grows by one entry for each place of the unit that has its transaction: the k-th new entry is that of the k-th place |
| TxStatusLog.AddedInOrder | core/db_util.go:178-212 | The k-th entry a unit adds to a log is that of the k-th place of the unit with this transaction, and there are no others |
| TxStatusLog.OthersInOrder | core/db_util.go:414-437 | What a deletion keeps, place by place: the non-matching entries from the last to the first |
| TxStatusLog.Database.AddTransactionStatus | core/db_util.go:461-481 | Appends one entry |
| TxStatusLog.Database.DelTransactionStatus | core/db_util.go:414-437 | The log becomes the non-matching entries, last first; other logs are unchanged |
| TxStatusLog.OthersAreTheRest | core/db_util.go:414-437 | Exactly the matching entries go |
| TxStatusLog.DeleteKeepsOrderIff | core/db_util.go:414-437 | Deleting keeps the order exactly when at most one entry is left |
| Ring.EveryTicketOnce | common/queue/ring.go:87-172 | In every run of any number of producers and consumers, the consumer of ticket k gets the item of the producer of ticket k; no ticket is lost, doubled or overwritten; dequeue <= queue <= dequeue + capacity |
| RingCalls.ProducersPut | common/queue/ring.go:87-122 | In every run, a producer that came back was accepted and won exactly one ticket, under which its item was put; or its offer was turned down, or the ring was disposed of, and it won none |
| RingCalls.ConsumersGet | common/queue/ring.go:124-172 | In every run, a consumer that came back returned the item of the one ticket it won; or its time was up, or the ring was disposed of, and it won none |
| RingAlone.PutAlone | common/queue/ring.go:87-122 | With room, a put or an offer that runs alone ends accepted, with its item published under the next ticket |
| RingAlone.OfferAlone | common/queue/ring.go:87-122 | Without room, an offer that runs alone is turned down and nothing has changed |
| RingAlone.PutSpins | common/queue/ring.go:87-122 | Without room, a put that runs alone goes round for ever and changes nothing |
| RingAlone.PutGoesOn | common/queue/ring.go:87-122 | With room, a put that runs alone from the head of its loop, with whatever ticket it last read, is accepted unless another has won that ticket and not published |
| RingAlone.PutHangs | common/queue/ring.go:87-122 | In that case it goes round, changing nothing, until the other publishes |
| RingAlone.DisposeUnblocks | common/queue/ring.go:87-172 | Disposing of the ring ends every call that comes to the head of its loop |
| RingAlone.GetAlone | common/queue/ring.go:124-172 | With an item there, a get or poll that runs alone returns the oldest |
| RingAlone.GetGoesOn | common/queue/ring.go:124-172 | With an item there, so does one that runs alone from the head of its loop, unless another has won the ticket it last read and not given the node back |
| RingAlone.GetHangs | common/queue/ring.go:124-172 | In that case it goes round, changing nothing, until the other gives the node back or its time is up |
| RingAlone.GetSpins | common/queue/ring.go:124-172 | Without one it goes round, changing nothing, until its time is up |
| RingAlone.BoundedQueue | common/queue/ring.go:87-172 | At rest in any run there is room exactly if the ring holds fewer items than its capacity, and an item exactly if it holds any |
| Ring.StepKeeps | common/queue/ring.go:87-172 | Every atomic step of every thread keeps the invariant |
| Ring.RunKeeps | common/queue/ring.go:87-172 | Every run keeps the invariant |
| RingSize.RoundUp | common/queue/ring.go:27-37 | The least power of two that is at least the size; 0 and sizes above 2^63 give 0 |
| RingSize.MaskFindsSlot | common/queue/ring.go:94-97 | With a capacity of one bit, masking a ticket gives its remainder |
| Ring.SlotIsMasked | common/queue/ring.go:94-97 | The slot of a ticket in a ring of rounded capacity is the masked ticket |
| RingSize.Least | common/queue/ring.go:27-37 | No smaller power of two reaches the size |
| Polymod.FoldApart | common/bech32/bech32.go:217-230 | Up to six symbols leave what as many empty steps leave, with the symbols beside it |
| Polymod.CheckIff | common/bech32/bech32.go:199-215 | Six symbols bring the checksum to 1 if and only if they are the computed ones |
| Bech32.ChecksumVerifiesIff | common/bech32/bech32.go:199-252 | Six symbols verify if and only if they are the checksum |
| Bech32.DecodeEncodeIff | common/bech32/bech32.go:85-99 | Decoding gives back what was encoded if and only if the human-readable part is non-empty, printable, without upper case, and the string within 90 |
| Bech32.DecodesIff | common/bech32/bech32.go:18-82 | A string decodes to two parts if and only if they can be written within the length and it is what they encode to, all in lower case or all in upper case |
| Bech32.NoMixedCase | common/bech32/bech32.go:18-82 | A string with both cases does not decode |
| KnownString.KnownDecodes | common/bech32/bech32.go:18-82 | A valid string of BIP 173 with all 32 characters decodes to the numbers 0 to 31 |
| Bech32.EncodeDecode | common/bech32/bech32.go:18-82 | Encoding what was decoded gives the string in lower case |
| Bech32Run.PolymodOf | common/bech32/bech32.go:217-230 | The loop over the symbols is the fold `Polymod.CheckIff` is about |
| Bech32Run.ExpandHrp | common/bech32/bech32.go:232-243 | High bits, a zero, low bits of the human-readable part |
| Bech32Run.MakeChecksum | common/bech32/bech32.go:199-215 | The only six symbols that verify |
| Bech32Run.CheckChecksum | common/bech32/bech32.go:245-252 | True exactly for a valid checksum |
| Bech32Run.MakeChars | common/bech32/bech32.go:118-129 | Characters of symbols, or a refusal of what is no symbol |
| Bech32Run.MakeBytes | common/bech32/bech32.go:103-116 | Symbols of characters, or none |
| Bech32Run.Encode | common/bech32/bech32.go:85-99 | The string `Bech32.DecodeEncodeIff` is about, or a refusal |
| Bech32Run.Decode | common/bech32/bech32.go:18-82 | Both parts, or a refusal for length, characters, mixed case, separator or checksum (`Bech32.EncodeDecode`) |
| BitGroups.ConvertBits | common/bech32/bech32.go:131-196 | The nested loops give the full words of the bit string, the padded rest, or the refusal |
| BitGroups.BackIff | common/bech32/bech32.go:131-196 | Converting back gives the same words if and only if what is left over fits |
| BitGroups.EightToFiveAndBack | common/bech32/bech32.go:131-196 | Eight to five bits padded and back is the identity |
| BitGroups.FiveToEightAndBack | common/bech32/bech32.go:131-196 | What converts from five to eight bits is what converting back gives |
| BitGroups.ConvertIff | common/bech32/bech32.go:131-196 | A conversion has exactly one result |
| Account.AddressRoundTrip | common/account.go:248-328 | The string of every 20-byte hash but zero decodes to that hash and the prefix its first four bytes fix: nsc for a contract, nts for a user |
| Account.AddressIsCanonical | common/account.go:282-328 | A string that decodes to a hash other than zero is, up to case, the string of that hash |
| Account.EmptyIsNoAddress | common/types.go:37-39 | The text that stands for no address has no valid checksum |
| Account.SetBytes | common/account.go:96-102 | The bytes at the end of the hash, zeros in front; of more than twenty the first are cut off |
| Account.BytesToAddress | common/account.go:96-110 | The last twenty bytes, zeros in front, with the prefix their first four fix |
| Bitset.DecodeIff | common/bitutil/compress.go:115-170 | Decoding accepts exactly the compressed forms and undoes the compression |
| Bitset.DecodesBack | common/bitutil/compress.go:130-170 | The compressed form is found again in front of any other data |
| Bitset.EncodesBack | common/bitutil/compress.go:71-97 | What is accepted is the compressed form of the result |
| Bitset.RoundTrip | common/bitutil/compress.go:60-113 | Every byte string survives compression and decompression |
| Bitset.CanonicalIff | common/bitutil/compress.go:102-113 | What decompresses is the compressed form of the result unless it was stored as it is though it could be shorter |
| Bitset.EncodeBytes | common/bitutil/compress.go:71-97 | The compressed form, bit masks and recursion included |
| Bitset.FillBytes | common/bitutil/compress.go:151-168 | The loop distributes the bytes as specified, every error included |
| Bitset.DecodePartialBytes | common/bitutil/compress.go:130-170 | Result, used size and every error of partial decoding |
| Bitset.DecodeBytes | common/bitutil/compress.go:115-124 | Ok exactly for compressed forms |
| Bitset.CompressBytes | common/bitutil/compress.go:60-67 | Never longer, and decompresses to the data |
| Bitset.DecompressBytes | common/bitutil/compress.go:102-113 | Undoes CompressBytes |
| Radix.ThereAndBack | common/base58/base58.go:17-75 | Digits of any base, leading zeros included, survive conversion to any other base and back |
| Base58.AlphabetIs | common/base58/alphabet.go:9-14 | The alphabet, read out |
| Base58.DecodeEncode | common/base58/base58.go:17-75 | Decoding gives back every byte string |
| Base58.EncodeDecodeIff | common/base58/base58.go:17-75 | Encoding gives back exactly the texts over the alphabet |
| Base58.MakeChars | common/base58/base58.go:53-58 | The digits of the number, lowest first |
| Base58.AddOnes | common/base58/base58.go:60-66 | A one for every leading zero byte |
| Base58.Reverse | common/base58/base58.go:68-72 | In-place reversal |
| Base58.ReadNumber | common/base58/base58.go:18-32 | The number the characters stand for, or that one is unknown |
| Base58.Encode | common/base58/base58.go:49-75 | A text that decodes to the bytes |
| Base58.Decode | common/base58/base58.go:17-46 | The bytes, which encode to the text again, or nothing for an unknown character |
| Feed.RequestFinds | event/feed.go:104-125 | A removal request always finds its channel, so deleting never goes out of range |
| Feed.StepKeeps | event/feed.go:104-185 | Every step of subscribers and senders is possible and keeps the invariant: the prefix of the list is those still to be served, the rest those served and present |
| Feed.NeverOutOfRange | event/feed.go:205-227 | In no run is an index out of range |
| Feed.SendServes | event/feed.go:129-185 | During a send the removals split into those not yet served and those served |
| Feed.SendAccounts | event/feed.go:129-185 | At the end everyone there at the start was served once or left first; the result is the number served |
| Feed.WaitsForTheTried | event/feed.go:151-177 | When a send waits, it has tried in vain, since it began or last waited, exactly those who are neither served nor gone, each once |
| Feed.SendIsBounded | event/feed.go:151-177 | However many others subscribe and leave, a send takes a bounded number of steps |
| FeedRun.FindCase | event/feed.go:208-215 | First place of a channel |
| FeedRun.DeleteCase | event/feed.go:218-220 | In-place shift |
| FeedRun.DeactivateCase | event/feed.go:223-227 | In-place swap |
| FeedRun.EventFeed.Subscribe | event/feed.go:73-93 | A new channel waits in the inbox: a step of the protocol |
| FeedRun.EventFeed.Cancel | event/feed.go:104-115 | A channel no send has seen leaves at once, another becomes a request: a step of the protocol |
| FeedRun.EventFeed.RemoveIdle | event/feed.go:117-125 | A request is met while no send runs: a step of the protocol |
| FeedRun.EventFeed.Join | event/feed.go:134-137 | Inbox into the list |
| FeedRun.EventFeed.Scan | event/feed.go:155-161 | The scan without blocking is a run of steps |
| FeedRun.EventFeed.Select | event/feed.go:166-176 | One blocking choice is a step |
| FeedRun.EventFeed.Send | event/feed.go:129-185 | The whole send is a run of the protocol: served once or left first, count, termination |
| DataSet.SubKeyOnce | ntsdb/set.go:39-46 | No two rows of a set share a database key |
| DataSet.SubKeyReads | ntsdb/set.go:39-46 | The key of every kind of row, read out |
| DataSet.IndicesSort | ntsdb/set.go:16-27 | Indices sort in the database as the numbers they are |
| DataSet.DenotesOnce | ntsdb/set.go:48-173 | A database denotes one sequence at most |
| DataSet.ExistIff | ntsdb/set.go:133-140 | A key is found exactly where it is |
| DataSet.AddDenotes | ntsdb/set.go:93-101 | A new key joins at the end; a present one changes nothing |
| DataSet.AddKeepsIff | ntsdb/set.go:93-101 | Adding a new key leaves a set if and only if the key is not empty and the count does not wrap |
| DataSet.RemoveAtDenotes | ntsdb/set.go:143-165 | The key leaves, the last takes its place; an index outside changes nothing |
| DataSet.OthersStay | ntsdb/set.go:143-165 | Every other item stays with its value |
| DataSet.OpKeepsIff | ntsdb/set.go:88-173 | An operation leaves a set if and only if it fits, and then the right one |
| DataSet.RunDenotes | ntsdb/set.go:88-173 | After any fitting operations the tables denote one duplicate-free sequence |
| DataSet.EmptyDenotes | ntsdb/set.go:32-37 | Every set starts empty |
| DataSetRun.Database.AddWithValue | ntsdb/set.go:93-101 | A fitting key joins at the end, or its index is returned |
| DataSetRun.Database.RemoveByIndex | ntsdb/set.go:143-165 | The key leaves, the last takes its place, all four tables agree again |
| DataSetRun.Database.Remove | ntsdb/set.go:166-173 | True exactly for a member, which then is gone |
| DataSetRun.Database.Contains | ntsdb/set.go:133-140 | Membership and index |
| DataSetRun.Database.Range | ntsdb/set.go:118-130 | Visits each member once, in order, until told to stop |
| DataSetRun.Database.Update | ntsdb/set.go:70-80 | Index, key and, if there is one, value row, nothing else |
| DataSetRun.Database.Clear | ntsdb/set.go:82-86 | Index, key and value row emptied, nothing else |

## Left out

- Background.AnyCrashPoint: the removals of one clearing are one step there, a run starts without bodies of units that have no header, and the state trie and the fee table the writer also writes are not part of the store.
- DagStore.DagStore.CheckData: the tail is read as a header, although the program loads the whole unit (core/dagchain.go:438-441) and a unit without a body does not load.
- Restart.AnyNumberOfCrashes: recoveries are cut short between removals; the writes inside one removal are the subject of `Restart.IndexGone` and `Restart.TailLowered` only, and a body left without its header is not followed up.
- Ring.EveryTicketOnce: tickets do not wrap at 64 bits, and the capacity is at least two.
- Feed.SendAccounts: channels are counted with multiplicity, so a channel subscribed twice is served twice.
- BitGroups.ConvertBits: shifts and `|` are arithmetic on bytes.
- Base58.Encode: the growing buffer is a sequence until it is reversed in place.
- DataSet.AddKeepsIff: a length entry of one to three bytes, which the set never writes, counts as zero instead of a panic.
- Accounts foreign to a chain that are removed in its first unit, unknown virtual machines, logs, blooms, roots, simulation and debugging options.
- The sorted order of balance changes, which only fixes the order of flows in a receipt.
- The counter of total gas is advanced by the caller; this differs only where adding a refund overflows 64 bits, which the bounds on gas exclude.
- Arbitration, `recoveryChain`, `clearUnit` with `delAll` false, and the return of removed transactions to the pool.
- Deletion of child lists: its keys are not the ones that are written, so lists only grow.
- `RingBuffer.Len`, which reads two counters one after the other.
- Action values other than the eight the program defines, on which it panics; what `GetTxNextActions` emits is among the eight.
- Aliasing of slices in `append`.
- Deriving the next action of a deployment from the log (`GetTxNextAction`).
- Transaction pool, witness selection, votes and the BFT engine, networking, RPC, node, configuration, and database wrappers.
- `common/objectpool`, `common/chancluster`, `common/batch`, `common/set`, `common/graph`, `lazy_queue.go`, `hexutil`: no further hard properties, or none the code enforces.
