# QuGate in Dafny

QuGate is a Qubic smart contract. It stores up to 4096 payment "gates".
Each gate takes the amount sent to it and forwards it according to its mode:

- SPLIT: by fixed ratios.
- ROUND_ROBIN: to one recipient after another.
- THRESHOLD: holds amounts until they reach a threshold.
- RANDOM: to a recipient picked from the running total and the tick.
- CONDITIONAL: to the first recipient, but only from whitelisted senders.

The owner creates a gate by paying a fee. The fee rises with the number of gates in service, and it is burned.
The owner can update or close the gate.
At the end of each epoch, gates left idle for `expiryEpochs` epochs are closed.
A closed slot goes onto a free stack and is reused by the next creation.

This project models the contract state machine of `contract_qugate.cpp`: the `QuGateTest` class, its constants and its `QPI::div`/`QPI::mod` shim.
Each procedure is a pure function from a `State` to an `Outcome`. An `Outcome` holds:

- the new state;
- the procedure's output;
- the sequence of `Transfer` and `Burn` effects the procedure asks the ledger to perform.

The invocator, the invocation reward, the epoch and the tick are parameters.

Modules, in dependency order:

- `Qpi` (qpi.dfy): ids, 16-bit epochs, `div`/`mod`, and the uint64 decrement.
- `Wrappers` (wrappers.dfy): `Option`.
- `GateModel` (gate_model.dfy): the following.
  - The constants, modes and status codes.
  - `Gate`, the model of `GateConfig`.
  - `State`, the model of `QuGateState`. Its `_freeSlots`/`_freeCount` pair is one sequence, `freeSlots`, whose top is its last element.
  - The procedure inputs and outputs.
  - Effects.
- `Routing` (routing.dfy): the per-mode forwarding done by `sendToGate`.
- `QuGate` (qugate.dfy): the procedures and queries.
- `Store` (store.dfy): the invariants and their preservation by every call and by runs of calls.
  - `SlotsAgree` is the slot bookkeeping. It ties the free stack and the two counters together.
  - `ValidAsWritten` adds that every gate in service is in shape. The procedures as written keep it.
  - `Valid` adds that every round-robin cursor is inside its recipient count. The corrected procedures keep it.
- `Properties` (properties.dfy): the following.
  - Fee tiers.
  - Round-robin rotation.
  - Conservation of value.
  - Slot reuse.
  - Expiry.
- `Finding` (finding.dfy): the two discrepancies listed under Findings.
- `Scenarios` (scenarios.dfy): the gtest cases, restated on concrete inputs.

Points of `contract_qugate.cpp` that the model follows exactly:

- SPLIT gives the rounding remainder to the last recipient (lines 486-487).
- CONDITIONAL forwards the whole amount to the first recipient (521), and hands a sender that is not on the whitelist its amount back with status −12 (524-525).
- A zero amount is answered with `DUST_AMOUNT`, and nothing is burned or refunded (461-464).
- Close and update check the owner before checking that the gate is active (549-556, 592-601).
- The free stack is LIFO: a create pops the slot most recently pushed (393-395), and close and expiry push (567-568, 673-674).
- `closeGate` hands the reward back only on success (570); its three rejections return without a transfer (542-556).
- `updateGate` does not touch `roundRobinIndex` (635-654).

The last two points are listed under Findings. `Store.Step` and `Store.Run` use the corrected close and update. `Store.StepAsWritten` and `Store.RunAsWritten` use the procedures as written, and the model states separately what each machine keeps.

## Model

| member | source | states |
|---|---|---|
| Qpi.Div | contract_qugate.cpp:56 | `div(a, b)` is 0 for b = 0, else the unique q with q·b ≤ a < q·b + b |
| Qpi.Mod | contract_qugate.cpp:57 | `mod(a, b)` is 0 for b = 0, else below b and a = div(a, b)·b + r |
| Qpi.EpochsSince | contract_qugate.cpp:665 | the uint16 difference of two epochs: below 2^16, the plain difference when no wrap, the difference plus 2^16 when the epoch counter wrapped |
| Qpi.DecrementU64 | contract_qugate.cpp:565 | `_activeGates -= 1` subtracts one from a positive counter and wraps 0 to 2^64 − 1 |
| GateModel.DecodeMode | contract_qugate.cpp:146-150 | a mode byte is accepted exactly when it is at most 4, and decodes to the mode with that code |
| GateModel.Init | contract_qugate.cpp:278-288 | INITIALIZE leaves no gates, no free slots, no gate in service, no balance held and nothing burned, and sets the creation fee to 1000, the minimum send to 10 and the expiry to 50 epochs |
| QuGate.CurrentEscalatedFee | contract_qugate.cpp:299-301 | the creation fee is never below the base fee, and equals it below 1024 gates in service |
| Properties.FeeTier | contract_qugate.cpp:299-301 | with between k·1024 and (k+1)·1024 − 1 gates in service, the fee is (k+1) times the base fee |
| Properties.FeeMonotone | contract_qugate.cpp:299-301 | more gates in service never lower the fee |
| QuGate.CreateCheck | contract_qugate.cpp:316-362 | each refusal is reported exactly when every earlier check passes and its own fails, in the source's order: fee −7, mode −4, recipient count −5, capacity −8, ratios −6, threshold −10, whitelist size −11; success exactly when all pass |
| QuGate.AdmitGate | contract_qugate.cpp:364-413 | an accepted create burns exactly the current fee, returns the excess to the creator, stores the new gate in the popped free slot or the next fresh slot, reports id = slot + 1, and changes no other field |
| QuGate.CreateGate | contract_qugate.cpp:304-414 | success exactly for acceptable requests; the effects always total the reward; a rejection changes nothing, burns nothing and hands the whole reward back with gate id 0 and fee 0 |
| Routing.SplitSharesExact | contract_qugate.cpp:482-495 | SPLIT shares add up to exactly the amount; every share but the last is ⌊amount·ratio / total⌋; the last share is at least its own quotient |
| Routing.SplitForward | contract_qugate.cpp:479-496 | SPLIT pays the positive shares in recipient order, forwards the whole amount and only raises `totalForwarded` |
| Routing.RoundRobinForward | contract_qugate.cpp:497-501 | ROUND_ROBIN pays the cursor's recipient the whole amount and advances the cursor to (cursor + 1) mod count |
| Routing.ThresholdForward | contract_qugate.cpp:502-509 | THRESHOLD holds the amount until the balance reaches the threshold, then flushes the whole balance to the first recipient; afterwards the balance is below the threshold |
| Routing.RandomPick | contract_qugate.cpp:511 | the RANDOM index is (totalReceived + tick) mod count, always a valid recipient index |
| Routing.RandomForward | contract_qugate.cpp:510-514 | RANDOM pays one of the gate's recipients the whole amount |
| Routing.ConditionalForward | contract_qugate.cpp:515-527 | CONDITIONAL forwards to the first recipient exactly when the sender is among the first `allowedSenderCount` whitelisted keys, and otherwise refunds the sender with status −12 |
| Routing.Route | contract_qugate.cpp:479-527 | forwarding changes only the flow fields of a gate, burns nothing, and what it pays out plus what the gate holds equals what came in plus what it held |
| QuGate.SendToGate | contract_qugate.cpp:439-531 | the guards in the source's order: an unknown id (−1) or an inactive gate (−2) refunds the sender; zero is answered without effect; an amount below the minimum is burned; otherwise the gate records the epoch and the receipt, and the status, the transfers and the new gate are those its mode's forwarding rule (`Route`) gives |
| QuGate.CloseGateAsWritten | contract_qugate.cpp:534-573 | as written: success exactly for the active gate's owner; an unknown id gets −1, a non-owner −3, the owner of an inactive gate −2; on success the gate is closed, its balance goes to the owner, its slot goes on the free stack, the counter drops by one and the reward is refunded; a rejection has no effect at all |
| QuGate.CloseGate | contract_qugate.cpp:534-573 | the same statuses and the same successful close, except that a rejection refunds the reward, as every other procedure does |
| QuGate.UpdateGateAsWritten | contract_qugate.cpp:576-658 | as written: always refunds the reward; success exactly for `UpdateAcceptable`; otherwise the first failing check names the status: unknown id −1, non-owner −3, inactive −2, recipient count −5, whitelist size −11, ratios −6, threshold −10; on success it replaces recipients, ratios, threshold and whitelist with zero padding, and keeps mode, owner, counters, balance and cursor |
| QuGate.RewindCursor | contract_qugate.cpp:497-501 | brings the round-robin cursor inside the recipient count, leaving a cursor that is already inside unchanged |
| QuGate.UpdateGate | contract_qugate.cpp:576-658 | the update as written, with the same statuses, and with the cursor brought back inside the new count; identical to the as-written update whenever the cursor is already inside |
| QuGate.SweepFrom | contract_qugate.cpp:662-677 | the sweep closes exactly the expiring gates from slot i onward, with nothing held and nothing else changed, touches no other part of the state than the gates, the counter and the free stack, and burns nothing |
| QuGate.SweepSlots | contract_qugate.cpp:662-675 | the sweep pushes the slots it closes on the free stack in ascending order and lowers the active counter by their number |
| QuGate.SweepKeepsLive | contract_qugate.cpp:662-670 | after the sweep a gate below the count is in service exactly when it was in service and has not expired |
| QuGate.SweepRefundsOwners | contract_qugate.cpp:662-669 | the sweep hands each expiring gate's balance back to that gate's owner, in slot order, and pays nobody else |
| QuGate.EndEpoch | contract_qugate.cpp:661-678 | a gate stays in service exactly when it was in service and has not expired; an expired gate is closed with nothing held and nothing else changed; the free stack grows by the expiring slots; each expired gate's balance goes to its own owner, in slot order, nothing is burned, and the fees, the minimum send and the expiry setting are untouched |
| QuGate.GetGate | contract_qugate.cpp:681-701 | an unknown id reads as the all-zero inactive record; a known id reads all twelve reported fields of the stored gate: mode byte, counts, flag, owner, counters, balance, threshold, epochs, recipients and ratios |
| QuGate.GetGateCount | contract_qugate.cpp:704-710 | reports the slots handed out, the gates in service and the total burned |
| QuGate.GetFees | contract_qugate.cpp:713-720 | reports the base fee, the escalated fee at the current number of gates in service, the minimum send and the expiry period; the current fee is never below the base fee |
| Store.NewGateOk | contract_qugate.cpp:364-390 | a gate built from an accepted request satisfies the per-gate invariant |
| Store.RoutedGateOk | contract_qugate.cpp:476-529 | routing a payment keeps a gate in shape (forwarded plus held equals received, at most received for CONDITIONAL), and keeps its cursor inside the count when it was inside |
| Store.UpdatedGateOk | contract_qugate.cpp:635-654 | an accepted update keeps a gate in shape, and the corrected update also keeps its cursor inside the count |
| Store.InitValid | contract_qugate.cpp:278-288 | the initial store satisfies the store invariant |
| Store.CreateKeepsSlots | contract_qugate.cpp:392-406 | creation keeps the slot bookkeeping: free-stack size plus gates in service equals slots used, no slot twice on the stack, and the stack is exactly the closed slots |
| Store.SendKeepsSlots | contract_qugate.cpp:439-531 | sending keeps the slot bookkeeping |
| Store.CloseKeepsSlots | contract_qugate.cpp:558-568 | both closes keep the slot bookkeeping, and the as-written close lowers the counter by exactly one, so it never wraps |
| Store.UpdateKeepsSlots | contract_qugate.cpp:576-658 | both updates keep the slot bookkeeping |
| Store.EndEpochKeepsSlots | contract_qugate.cpp:661-678 | the expiry sweep keeps the slot bookkeeping |
| Store.CreatePreservesValid | contract_qugate.cpp:304-414 | creation keeps the as-written invariant and the full invariant |
| Store.SendPreservesValid | contract_qugate.cpp:439-531 | sending keeps the as-written invariant and the full invariant |
| Store.ClosePreservesValid | contract_qugate.cpp:534-573 | the close as written keeps the as-written invariant; the corrected close keeps the full invariant; a successful close lowers the counter by exactly one |
| Store.UpdatePreservesValid | contract_qugate.cpp:576-658 | the update as written keeps the as-written invariant; the corrected update keeps the full invariant |
| Store.EndEpochPreservesValid | contract_qugate.cpp:661-678 | the expiry sweep keeps the as-written invariant and the full invariant |
| Store.RunPreservesValid | contract_qugate.cpp:304-678 | any sequence of calls to the contract with the corrected close and update keeps the full invariant |
| Store.ReachableValid | contract_qugate.cpp:278-678 | every store the contract with the corrected close and update reaches from INITIALIZE satisfies the full invariant |
| Store.StepAsWrittenPreservesValid | contract_qugate.cpp:304-678 | every call to the contract as written keeps the as-written invariant |
| Store.RunAsWrittenPreservesValid | contract_qugate.cpp:304-678 | any sequence of calls to the contract as written keeps the as-written invariant: the slot bookkeeping, and every gate in service in shape |
| Store.ReachableAsWrittenSlotsAgree | contract_qugate.cpp:278-678 | every store the contract as written reaches from INITIALIZE keeps the slot bookkeeping and every gate in service in shape |
| Properties.RoundRobinAdvance | contract_qugate.cpp:497-501 | n round-robin payments make n transfers, move the cursor n places modulo the count, and forward n times the amount |
| Properties.RoundRobinRotationAt | contract_qugate.cpp:497-501 | the j-th of n round-robin payments, on its own, goes to the recipient j places after the cursor |
| Properties.RoundRobinRotation | contract_qugate.cpp:497-501 | the j-th of n round-robin payments goes to the recipient j places after the cursor |
| Properties.RoundRobinFullTurn | contract_qugate.cpp:497-501 | `count` payments pay every recipient once and bring the cursor back to where it started |
| Properties.SendsRoundRobin | contract_qugate.cpp:497-501 | n successive sends to a ROUND_ROBIN gate pay exactly what n round-robin forwards pay, and leave the cursor where they leave it |
| Properties.SendsFullTurn | contract_qugate.cpp:439-531 | `recipientCount` sends to a ROUND_ROBIN gate pay every recipient once and bring the cursor back |
| Properties.SweepConservesValue | contract_qugate.cpp:661-678 | the sweep pays out exactly the balances it takes from the gates it closes |
| Properties.CreateConservesValue | contract_qugate.cpp:304-414 | what a create brings in is burned or handed back |
| Properties.SendConservesValue | contract_qugate.cpp:439-531 | what a send brings in is forwarded, held, burned or refunded |
| Properties.CloseConservesValue | contract_qugate.cpp:534-573 | what a close brings in and releases is handed back |
| Properties.UpdateConservesValue | contract_qugate.cpp:576-658 | what an update brings in is handed back, both as written and corrected |
| Properties.CallConservesValue | contract_qugate.cpp:304-678 | with the corrected close, no call creates or destroys value: held before plus attached equals held after plus paid out |
| Properties.CallAsWrittenConservesValue | contract_qugate.cpp:304-678 | as written, every call but a rejected close conserves value; a rejected close leaves the holdings as they were and pays out nothing, so its reward stays with the contract |
| Properties.GateCountAgrees | contract_qugate.cpp:704-710 | in a valid store, `getGateCount` reports no more gates in service than issued, the difference is the free stack, and every issued id is in service or on the free stack |
| Properties.CreateCounts | contract_qugate.cpp:392-406 | a successful create adds one gate in service, issues a new id exactly when the free stack was empty, and adds the current fee to the burn total |
| Properties.QuotedFeeIsCharged | contract_qugate.cpp:713-720 | the current fee `getFees` reports is the one `createGate` applies: paying less is refused as insufficient, and an accepted create burns exactly that fee and returns the rest |
| Properties.CreateThenGet | contract_qugate.cpp:364-407 | a new gate reads back as requested, recipients and ratios included, with zero counters and zero padding, even in a reused slot |
| Properties.CloseThenCreateReusesSlot | contract_qugate.cpp:392-402 | the create that follows a close gets the closed gate's id back, and the free stack and slot count are as before the close |
| Properties.RejectionChangesNothing | contract_qugate.cpp:316-362 | a rejected create, close or update leaves the store as it was; a send the guards stop changes at most the burn total |
| Properties.SendPostponesExpiry | contract_qugate.cpp:476 | a routed payment stamps the gate with its epoch, so it does not expire before `expiryEpochs` epochs have passed |
| Properties.EpochWrap | contract_qugate.cpp:665 | idle time is measured modulo 2^16, so a gate last active at 65530 has been idle 10 epochs at 4 |
| Finding.AsWrittenUpdateStrandsCursor | contract_qugate.cpp:635-654 | as written, shrinking a round-robin gate below its cursor breaks the store invariant, and the next payment goes to the zero key |
| Finding.UpdatedRoundRobinPaysRecipient | contract_qugate.cpp:497-501 | with the corrected update, the next round-robin payment goes to a recipient the update named |
| Finding.CorrectionIsConservative | contract_qugate.cpp:576-658 | the corrected update is the as-written one whenever the cursor stays inside the new count |
| Finding.AsWrittenCloseKeepsReward | contract_qugate.cpp:542-556 | as written, a rejected close with a reward neither holds nor returns it |
| Finding.CloseRewardExample | contract_qugate.cpp:548-551 | a stranger's close with 100 attached gets −3 and nothing back as written, and the 100 back when corrected |
| Scenarios.SplitEvenTwo | contract_qugate.cpp:747-758 | 1000 split 50/50 pays 500 each |
| Scenarios.SplitUnevenThree | contract_qugate.cpp:760-771 | 10000 split 50/30/20 pays 5000, 3000, 2000 |
| Scenarios.SplitHandlesRoundingDust | contract_qugate.cpp:773-783 | 100 split 33/33/34 pays 33, 33, 34 |
| Scenarios.RoundRobinCycles | contract_qugate.cpp:785-803 | four payments go to BOB, CHARLIE, DAVE, BOB |
| Scenarios.ThresholdAccumulatesAndReleases | contract_qugate.cpp:805-820 | with a threshold of 500, two payments of 200 are held and the third releases 600 to BOB |
| Scenarios.ConditionalAllowsWhitelisted | contract_qugate.cpp:822-832 | a whitelisted sender's 500 goes to DAVE |
| Scenarios.ConditionalBouncesUnauthorised | contract_qugate.cpp:834-845 | a stranger's 500 comes back with status −12 |
| Scenarios.InvalidGateIdBounces | contract_qugate.cpp:847-852 | a payment to gate 999 comes back with status −1 |
| Scenarios.CreationFailsWithInsufficientFee | contract_qugate.cpp:854-861 | a create paying 500 fails with −7 and the 500 comes back, as the 1313-1321 test also expects |
| Scenarios.ZeroAmountDoesNothing | contract_qugate.cpp:863-872 | a zero payment changes nothing and pays nothing |
| Scenarios.GateCountTracking | contract_qugate.cpp:874-885 | three creates give three slots used and three gates in service |
| Scenarios.EscalatingFeeAtZeroGates | contract_qugate.cpp:893-904 | with no gates in service the fee is 1000 and is charged in full |
| Scenarios.EscalatingFeeAtHighLoad | contract_qugate.cpp:906-939 | at 1024 and 2048 gates the fee is 2000 and 3000; 1999 is refused at 1025 |
| Scenarios.FeeSchedule | contract_qugate.cpp:1247-1264 | the fee is 1000, 2000, 2000, 3000, 4000 at 0, 1024, 1025, 2048, 3072 gates in service |
| Scenarios.FeeOverpaymentRefund | contract_qugate.cpp:943-953 | paying 5000 burns 1000 and returns 4000 |
| Scenarios.DustBurnBelowMinSend | contract_qugate.cpp:957-969 | a payment of 5 is burned, for 1005 burned in all |
| Scenarios.ExactMinSendNotDust | contract_qugate.cpp:971-981 | a payment of exactly 10 reaches BOB |
| Scenarios.CreateStatusCodes | contract_qugate.cpp:985-1015 | mode 99, zero recipients, a zero ratio, a ratio of 10001, a zero threshold and nine whitelisted senders are refused with −4, −5, −6, −6, −10, −11 |
| Scenarios.RejectedCreateRefunds | contract_qugate.cpp:321-325 | a create with mode 99 is refused with −4, the 1000 comes back, and the store is unchanged |
| Scenarios.SendToInactiveGate | contract_qugate.cpp:1017-1026 | a payment to a closed gate comes back with −2 |
| Scenarios.CloseStatusCodes | contract_qugate.cpp:1028-1042 | a stranger's close gets −3, a close of gate 999 gets −1 |
| Scenarios.UpdateStatusCodes | contract_qugate.cpp:1044-1070 | an update of gate 999 gets −1, a stranger's update gets −3 |
| Scenarios.CloseGateSuccessAndTwice | contract_qugate.cpp:1268-1288 | a close succeeds and leaves no gate in service; a second close gets −2 |
| Scenarios.TotalBurnedTracking | contract_qugate.cpp:1167-1186 | a fee, a dust payment and a fee give 1000, 1005, 2005 burned |
| Scenarios.GetFeesReturnsCorrectValues | contract_qugate.cpp:1190-1202 | the initial fees read 1000, 1000, 10, 50 |
| Scenarios.FreeListSlotReuse | contract_qugate.cpp:1074-1096 | after closing gate 1 of 2, the next create gets id 1 and the free stack is empty again |
| Scenarios.GateExpiryAutoClose | contract_qugate.cpp:1100-1118 | a gate idle from epoch 100 is closed at 150 |
| Scenarios.GateExpiryRefundsBalance | contract_qugate.cpp:1120-1142 | the 500 an expiring threshold gate holds goes back to ALICE |
| Scenarios.GateNotExpiredIfActive | contract_qugate.cpp:1144-1163 | a gate paid at 140 is still in service at 150 |
| Scenarios.LastActivityEpochUpdates | contract_qugate.cpp:1206-1243 | a payment at 120 and an update at 130 move the activity stamp from 100 |
| Scenarios.StrandedCursorExample | contract_qugate.cpp:635-654 | a 3-recipient round-robin gate paid twice and updated to 2 recipients pays the zero key as written and BOB when corrected |

## Left out

- Amounts, rewards and counters are unbounded naturals. uint64 overflow of `totalReceived`, `totalForwarded`, `currentBalance`, `_totalBurned`, the fee product, the SPLIT share product `amount * ratio` (line 489) and the RANDOM sum `totalReceived + tick` (line 511) is not modelled. The one exception is the `_activeGates` decrement, which is written with wrap-around and shown never to wrap in a valid store.
- Routing.SplitSharesExact: states every share but the last as the exact floor of `amount * ratio / total`; the source forms the product in uint64 at line 489, so the statement holds for the source only while `amount * ratio < 2^64` (for ratio 10000, amounts below about 1.8 * 10^15). Above that the product wraps and the source pays smaller shares and a larger last share.
- Routing.SplitForward: pays the unwrapped shares, under the same `amount * ratio < 2^64` bound as `Routing.SplitSharesExact`.
- Routing.RandomPick: takes `totalReceived + tick` without the uint64 wrap of line 511, so it picks as the source does only while that sum is below 2^64.
- Amounts and rewards are `sint64` in the source; negative values are not modelled. The source guards refunds with `amount > 0` and `reward > 0`, and the model's `Refund` emits nothing for 0.
- `id` is a 32-byte union compared with `memcmp`. It is modelled as a natural number, with 0 as the all-zero key.
- `TestQpiContext` is replaced by the effect sequence. Its 64-entry transfer buffer and its per-call reset are not modelled.
- The invocator, reward, epoch and tick are parameters of each procedure. `makeId`, `createGateSimple` and `makeSimpleGate` are test builders; the `Scenarios` functions `Ids`, `Ratios`, `Request` and `SplitTo` play their role.
- The tests' direct writes to `_activeGates` are modelled in `Scenarios.EscalatingFeeAtHighLoad` as the initial store with only that field changed. The store invariant lemmas do not cover such states, because the write breaks the invariant.
- `InvalidSenderCountRejected` passes a one-element whitelist with a count of 9, so `createGateSimple` reads past the array. The model takes the whitelist as an eight-entry array and checks only the count.
- `Store.Valid` does not require a THRESHOLD gate's balance to be below its threshold. `updateGate` can lower the threshold under a held balance, which stays held until the next payment flushes it.
- The Python tests drive a deployed contract over the network and are not modelled.

## Findings

| source | as written | input that shows it | evidently intended | confidence | as-written member | corrected member |
|---|---|---|---|---|---|---|
| contract_qugate.cpp:635-654 | `updateGate` replaces the recipient count and pads the unused slots with the zero key, but keeps `roundRobinIndex` | a ROUND_ROBIN gate over three recipients, paid twice (cursor 2), updated to two recipients; the next payment goes to `recipients[2]`, now the zero key | the cursor stays inside the recipient count, as `sendToGate` keeps it at line 500 | not executed; high | Finding.AsWrittenUpdateStrandsCursor | QuGate.UpdateGate |
| contract_qugate.cpp:542-556 | a rejected `closeGate` returns without transferring the invocation reward back | a stranger closes ALICE's gate with a reward of 100: status −3 and no transfer | every rejection hands the attached value back, as `createGate`, `sendToGate` and `updateGate` do and as the close success path does at line 570 | not executed; medium, because keeping it could be deliberate | Finding.AsWrittenCloseKeepsReward | Properties.CloseConservesValue |
