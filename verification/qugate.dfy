/** The QuGate procedures and queries. Each procedure is a pure transition
    from the contract state, the caller, the attached amount and the
    ledger's epoch and tick to the next state, the procedure's output, and
    the transfers and burns it issues, in order. */
module QuGate {
  import opened Qpi
  import opened Wrappers
  import opened GateModel
  import opened Routing

  // ---------------------------------------------------------------------
  // Shared pieces
  // ---------------------------------------------------------------------

  /** Whether `gateId` names a slot that has been handed out: 1..gateCount. */
  predicate ValidId(s: State, gateId: nat) {
    1 <= gateId <= s.gateCount
  }

  /** The creation fee at the current number of active gates:
      creationFee * (1 + activeGates / 1024). */
  function CurrentEscalatedFee(s: State): (fee: nat)
    ensures fee >= s.creationFee
    ensures s.activeGates < FEE_ESCALATION_STEP ==> fee == s.creationFee
  {
    var steps := Div(s.activeGates, FEE_ESCALATION_STEP);
    assert s.creationFee * (1 + steps) == s.creationFee + s.creationFee * steps;
    s.creationFee * (1 + steps)
  }

  /** The first `n` identities of `xs`, followed by zero keys. */
  function PadIds(xs: IdArray, n: nat): (r: IdArray)
    ensures forall i :: 0 <= i < MAX_RECIPIENTS ==> r[i] == if i < n then xs[i] else ZERO_ID
  {
    seq(MAX_RECIPIENTS, i requires 0 <= i < MAX_RECIPIENTS => if i < n then xs[i] else ZERO_ID)
  }

  /** The first `n` ratios of `xs`, followed by zeroes. */
  function PadRatios(xs: RatioArray, n: nat): (r: RatioArray)
    ensures forall i :: 0 <= i < MAX_RECIPIENTS ==> r[i] == if i < n then xs[i] else 0
  {
    seq(MAX_RECIPIENTS, i requires 0 <= i < MAX_RECIPIENTS => if i < n then xs[i] else 0)
  }

  /** The ratio rule SPLIT gates must meet: a non-zero total, no ratio above MAX_RATIO. */
  predicate RatiosAcceptable(ratios: RatioArray, count: Count) {
    && SumFirst(ratios, count) > 0
    && forall i :: 0 <= i < count ==> ratios[i] <= MAX_RATIO
  }

  /** A gate taken out of service by close or expiry: inactive, nothing held. */
  function Closed(g: Gate): Gate {
    g.(active := false, currentBalance := 0)
  }

  // ---------------------------------------------------------------------
  // createGate
  // ---------------------------------------------------------------------

  /** A recipient count the contract accepts: one to eight. */
  predicate CountInRange(n: nat) {
    1 <= n <= MAX_RECIPIENTS
  }

  /** Whether a create can find a slot: a freed one, or one never used. */
  predicate HasRoom(s: State) {
    |s.freeSlots| > 0 || s.gateCount < MAX_GATES
  }

  /** Everything a create request must satisfy to be accepted. */
  predicate CreateAcceptable(s: State, fee: nat, input: CreateInput) {
    && fee >= CurrentEscalatedFee(s)
    && input.mode <= ModeCode(Conditional)
    && CountInRange(input.recipientCount)
    && HasRoom(s)
    && (input.mode == ModeCode(Split) ==> RatiosAcceptable(input.ratios, input.recipientCount))
    && (input.mode == ModeCode(Threshold) ==> input.threshold != 0)
    && input.allowedSenderCount <= MAX_RECIPIENTS
  }

  /** The record a successful create writes: every field set afresh, so
      nothing survives from an earlier gate that used the slot. */
  function NewGate(owner: Id, mode: Mode, input: CreateInput, epoch: Epoch): Gate
    requires 1 <= input.recipientCount <= MAX_RECIPIENTS
    requires input.allowedSenderCount <= MAX_RECIPIENTS
  {
    Gate(owner, mode, input.recipientCount, true, input.allowedSenderCount, epoch, epoch,
         0, 0, 0, input.threshold, 0,
         PadIds(input.recipients, input.recipientCount),
         PadRatios(input.ratios, input.recipientCount),
         PadIds(input.allowedSenders, input.allowedSenderCount))
  }

  /** The slot a create fills: the most recently freed one, else the next unused one. */
  function NextSlot(s: State): (slot: SlotIndex)
    requires |s.freeSlots| > 0 || s.gateCount < MAX_GATES
  {
    if |s.freeSlots| > 0 then s.freeSlots[|s.freeSlots| - 1] else s.gateCount
  }

  /** The checks `createGate` makes before touching the store, in the
      order it makes them: the first one that fails names the status. */
  function CreateCheck(s: State, fee: nat, input: CreateInput): (status: Status)
    ensures status == Success <==> CreateAcceptable(s, fee, input)
    ensures status == InsufficientFee <==> fee < CurrentEscalatedFee(s)
    ensures status == InvalidMode <==>
              fee >= CurrentEscalatedFee(s) && input.mode > ModeCode(Conditional)
    ensures status == InvalidRecipientCount <==>
              && fee >= CurrentEscalatedFee(s) && input.mode <= ModeCode(Conditional)
              && !CountInRange(input.recipientCount)
    ensures status == NoFreeSlots <==>
              && fee >= CurrentEscalatedFee(s) && input.mode <= ModeCode(Conditional)
              && CountInRange(input.recipientCount) && !HasRoom(s)
    ensures status == InvalidRatio <==>
              && fee >= CurrentEscalatedFee(s) && CountInRange(input.recipientCount) && HasRoom(s)
              && input.mode == ModeCode(Split) && !RatiosAcceptable(input.ratios, input.recipientCount)
    ensures status == InvalidThreshold <==>
              && fee >= CurrentEscalatedFee(s) && CountInRange(input.recipientCount) && HasRoom(s)
              && input.mode == ModeCode(Threshold) && input.threshold == 0
    ensures status == InvalidSenderCount <==>
              && fee >= CurrentEscalatedFee(s) && input.mode <= ModeCode(Conditional)
              && CountInRange(input.recipientCount) && HasRoom(s)
              && (input.mode == ModeCode(Split) ==> RatiosAcceptable(input.ratios, input.recipientCount))
              && (input.mode == ModeCode(Threshold) ==> input.threshold != 0)
              && input.allowedSenderCount > MAX_RECIPIENTS
  {
    if fee < CurrentEscalatedFee(s) then InsufficientFee
    else if input.mode > ModeCode(Conditional) then InvalidMode
    else if input.recipientCount == 0 || input.recipientCount > MAX_RECIPIENTS then InvalidRecipientCount
    else if |s.freeSlots| == 0 && s.gateCount >= MAX_GATES then NoFreeSlots
    else if input.mode == ModeCode(Split) && !RatiosAcceptable(input.ratios, input.recipientCount) then InvalidRatio
    else if input.mode == ModeCode(Threshold) && input.threshold == 0 then InvalidThreshold
    else if input.allowedSenderCount > MAX_RECIPIENTS then InvalidSenderCount
    else Success
  }

  /** The accepting branch of `createGate`: take a slot, write the gate,
      burn the current fee and hand back any overpayment. */
  function AdmitGate(s: State, creator: Id, fee: nat, input: CreateInput, epoch: Epoch): (o: Outcome<CreateOutput>)
    requires CreateAcceptable(s, fee, input)
    ensures EffectsTotal(o.effects) == fee
    ensures
      var slot := NextSlot(s);
      && o.output == CreateOutput(Success, slot + 1, CurrentEscalatedFee(s))
      && Burned(o.effects) == o.output.feePaid
      && TransferredTo(o.effects, creator) == fee - o.output.feePaid
      && o.state.totalBurned == s.totalBurned + o.output.feePaid
      && o.state.activeGates == s.activeGates + 1
      && o.state.gates == s.gates[slot := NewGate(creator, DecodeMode(input.mode).value, input, epoch)]
      && (|s.freeSlots| > 0 ==> o.state.freeSlots == s.freeSlots[..|s.freeSlots| - 1] && o.state.gateCount == s.gateCount)
      && (|s.freeSlots| == 0 ==> o.state.freeSlots == [] && o.state.gateCount == s.gateCount + 1)
      && o.state == s.(gates := o.state.gates, gateCount := o.state.gateCount, freeSlots := o.state.freeSlots,
                       activeGates := o.state.activeGates, totalBurned := o.state.totalBurned)
  {
    var currentFee := CurrentEscalatedFee(s);
    var g := NewGate(creator, DecodeMode(input.mode).value, input, epoch);
    var slot := NextSlot(s);
    var taken :=
      if |s.freeSlots| > 0 then s.(freeSlots := s.freeSlots[..|s.freeSlots| - 1])
      else s.(gateCount := s.gateCount + 1);
    var s' := taken.(gates := taken.gates[slot := g],
                     activeGates := taken.activeGates + 1,
                     totalBurned := taken.totalBurned + currentFee);
    var excess := if fee > currentFee then [Transfer(creator, fee - currentFee)] else [];
    EffectsTotalAppend([Burn(currentFee)], excess);
    Outcome(s', CreateOutput(Success, slot + 1, currentFee), [Burn(currentFee)] + excess)
  }

  /** `createGate`: `fee` is the invocation reward. A rejected request hands
      the whole reward back; an accepted one burns exactly the current fee. */
  function CreateGate(s: State, creator: Id, fee: nat, input: CreateInput, epoch: Epoch): (o: Outcome<CreateOutput>)
    ensures o.output.status == CreateCheck(s, fee, input)
    ensures o.output.status == Success <==> CreateAcceptable(s, fee, input)
    ensures EffectsTotal(o.effects) == fee
    ensures o.output.status != Success ==>
              && o.state == s
              && o.output.gateId == 0 && o.output.feePaid == 0
              && Burned(o.effects) == 0 && TransferredTo(o.effects, creator) == fee
    ensures o.output.status == Success ==> o == AdmitGate(s, creator, fee, input, epoch)
  {
    var status := CreateCheck(s, fee, input);
    if status == InsufficientFee then
      Outcome(s, CreateOutput(status, 0, 0), Refund(creator, fee))
    else if status != Success then
      Outcome(s, CreateOutput(status, 0, 0), [Transfer(creator, fee)])
    else
      AdmitGate(s, creator, fee, input, epoch)
  }

  // ---------------------------------------------------------------------
  // sendToGate
  // ---------------------------------------------------------------------

  /** Whether a send of `amount` to `gateId` gets past every guard and is routed. */
  predicate SendRouted(s: State, gateId: nat, amount: nat) {
    ValidId(s, gateId) && s.gates[gateId - 1].active && amount > 0 && amount >= s.minSendAmount
  }

  /** `sendToGate`: `amount` is the invocation reward. */
  function SendToGate(s: State, sender: Id, gateId: nat, amount: nat, epoch: Epoch, tick: nat): (o: Outcome<Status>)
    ensures !ValidId(s, gateId) ==> o == Outcome(s, InvalidGateId, Refund(sender, amount))
    ensures ValidId(s, gateId) && !s.gates[gateId - 1].active ==>
              o == Outcome(s, GateNotActive, Refund(sender, amount))
    ensures ValidId(s, gateId) && s.gates[gateId - 1].active && amount == 0 ==>
              o == Outcome(s, DustAmount, [])
    ensures ValidId(s, gateId) && s.gates[gateId - 1].active && 0 < amount < s.minSendAmount ==>
              o == Outcome(s.(totalBurned := s.totalBurned + amount), DustAmount, [Burn(amount)])
    ensures SendRouted(s, gateId, amount) ==>
              var g := s.gates[gateId - 1];
              var r := Route(g.(lastActivityEpoch := epoch, totalReceived := g.totalReceived + amount), sender, amount, tick);
              && o.output == r.status && o.effects == r.effects
              && o.state == s.(gates := s.gates[gateId - 1 := r.gate])
    ensures SendRouted(s, gateId, amount) ==>
              var g := s.gates[gateId - 1];
              var g' := o.state.gates[gateId - 1];
              && o.state == s.(gates := s.gates[gateId - 1 := g'])
              && (o.output == Success || o.output == ConditionalRejected)
              && Burned(o.effects) == 0
              && OnlyFlowsChanged(g.(lastActivityEpoch := epoch, totalReceived := g.totalReceived + amount), g')
  {
    if gateId == 0 || gateId > s.gateCount then
      Outcome(s, InvalidGateId, Refund(sender, amount))
    else
      var gate := s.gates[gateId - 1];
      if !gate.active then
        Outcome(s, GateNotActive, Refund(sender, amount))
      else if amount == 0 then
        Outcome(s, DustAmount, [])
      else if amount < s.minSendAmount then
        Outcome(s.(totalBurned := s.totalBurned + amount), DustAmount, [Burn(amount)])
      else
        var counted := gate.(lastActivityEpoch := epoch, totalReceived := gate.totalReceived + amount);
        var routed := Route(counted, sender, amount, tick);
        Outcome(s.(gates := s.gates[gateId - 1 := routed.gate]), routed.status, routed.effects)
  }

  // ---------------------------------------------------------------------
  // closeGate
  // ---------------------------------------------------------------------

  /** `closeGate` as written: `reward` is the invocation reward, handed
      back only when the close succeeds; a rejected close keeps it. */
  function CloseGateAsWritten(s: State, caller: Id, gateId: nat, reward: nat): (o: Outcome<Status>)
    ensures o.output == Success <==>
              ValidId(s, gateId) && s.gates[gateId - 1].owner == caller && s.gates[gateId - 1].active
    ensures !ValidId(s, gateId) ==> o.output == InvalidGateId
    ensures ValidId(s, gateId) && s.gates[gateId - 1].owner != caller ==> o.output == Unauthorized
    ensures ValidId(s, gateId) && s.gates[gateId - 1].owner == caller && !s.gates[gateId - 1].active ==>
              o.output == GateNotActive
    ensures o.output != Success ==> o.state == s && o.effects == []
    ensures o.output == Success ==>
              var g := s.gates[gateId - 1];
              && o.state == s.(gates := s.gates[gateId - 1 := Closed(g)],
                               activeGates := DecrementU64(s.activeGates),
                               freeSlots := s.freeSlots + [gateId - 1])
              && o.effects == Refund(g.owner, g.currentBalance) + Refund(caller, reward)
  {
    if gateId == 0 || gateId > s.gateCount then
      Outcome(s, InvalidGateId, [])
    else
      var gate := s.gates[gateId - 1];
      if gate.owner != caller then
        Outcome(s, Unauthorized, [])
      else if !gate.active then
        Outcome(s, GateNotActive, [])
      else
        var s' := s.(gates := s.gates[gateId - 1 := Closed(gate)],
                     activeGates := DecrementU64(s.activeGates),
                     freeSlots := s.freeSlots + [gateId - 1]);
        Outcome(s', Success, Refund(gate.owner, gate.currentBalance) + Refund(caller, reward))
  }

  /** `closeGate` with its rejections refunding the reward, as every other
      procedure's rejections do; the rest of the model uses this one. */
  function CloseGate(s: State, caller: Id, gateId: nat, reward: nat): (o: Outcome<Status>)
    ensures o.output == Success <==>
              ValidId(s, gateId) && s.gates[gateId - 1].owner == caller && s.gates[gateId - 1].active
    ensures !ValidId(s, gateId) ==> o.output == InvalidGateId
    ensures ValidId(s, gateId) && s.gates[gateId - 1].owner != caller ==> o.output == Unauthorized
    ensures ValidId(s, gateId) && s.gates[gateId - 1].owner == caller && !s.gates[gateId - 1].active ==>
              o.output == GateNotActive
    ensures o.output != Success ==> o.state == s && o.effects == Refund(caller, reward)
    ensures o.output == Success ==>
              var g := s.gates[gateId - 1];
              && o.state == s.(gates := s.gates[gateId - 1 := Closed(g)],
                               activeGates := DecrementU64(s.activeGates),
                               freeSlots := s.freeSlots + [gateId - 1])
              && o.effects == Refund(g.owner, g.currentBalance) + Refund(caller, reward)
    ensures o.output == CloseGateAsWritten(s, caller, gateId, reward).output
  {
    var o := CloseGateAsWritten(s, caller, gateId, reward);
    if o.output == Success then o else o.(effects := Refund(caller, reward))
  }

  // ---------------------------------------------------------------------
  // updateGate
  // ---------------------------------------------------------------------

  /** Whether `gateId` names a gate in service that `caller` owns. */
  predicate ActiveOwnedBy(s: State, gateId: nat, caller: Id) {
    ValidId(s, gateId) && s.gates[gateId - 1].owner == caller && s.gates[gateId - 1].active
  }

  /** Everything an update request must satisfy to be accepted. */
  predicate UpdateAcceptable(s: State, caller: Id, input: UpdateInput) {
    && ActiveOwnedBy(s, input.gateId, caller)
    && CountInRange(input.recipientCount)
    && input.allowedSenderCount <= MAX_RECIPIENTS
    && (s.gates[input.gateId - 1].mode == Split ==> RatiosAcceptable(input.ratios, input.recipientCount))
    && (s.gates[input.gateId - 1].mode == Threshold ==> input.threshold != 0)
  }

  /** The record an accepted update writes: new recipients, ratios, threshold
      and whitelist, a fresh activity epoch, and everything else kept. */
  function ApplyUpdate(g: Gate, input: UpdateInput, epoch: Epoch): (r: Gate)
    requires 1 <= input.recipientCount <= MAX_RECIPIENTS
    requires input.allowedSenderCount <= MAX_RECIPIENTS
  {
    g.(lastActivityEpoch := epoch,
       recipientCount := input.recipientCount,
       threshold := input.threshold,
       allowedSenderCount := input.allowedSenderCount,
       recipients := PadIds(input.recipients, input.recipientCount),
       ratios := PadRatios(input.ratios, input.recipientCount),
       allowedSenders := PadIds(input.allowedSenders, input.allowedSenderCount))
  }

  /** `updateGate` as the source writes it: the round-robin cursor is kept
      even when the new recipient count is smaller than it. */
  function UpdateGateAsWritten(s: State, caller: Id, reward: nat, input: UpdateInput, epoch: Epoch): (o: Outcome<Status>)
    ensures o.effects == Refund(caller, reward)
    ensures o.output == Success <==> UpdateAcceptable(s, caller, input)
    ensures !ValidId(s, input.gateId) ==> o.output == InvalidGateId
    ensures ValidId(s, input.gateId) && s.gates[input.gateId - 1].owner != caller ==> o.output == Unauthorized
    ensures ValidId(s, input.gateId) && s.gates[input.gateId - 1].owner == caller && !s.gates[input.gateId - 1].active ==>
              o.output == GateNotActive
    ensures ActiveOwnedBy(s, input.gateId, caller) && !CountInRange(input.recipientCount) ==>
              o.output == InvalidRecipientCount
    ensures ActiveOwnedBy(s, input.gateId, caller) && CountInRange(input.recipientCount)
            && input.allowedSenderCount > MAX_RECIPIENTS ==>
              o.output == InvalidSenderCount
    ensures ActiveOwnedBy(s, input.gateId, caller) && CountInRange(input.recipientCount)
            && input.allowedSenderCount <= MAX_RECIPIENTS
            && s.gates[input.gateId - 1].mode == Split && !RatiosAcceptable(input.ratios, input.recipientCount) ==>
              o.output == InvalidRatio
    ensures ActiveOwnedBy(s, input.gateId, caller) && CountInRange(input.recipientCount)
            && input.allowedSenderCount <= MAX_RECIPIENTS
            && s.gates[input.gateId - 1].mode == Threshold && input.threshold == 0 ==>
              o.output == InvalidThreshold
    ensures o.output != Success ==> o.state == s
    ensures o.output == Success ==>
              var g := s.gates[input.gateId - 1];
              var g' := o.state.gates[input.gateId - 1];
              && o.state == s.(gates := s.gates[input.gateId - 1 := g'])
              && g' == ApplyUpdate(g, input, epoch)
              && g'.mode == g.mode && g'.owner == g.owner && g'.active
              && g'.totalReceived == g.totalReceived && g'.totalForwarded == g.totalForwarded
              && g'.currentBalance == g.currentBalance && g'.roundRobinIndex == g.roundRobinIndex
  {
    var refund := Refund(caller, reward);
    if input.gateId == 0 || input.gateId > s.gateCount then
      Outcome(s, InvalidGateId, refund)
    else
      var gate := s.gates[input.gateId - 1];
      if gate.owner != caller then
        Outcome(s, Unauthorized, refund)
      else if !gate.active then
        Outcome(s, GateNotActive, refund)
      else if input.recipientCount == 0 || input.recipientCount > MAX_RECIPIENTS then
        Outcome(s, InvalidRecipientCount, refund)
      else if input.allowedSenderCount > MAX_RECIPIENTS then
        Outcome(s, InvalidSenderCount, refund)
      else if gate.mode == Split && !RatiosAcceptable(input.ratios, input.recipientCount) then
        Outcome(s, InvalidRatio, refund)
      else if gate.mode == Threshold && input.threshold == 0 then
        Outcome(s, InvalidThreshold, refund)
      else
        Outcome(s.(gates := s.gates[input.gateId - 1 := ApplyUpdate(gate, input, epoch)]), Success, refund)
  }

  /** Brings the round-robin cursor back among the recipients: kept when it
      still names one, otherwise wrapped modulo the recipient count. */
  function RewindCursor(g: Gate): (r: Gate)
    ensures r == g.(roundRobinIndex := r.roundRobinIndex)
    ensures g.recipientCount > 0 ==> r.roundRobinIndex < r.recipientCount
    ensures g.roundRobinIndex < g.recipientCount ==> r == g
  {
    g.(roundRobinIndex := Mod(g.roundRobinIndex, g.recipientCount))
  }

  /** `updateGate` with the round-robin cursor brought back in range after the
      recipient list changes; otherwise the same transition as the source. */
  function UpdateGate(s: State, caller: Id, reward: nat, input: UpdateInput, epoch: Epoch): (o: Outcome<Status>)
    ensures o.effects == Refund(caller, reward)
    ensures o.output == Success <==> UpdateAcceptable(s, caller, input)
    ensures !ValidId(s, input.gateId) ==> o.output == InvalidGateId
    ensures ValidId(s, input.gateId) && s.gates[input.gateId - 1].owner != caller ==> o.output == Unauthorized
    ensures ValidId(s, input.gateId) && s.gates[input.gateId - 1].owner == caller && !s.gates[input.gateId - 1].active ==>
              o.output == GateNotActive
    ensures ActiveOwnedBy(s, input.gateId, caller) && !CountInRange(input.recipientCount) ==>
              o.output == InvalidRecipientCount
    ensures ActiveOwnedBy(s, input.gateId, caller) && CountInRange(input.recipientCount)
            && input.allowedSenderCount > MAX_RECIPIENTS ==>
              o.output == InvalidSenderCount
    ensures ActiveOwnedBy(s, input.gateId, caller) && CountInRange(input.recipientCount)
            && input.allowedSenderCount <= MAX_RECIPIENTS
            && s.gates[input.gateId - 1].mode == Split && !RatiosAcceptable(input.ratios, input.recipientCount) ==>
              o.output == InvalidRatio
    ensures ActiveOwnedBy(s, input.gateId, caller) && CountInRange(input.recipientCount)
            && input.allowedSenderCount <= MAX_RECIPIENTS
            && s.gates[input.gateId - 1].mode == Threshold && input.threshold == 0 ==>
              o.output == InvalidThreshold
    ensures o.output != Success ==> o.state == s
    ensures o.output == Success ==>
              var g := s.gates[input.gateId - 1];
              var g' := o.state.gates[input.gateId - 1];
              && o.state == s.(gates := s.gates[input.gateId - 1 := g'])
              && g' == RewindCursor(ApplyUpdate(g, input, epoch))
              && g'.roundRobinIndex < g'.recipientCount
              && g'.mode == g.mode && g'.owner == g.owner && g'.active
              && g'.totalReceived == g.totalReceived && g'.totalForwarded == g.totalForwarded
              && g'.currentBalance == g.currentBalance
    ensures ValidId(s, input.gateId) && s.gates[input.gateId - 1].roundRobinIndex < input.recipientCount ==>
              o == UpdateGateAsWritten(s, caller, reward, input, epoch)
  {
    var o := UpdateGateAsWritten(s, caller, reward, input, epoch);
    if o.output == Success then
      var idx := input.gateId - 1;
      o.(state := o.state.(gates := o.state.gates[idx := RewindCursor(o.state.gates[idx])]))
    else
      o
  }

  // ---------------------------------------------------------------------
  // endEpoch
  // ---------------------------------------------------------------------

  /** Whether the end-of-epoch sweep closes `g`: it is active, expiry is
      switched on, and at least `expiryEpochs` epochs (counted modulo 2^16)
      have passed since its last activity. */
  predicate Expires(g: Gate, epoch: Epoch, expiryEpochs: nat) {
    g.active && expiryEpochs > 0 && EpochsSince(epoch, g.lastActivityEpoch) >= expiryEpochs
  }

  /** The slots in [i, count) the sweep closes, in ascending order. */
  function ExpiringSlots(gates: GateArray, count: GateCount, epoch: Epoch, expiryEpochs: nat, i: nat): seq<SlotIndex>
    requires i <= count
    decreases count - i
  {
    if i == count then []
    else (if Expires(gates[i], epoch, expiryEpochs) then [i] else []) + ExpiringSlots(gates, count, epoch, expiryEpochs, i + 1)
  }

  lemma {:induction false} ExpiringSlotsFrame(a: GateArray, b: GateArray, count: GateCount, epoch: Epoch, expiryEpochs: nat, i: nat)
    requires i <= count
    requires forall j :: i <= j < count ==> a[j] == b[j]
    ensures ExpiringSlots(a, count, epoch, expiryEpochs, i) == ExpiringSlots(b, count, epoch, expiryEpochs, i)
    decreases count - i
  {
    if i < count {
      ExpiringSlotsFrame(a, b, count, epoch, expiryEpochs, i + 1);
    }
  }

  /** The refunds the sweep owes for closing `slots`, in that order: each
      gate's held balance goes back to its owner. */
  function OwnerRefunds(gates: GateArray, slots: seq<SlotIndex>): seq<Effect> {
    if slots == [] then [] else Refund(gates[slots[0]].owner, gates[slots[0]].currentBalance) + OwnerRefunds(gates, slots[1..])
  }

  /** A slot below `i` is never among the expiring slots from `i` on. */
  lemma {:induction false} ExpiringSlotsFrom(gates: GateArray, count: GateCount, epoch: Epoch, expiryEpochs: nat, i: nat, j: nat)
    requires j < i <= count
    ensures j !in ExpiringSlots(gates, count, epoch, expiryEpochs, i)
    decreases count - i
  {
    if i < count {
      ExpiringSlotsFrom(gates, count, epoch, expiryEpochs, i + 1, j);
    }
  }

  /** The refunds for `slots` ignore every gate outside `slots`. */
  lemma {:induction false} OwnerRefundsFrame(gates: GateArray, slots: seq<SlotIndex>, i: SlotIndex, g: Gate)
    requires i !in slots
    ensures OwnerRefunds(gates[i := g], slots) == OwnerRefunds(gates, slots)
    decreases |slots|
  {
    if slots != [] {
      OwnerRefundsFrame(gates, slots[1..], i, g);
    }
  }

  /** The sweep's work on slot `i`. */
  function ExpireSlot(s: State, epoch: Epoch, i: SlotIndex): Outcome<()> {
    var g := s.gates[i];
    if Expires(g, epoch, s.expiryEpochs) then
      Outcome(s.(gates := s.gates[i := Closed(g)],
                 activeGates := DecrementU64(s.activeGates),
                 freeSlots := s.freeSlots + [i]),
              (), Refund(g.owner, g.currentBalance))
    else
      Outcome(s, (), [])
  }

  /** The refund for slot `i` followed by those for the slots after it are
      the refunds for the slots from `i` on. */
  lemma ExpireSlotRefunds(s: State, epoch: Epoch, i: nat)
    requires i < s.gateCount
    ensures ExpireSlot(s, epoch, i).effects + OwnerRefunds(s.gates, ExpiringSlots(s.gates, s.gateCount, epoch, s.expiryEpochs, i + 1))
              == OwnerRefunds(s.gates, ExpiringSlots(s.gates, s.gateCount, epoch, s.expiryEpochs, i))
  {
    var rest := ExpiringSlots(s.gates, s.gateCount, epoch, s.expiryEpochs, i + 1);
    var e := ExpiringSlots(s.gates, s.gateCount, epoch, s.expiryEpochs, i);
    if Expires(s.gates[i], epoch, s.expiryEpochs) {
      assert e == [i] + rest;
      assert e[0] == i && e[1..] == rest;
    } else {
      assert e == rest;
    }
  }

  /** The sweep over slots i..gateCount-1, in order. */
  function SweepFrom(s: State, epoch: Epoch, i: nat): (r: Outcome<()>)
    requires i <= s.gateCount
    ensures r.state == s.(gates := r.state.gates, activeGates := r.state.activeGates, freeSlots := r.state.freeSlots)
    ensures forall j :: 0 <= j < MAX_GATES ==>
              r.state.gates[j] == if i <= j < s.gateCount && Expires(s.gates[j], epoch, s.expiryEpochs)
                              then Closed(s.gates[j]) else s.gates[j]
    ensures Burned(r.effects) == 0
    decreases s.gateCount - i
  {
    if i == s.gateCount then Outcome(s, (), [])
    else
      var step := ExpireSlot(s, epoch, i);
      ExpiringSlotsFrame(s.gates, step.state.gates, s.gateCount, epoch, s.expiryEpochs, i + 1);
      var rest := SweepFrom(step.state, epoch, i + 1);
      EffectsTotalAppend(step.effects, rest.effects);
      Outcome(rest.state, (), step.effects + rest.effects)
  }

  /** The sweep pushes the slots it closes on the free stack in ascending
      order and lowers the active counter by their number. */
  lemma {:induction false} SweepSlots(s: State, epoch: Epoch, i: nat)
    requires i <= s.gateCount
    ensures var r := SweepFrom(s, epoch, i);
            var closed := ExpiringSlots(s.gates, s.gateCount, epoch, s.expiryEpochs, i);
            && r.state.freeSlots == s.freeSlots + closed
            && (|closed| <= s.activeGates ==> r.state.activeGates + |closed| == s.activeGates)
    decreases s.gateCount - i
  {
    if i < s.gateCount {
      var step := ExpireSlot(s, epoch, i);
      var later := ExpiringSlots(s.gates, s.gateCount, epoch, s.expiryEpochs, i + 1);
      ExpiringSlotsFrame(s.gates, step.state.gates, s.gateCount, epoch, s.expiryEpochs, i + 1);
      SweepSlots(step.state, epoch, i + 1);
      if Expires(s.gates[i], epoch, s.expiryEpochs) {
        assert s.freeSlots + [i] + later == s.freeSlots + ([i] + later);
      }
    }
  }

  /** The sweep hands each expiring gate's balance back to that gate's
      owner, in slot order, and pays nobody else. */
  lemma {:induction false} SweepRefundsOwners(s: State, epoch: Epoch, i: nat)
    requires i <= s.gateCount
    ensures SweepFrom(s, epoch, i).effects == OwnerRefunds(s.gates, ExpiringSlots(s.gates, s.gateCount, epoch, s.expiryEpochs, i))
    decreases s.gateCount - i
  {
    if i < s.gateCount {
      var step := ExpireSlot(s, epoch, i);
      var later := ExpiringSlots(s.gates, s.gateCount, epoch, s.expiryEpochs, i + 1);
      ExpiringSlotsFrame(s.gates, step.state.gates, s.gateCount, epoch, s.expiryEpochs, i + 1);
      ExpiringSlotsFrom(s.gates, s.gateCount, epoch, s.expiryEpochs, i + 1, i);
      OwnerRefundsFrame(s.gates, later, i, Closed(s.gates[i]));
      SweepRefundsOwners(step.state, epoch, i + 1);
      ExpireSlotRefunds(s, epoch, i);
    }
  }

  /** The sweep leaves in service exactly the gates that were in service
      and have not expired. */
  lemma SweepKeepsLive(s: State, epoch: Epoch)
    ensures forall j :: 0 <= j < s.gateCount ==>
              SweepFrom(s, epoch, 0).state.gates[j].active == (s.gates[j].active && !Expires(s.gates[j], epoch, s.expiryEpochs))
  {
    var r := SweepFrom(s, epoch, 0);
    forall j | 0 <= j < s.gateCount
      ensures r.state.gates[j].active == (s.gates[j].active && !Expires(s.gates[j], epoch, s.expiryEpochs))
    {
      if Expires(s.gates[j], epoch, s.expiryEpochs) {
        assert r.state.gates[j] == Closed(s.gates[j]);
      } else {
        assert r.state.gates[j] == s.gates[j];
      }
    }
  }

  /** `endEpoch`: closes every gate that has been idle for `expiryEpochs`
      epochs, handing any held balance back to its owner. */
  function EndEpoch(s: State, epoch: Epoch): (o: Outcome<()>)
    ensures o.state == s.(gates := o.state.gates, activeGates := o.state.activeGates, freeSlots := o.state.freeSlots)
    ensures forall j :: 0 <= j < s.gateCount ==>
              o.state.gates[j].active == (s.gates[j].active && !Expires(s.gates[j], epoch, s.expiryEpochs))
    ensures forall j :: 0 <= j < MAX_GATES ==>
              o.state.gates[j] == if j < s.gateCount && Expires(s.gates[j], epoch, s.expiryEpochs)
                                  then Closed(s.gates[j]) else s.gates[j]
    ensures o.state.freeSlots == s.freeSlots + ExpiringSlots(s.gates, s.gateCount, epoch, s.expiryEpochs, 0)
    ensures o.state.gateCount == s.gateCount && o.state.totalBurned == s.totalBurned
    ensures |ExpiringSlots(s.gates, s.gateCount, epoch, s.expiryEpochs, 0)| <= s.activeGates ==>
              o.state.activeGates + |ExpiringSlots(s.gates, s.gateCount, epoch, s.expiryEpochs, 0)| == s.activeGates
    ensures o.effects == OwnerRefunds(s.gates, ExpiringSlots(s.gates, s.gateCount, epoch, s.expiryEpochs, 0))
    ensures Burned(o.effects) == 0
  {
    SweepRefundsOwners(s, epoch, 0);
    SweepSlots(s, epoch, 0);
    SweepKeepsLive(s, epoch);
    SweepFrom(s, epoch, 0)
  }

  // ---------------------------------------------------------------------
  // Queries
  // ---------------------------------------------------------------------

  /** What `getGate` reports for an id no gate ever had: all zero, inactive. */
  const EMPTY_VIEW: GateView := GateView(0, 0, false, ZERO_ID, 0, 0, 0, 0, 0, 0, ZERO_IDS, ZERO_RATIOS)

  function ViewOf(g: Gate): GateView {
    GateView(ModeCode(g.mode), g.recipientCount, g.active, g.owner, g.totalReceived, g.totalForwarded,
             g.currentBalance, g.threshold, g.createdEpoch, g.lastActivityEpoch, g.recipients, g.ratios)
  }

  /** `getGate`: a known id reads every field of its gate but the
      whitelist and the cursor; any other id reads as all zero. */
  function GetGate(s: State, gateId: nat): (v: GateView)
    ensures !ValidId(s, gateId) ==> v == EMPTY_VIEW && !v.active
    ensures ValidId(s, gateId) ==>
              var g := s.gates[gateId - 1];
              && v.mode == ModeCode(g.mode) && v.recipientCount == g.recipientCount
              && v.active == g.active && v.owner == g.owner
              && v.totalReceived == g.totalReceived && v.totalForwarded == g.totalForwarded
              && v.currentBalance == g.currentBalance && v.threshold == g.threshold
              && v.createdEpoch == g.createdEpoch && v.lastActivityEpoch == g.lastActivityEpoch
              && v.recipients == g.recipients && v.ratios == g.ratios
  {
    if gateId == 0 || gateId > s.gateCount then EMPTY_VIEW else ViewOf(s.gates[gateId - 1])
  }

  /** `getGateCount`: the slots handed out, the gates in service, and the
      total burned. */
  function GetGateCount(s: State): (c: GateCountView)
    ensures c.totalGates == s.gateCount && c.activeGates == s.activeGates && c.totalBurned == s.totalBurned
  {
    GateCountView(s.gateCount, s.activeGates, s.totalBurned)
  }

  /** `getFees`: the base fee, the fee a create would be charged now, the
      minimum send and the expiry period. */
  function GetFees(s: State): (f: FeesView)
    ensures f.currentCreationFee >= f.creationFee
    ensures f.creationFee == s.creationFee && f.currentCreationFee == CurrentEscalatedFee(s)
    ensures f.minSendAmount == s.minSendAmount && f.expiryEpochs == s.expiryEpochs
  {
    FeesView(s.creationFee, CurrentEscalatedFee(s), s.minSendAmount, s.expiryEpochs)
  }
}
