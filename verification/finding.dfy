/** Two places where the procedures as written depart from what they
    evidently intend, each modelled both ways.

    The round-robin cursor that `updateGate` leaves behind.

    `updateGate` rewrites a gate's recipient list and count but keeps its
    `roundRobinIndex`. When a round-robin gate is shrunk to fewer
    recipients than its cursor, the cursor points into the zero padding,
    and the next payment is transferred to the all-zero key instead of a
    recipient. `QuGate.UpdateGateAsWritten` is the procedure as written;
    `QuGate.UpdateGate`, which the rest of the model uses, brings the
    cursor back modulo the new count.

    The reward of a rejected `closeGate`. Every rejection of `createGate`,
    `sendToGate` and `updateGate` hands the attached value back; a rejected
    `closeGate` keeps it. `QuGate.CloseGateAsWritten` is the procedure as
    written; `QuGate.CloseGate`, which the rest of the model uses, refunds. */
module Finding {
  import opened Qpi
  import opened GateModel
  import opened Routing
  import opened QuGate
  import opened Store
  import opened Properties

  /** As written: after an accepted update that shrinks a round-robin gate
      below its cursor, the gate breaks the store invariant, and the next
      payment that gets past the guards goes to the zero key. */
  lemma AsWrittenUpdateStrandsCursor(s: State, caller: Id, reward: nat, input: UpdateInput, epoch: Epoch,
                                     sender: Id, amount: nat, later: Epoch, tick: nat)
    requires UpdateAcceptable(s, caller, input)
    requires s.gates[input.gateId - 1].mode == RoundRobin
    requires input.recipientCount <= s.gates[input.gateId - 1].roundRobinIndex
    requires amount > 0 && amount >= s.minSendAmount
    ensures var t := UpdateGateAsWritten(s, caller, reward, input, epoch).state;
            && !GateOk(t.gates[input.gateId - 1])
            && !Valid(t)
            && SendToGate(t, sender, input.gateId, amount, later, tick).effects == [Transfer(ZERO_ID, amount)]
  {
    var t := UpdateGateAsWritten(s, caller, reward, input, epoch).state;
    assert t.gates[input.gateId - 1].active;
  }

  /** Corrected: after any accepted update, the next round-robin payment
      goes to one of the recipients the update named. */
  lemma UpdatedRoundRobinPaysRecipient(s: State, caller: Id, reward: nat, input: UpdateInput, epoch: Epoch,
                                       sender: Id, amount: nat, later: Epoch, tick: nat)
    requires UpdateAcceptable(s, caller, input)
    requires s.gates[input.gateId - 1].mode == RoundRobin
    requires amount > 0 && amount >= s.minSendAmount
    ensures var t := UpdateGate(s, caller, reward, input, epoch).state;
            var o := SendToGate(t, sender, input.gateId, amount, later, tick);
            && o.output == Success
            && |o.effects| == 1
            && o.effects[0].to in input.recipients[..input.recipientCount]
  {
    var t := UpdateGate(s, caller, reward, input, epoch).state;
    var g := t.gates[input.gateId - 1];
    var k := g.roundRobinIndex;
    assert g.recipients[k] == input.recipients[k];
    assert input.recipients[..input.recipientCount][k] == input.recipients[k];
  }

  /** The two agree whenever the cursor still names a recipient, so the
      correction changes nothing else. */
  lemma CorrectionIsConservative(s: State, caller: Id, reward: nat, input: UpdateInput, epoch: Epoch)
    requires ValidId(s, input.gateId)
    requires s.gates[input.gateId - 1].roundRobinIndex < input.recipientCount
    ensures UpdateGate(s, caller, reward, input, epoch) == UpdateGateAsWritten(s, caller, reward, input, epoch)
  {
  }

  /** As written: a rejected close keeps its reward, so the value it
      brought in is neither held by a gate nor sent anywhere. */
  lemma AsWrittenCloseKeepsReward(s: State, caller: Id, gateId: nat, reward: nat)
    requires reward > 0
    requires CloseGateAsWritten(s, caller, gateId, reward).output != Success
    ensures var o := CloseGateAsWritten(s, caller, gateId, reward);
            && Held(o.state) == Held(s) && EffectsTotal(o.effects) == 0
            && Held(s) + reward != Held(o.state) + EffectsTotal(o.effects)
  {
  }

  /** A stranger asking to close ALICE's gate, with 100 attached, gets an
      Unauthorized status and, as written, nothing back. */
  lemma CloseRewardExample(s: State)
    requires ValidId(s, 1) && s.gates[0].owner == 1
    ensures CloseGateAsWritten(s, 2, 1, 100).output == Unauthorized
    ensures CloseGateAsWritten(s, 2, 1, 100).effects == []
    ensures CloseGate(s, 2, 1, 100).effects == [Transfer(2, 100)]
  {
  }
}
