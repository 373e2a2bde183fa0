/** Properties that relate several calls, or a call to an independent
    statement of what it should do: fee tiers, the round-robin rotation,
    conservation of value across every call, slot reuse, and expiry. */
module Properties {
  import opened Qpi
  import opened GateModel
  import opened Routing
  import opened QuGate
  import opened Store

  // ---------------------------------------------------------------------
  // Fee escalation
  // ---------------------------------------------------------------------

  lemma MulCancelStrict(p: nat, a: nat, t: nat)
    requires t > 0
    requires p * t < a * t
    ensures p < a
  {
  }

  /** The quotient is the one k with k*b <= a < (k+1)*b. */
  lemma DivUnique(a: nat, b: nat, k: nat)
    requires b > 0
    requires k * b <= a < k * b + b
    ensures Div(a, b) == k
  {
    var q := Div(a, b);
    assert (k + 1) * b == k * b + b;
    assert (q + 1) * b == q * b + b;
    MulCancelStrict(q, k + 1, b);
    MulCancelStrict(k, q + 1, b);
  }

  /** The remainder is the one r below c with x = m*c + r. */
  lemma ModUnique(x: nat, c: nat, m: nat, r: nat)
    requires c > 0 && r < c
    requires x == m * c + r
    ensures x % c == r
  {
    DivUnique(x, c, m);
    assert Mod(x, c) == x % c;
  }

  /** With between k*1024 and (k+1)*1024 - 1 gates in service, creating
      one costs k + 1 times the base fee. */
  lemma FeeTier(s: State, k: nat)
    requires k * FEE_ESCALATION_STEP <= s.activeGates < (k + 1) * FEE_ESCALATION_STEP
    ensures CurrentEscalatedFee(s) == s.creationFee * (k + 1)
  {
    assert (k + 1) * FEE_ESCALATION_STEP == k * FEE_ESCALATION_STEP + FEE_ESCALATION_STEP;
    DivUnique(s.activeGates, FEE_ESCALATION_STEP, k);
  }

  /** More gates in service never make creation cheaper. */
  lemma FeeMonotone(s: State, t: State)
    requires s.creationFee == t.creationFee
    requires s.activeGates <= t.activeGates
    ensures CurrentEscalatedFee(s) <= CurrentEscalatedFee(t)
  {
    var p := Div(s.activeGates, FEE_ESCALATION_STEP);
    var q := Div(t.activeGates, FEE_ESCALATION_STEP);
    assert (q + 1) * FEE_ESCALATION_STEP == q * FEE_ESCALATION_STEP + FEE_ESCALATION_STEP;
    MulCancelStrict(p, q + 1, FEE_ESCALATION_STEP);
    MulMonotone(s.creationFee, 1 + p, 1 + q);
  }

  // ---------------------------------------------------------------------
  // Round-robin rotation
  // ---------------------------------------------------------------------

  /** `n` round-robin payments of `amount` in a row. */
  function RoundRobinRun(g: Gate, amount: nat, n: nat): Routed
    decreases n
  {
    if n == 0 then Routed(g, Success, [])
    else
      var first := RoundRobinForward(g, amount);
      var rest := RoundRobinRun(first.gate, amount, n - 1);
      Routed(rest.gate, Success, first.effects + rest.effects)
  }

  lemma ModShift(x: nat, j: nat, c: nat)
    requires c > 0
    ensures ((x + 1) % c + j) % c == (x + 1 + j) % c
  {
    var d, r1 := (x + 1) / c, (x + 1) % c;
    var e, r2 := (r1 + j) / c, (r1 + j) % c;
    assert (d + e) * c == d * c + e * c;
    ModUnique(x + 1 + j, c, d + e, r2);
  }

  lemma {:induction false} RoundRobinCursorAdvance(g: Gate, amount: nat, n: nat)
    requires g.roundRobinIndex < g.recipientCount
    ensures RoundRobinRun(g, amount, n).gate.roundRobinIndex == (g.roundRobinIndex + n) % g.recipientCount
    decreases n
  {
    if n == 0 {
      ModUnique(g.roundRobinIndex, g.recipientCount, 0, g.roundRobinIndex);
    } else {
      var first := RoundRobinForward(g, amount);
      RoundRobinCursorAdvance(first.gate, amount, n - 1);
      ModShift(g.roundRobinIndex, n - 1, g.recipientCount);
    }
  }

  lemma {:induction false} RoundRobinForwarded(g: Gate, amount: nat, n: nat)
    ensures RoundRobinRun(g, amount, n).gate.totalForwarded == g.totalForwarded + n * amount
    decreases n
  {
    if n > 0 {
      RoundRobinForwarded(RoundRobinForward(g, amount).gate, amount, n - 1);
      assert n * amount == (n - 1) * amount + amount;
    }
  }

  /** After `n` round-robin payments the cursor has moved `n` places,
      wrapping at the recipient count, and exactly `n * amount` more was
      forwarded, in `n` transfers. */
  lemma RoundRobinAdvance(g: Gate, amount: nat, n: nat)
    requires g.roundRobinIndex < g.recipientCount
    ensures |RoundRobinRun(g, amount, n).effects| == n
    ensures RoundRobinRun(g, amount, n).gate.roundRobinIndex == (g.roundRobinIndex + n) % g.recipientCount
    ensures RoundRobinRun(g, amount, n).gate.totalForwarded == g.totalForwarded + n * amount
  {
    RoundRobinRunLength(g, amount, n);
    RoundRobinCursorAdvance(g, amount, n);
    RoundRobinForwarded(g, amount, n);
  }

  lemma {:induction false} RoundRobinRunLength(g: Gate, amount: nat, n: nat)
    ensures |RoundRobinRun(g, amount, n).effects| == n
    decreases n
  {
    if n > 0 {
      RoundRobinRunLength(RoundRobinForward(g, amount).gate, amount, n - 1);
    }
  }

  /** The j-th of `n` round-robin payments goes to the recipient `j` places
      after the cursor, wrapping at the recipient count. */
  lemma RoundRobinRotation(g: Gate, amount: nat, n: nat)
    requires g.roundRobinIndex < g.recipientCount
    ensures |RoundRobinRun(g, amount, n).effects| == n
    ensures forall j :: 0 <= j < n ==>
              RoundRobinRun(g, amount, n).effects[j]
                == Transfer(g.recipients[(g.roundRobinIndex + j) % g.recipientCount], amount)
  {
    RoundRobinRunLength(g, amount, n);
    forall j | 0 <= j < n
      ensures RoundRobinRun(g, amount, n).effects[j]
                == Transfer(g.recipients[(g.roundRobinIndex + j) % g.recipientCount], amount)
    {
      RoundRobinRotationAt(g, amount, n, j);
    }
  }

  /** Every position is reached from the cursor within one turn. */
  lemma RotationReaches(idx: nat, c: nat, i: nat) returns (j: nat)
    requires idx < c && i < c
    ensures j < c && (idx + j) % c == i
  {
    if i < idx {
      j := i + c - idx;
      ModUnique(i + c, c, 1, i);
    } else {
      j := i - idx;
      ModUnique(i, c, 0, i);
    }
  }

  /** The j-th payment of a run, on its own. */
  lemma {:induction false} RoundRobinRotationAt(g: Gate, amount: nat, n: nat, j: nat)
    requires g.roundRobinIndex < g.recipientCount
    requires j < n
    ensures |RoundRobinRun(g, amount, n).effects| == n
    ensures RoundRobinRun(g, amount, n).effects[j]
              == Transfer(g.recipients[(g.roundRobinIndex + j) % g.recipientCount], amount)
    decreases j
  {
    var c := g.recipientCount;
    var idx: nat := g.roundRobinIndex;
    var first := RoundRobinForward(g, amount);
    var rest := RoundRobinRun(first.gate, amount, n - 1).effects;
    RoundRobinRunLength(g, amount, n);
    assert RoundRobinRun(g, amount, n).effects == [Transfer(g.recipients[idx], amount)] + rest;
    if j == 0 {
      ModUnique(idx, c, 0, idx);
    } else {
      RoundRobinRotationAt(first.gate, amount, n - 1, j - 1);
      assert first.gate.roundRobinIndex == (idx + 1) % c && first.gate.recipients == g.recipients;
      ModShift(idx, j - 1, c);
    }
  }

  /** Recipient `i` is among the payees of one full turn. */
  lemma RoundRobinPays(g: Gate, amount: nat, i: nat)
    requires g.roundRobinIndex < g.recipientCount
    requires i < g.recipientCount
    ensures Transfer(g.recipients[i], amount) in RoundRobinRun(g, amount, g.recipientCount).effects
  {
    var c := g.recipientCount;
    var j := RotationReaches(g.roundRobinIndex, c, i);
    RoundRobinRotationAt(g, amount, c, j);
    var effects := RoundRobinRun(g, amount, c).effects;
    assert effects[j] == Transfer(g.recipients[i], amount);
  }

  /** Over one full turn every recipient is paid, and the cursor is back
      where it started. */
  lemma RoundRobinFullTurn(g: Gate, amount: nat)
    requires g.roundRobinIndex < g.recipientCount
    ensures RoundRobinRun(g, amount, g.recipientCount).gate.roundRobinIndex == g.roundRobinIndex
    ensures |RoundRobinRun(g, amount, g.recipientCount).effects| == g.recipientCount
    ensures forall i :: 0 <= i < g.recipientCount ==>
              Transfer(g.recipients[i], amount) in RoundRobinRun(g, amount, g.recipientCount).effects
  {
    var c := g.recipientCount;
    var idx := g.roundRobinIndex;
    RoundRobinAdvance(g, amount, c);
    ModUnique(idx + c, c, 1, idx);
    forall i | 0 <= i < c
      ensures Transfer(g.recipients[i], amount) in RoundRobinRun(g, amount, c).effects
    {
      RoundRobinPays(g, amount, i);
    }
  }

  /** A round-robin run pays and turns the same way on any gate with the
      same recipients, count and cursor. */
  lemma {:induction false} RoundRobinRunFrame(g: Gate, h: Gate, amount: nat, n: nat)
    requires g.recipients == h.recipients && g.recipientCount == h.recipientCount
    requires g.roundRobinIndex == h.roundRobinIndex
    ensures RoundRobinRun(g, amount, n).effects == RoundRobinRun(h, amount, n).effects
    ensures RoundRobinRun(g, amount, n).gate.roundRobinIndex == RoundRobinRun(h, amount, n).gate.roundRobinIndex
    decreases n
  {
    if n > 0 {
      RoundRobinRunFrame(RoundRobinForward(g, amount).gate, RoundRobinForward(h, amount).gate, amount, n - 1);
    }
  }

  /** `n` calls of `sendToGate` with the same sender, gate, amount, epoch and tick. */
  function SendRun(s: State, sender: Id, gateId: nat, amount: nat, epoch: Epoch, tick: nat, n: nat): Outcome<()>
    decreases n
  {
    if n == 0 then Outcome(s, (), [])
    else
      var first := SendToGate(s, sender, gateId, amount, epoch, tick);
      var rest := SendRun(first.state, sender, gateId, amount, epoch, tick, n - 1);
      Outcome(rest.state, (), first.effects + rest.effects)
  }

  /** One send to a ROUND_ROBIN gate: the rotation rule applied to the
      gate with the receipt counted, and the gate still takes sends. */
  lemma SendRoundRobinOnce(s: State, sender: Id, gateId: nat, amount: nat, epoch: Epoch, tick: nat)
    requires SendRouted(s, gateId, amount)
    requires s.gates[gateId - 1].mode == RoundRobin
    ensures var g := s.gates[gateId - 1];
            var first := SendToGate(s, sender, gateId, amount, epoch, tick);
            && first.state.gates[gateId - 1]
                 == RoundRobinForward(g.(lastActivityEpoch := epoch, totalReceived := g.totalReceived + amount), amount).gate
            && first.effects == RoundRobinForward(g, amount).effects
            && SendRouted(first.state, gateId, amount)
            && first.state.gates[gateId - 1].mode == RoundRobin
  {
  }

  lemma {:induction false} SendsRoundRobinPay(s: State, sender: Id, gateId: nat, amount: nat, epoch: Epoch, tick: nat, n: nat)
    requires SendRouted(s, gateId, amount)
    requires s.gates[gateId - 1].mode == RoundRobin
    ensures SendRun(s, sender, gateId, amount, epoch, tick, n).effects
              == RoundRobinRun(s.gates[gateId - 1], amount, n).effects
    decreases n
  {
    if n > 0 {
      var g := s.gates[gateId - 1];
      var first := SendToGate(s, sender, gateId, amount, epoch, tick);
      var rest := SendRun(first.state, sender, gateId, amount, epoch, tick, n - 1);
      var h := RoundRobinForward(g, amount);
      SendRoundRobinOnce(s, sender, gateId, amount, epoch, tick);
      SendsRoundRobinPay(first.state, sender, gateId, amount, epoch, tick, n - 1);
      RoundRobinRunFrame(first.state.gates[gateId - 1], h.gate, amount, n - 1);
      var tail := RoundRobinRun(h.gate, amount, n - 1);
      assert first.effects == h.effects;
      assert rest.effects == tail.effects;
      assert SendRun(s, sender, gateId, amount, epoch, tick, n).effects == first.effects + rest.effects;
      assert RoundRobinRun(g, amount, n).effects == h.effects + tail.effects;
    }
  }

  lemma {:induction false} SendsRoundRobinCursor(s: State, sender: Id, gateId: nat, amount: nat, epoch: Epoch, tick: nat, n: nat)
    requires SendRouted(s, gateId, amount)
    requires s.gates[gateId - 1].mode == RoundRobin
    ensures SendRun(s, sender, gateId, amount, epoch, tick, n).state.gates[gateId - 1].roundRobinIndex
              == RoundRobinRun(s.gates[gateId - 1], amount, n).gate.roundRobinIndex
    decreases n
  {
    if n > 0 {
      var g := s.gates[gateId - 1];
      var first := SendToGate(s, sender, gateId, amount, epoch, tick);
      var h := RoundRobinForward(g, amount);
      SendRoundRobinOnce(s, sender, gateId, amount, epoch, tick);
      SendsRoundRobinCursor(first.state, sender, gateId, amount, epoch, tick, n - 1);
      RoundRobinRunFrame(first.state.gates[gateId - 1], h.gate, amount, n - 1);
      assert SendRun(s, sender, gateId, amount, epoch, tick, n).state
               == SendRun(first.state, sender, gateId, amount, epoch, tick, n - 1).state;
      assert RoundRobinRun(g, amount, n).gate == RoundRobinRun(h.gate, amount, n - 1).gate;
    }
  }

  /** Successive sends to a ROUND_ROBIN gate pay exactly what the rotation
      rule pays, and leave the cursor where the rotation leaves it. */
  lemma SendsRoundRobin(s: State, sender: Id, gateId: nat, amount: nat, epoch: Epoch, tick: nat, n: nat)
    requires SendRouted(s, gateId, amount)
    requires s.gates[gateId - 1].mode == RoundRobin
    ensures SendRun(s, sender, gateId, amount, epoch, tick, n).effects
              == RoundRobinRun(s.gates[gateId - 1], amount, n).effects
    ensures SendRun(s, sender, gateId, amount, epoch, tick, n).state.gates[gateId - 1].roundRobinIndex
              == RoundRobinRun(s.gates[gateId - 1], amount, n).gate.roundRobinIndex
  {
    SendsRoundRobinPay(s, sender, gateId, amount, epoch, tick, n);
    SendsRoundRobinCursor(s, sender, gateId, amount, epoch, tick, n);
  }

  /** `recipientCount` sends to a ROUND_ROBIN gate whose cursor is in range
      pay every recipient once and bring the cursor back where it was. */
  lemma SendsFullTurn(s: State, sender: Id, gateId: nat, amount: nat, epoch: Epoch, tick: nat)
    requires SendRouted(s, gateId, amount)
    requires s.gates[gateId - 1].mode == RoundRobin
    requires s.gates[gateId - 1].roundRobinIndex < s.gates[gateId - 1].recipientCount
    ensures var g := s.gates[gateId - 1];
            var o := SendRun(s, sender, gateId, amount, epoch, tick, g.recipientCount);
            && o.state.gates[gateId - 1].roundRobinIndex == g.roundRobinIndex
            && |o.effects| == g.recipientCount
            && forall i :: 0 <= i < g.recipientCount ==> Transfer(g.recipients[i], amount) in o.effects
  {
    var g := s.gates[gateId - 1];
    SendsRoundRobin(s, sender, gateId, amount, epoch, tick, g.recipientCount);
    RoundRobinFullTurn(g, amount);
  }

  // ---------------------------------------------------------------------
  // Conservation of value
  // ---------------------------------------------------------------------

  function HeldIn(gates: seq<Gate>): nat {
    if gates == [] then 0 else HeldIn(gates[..|gates| - 1]) + gates[|gates| - 1].currentBalance
  }

  /** Everything the contract holds on behalf of its gates. */
  function Held(s: State): nat {
    HeldIn(s.gates)
  }

  lemma {:induction false} HeldInUpdate(gates: seq<Gate>, i: nat, g: Gate)
    requires i < |gates|
    ensures HeldIn(gates[i := g]) + gates[i].currentBalance == HeldIn(gates) + g.currentBalance
    decreases |gates|
  {
    var n := |gates| - 1;
    if i == n {
      assert gates[i := g][..n] == gates[..n];
    } else {
      HeldInUpdate(gates[..n], i, g);
      assert gates[i := g][..n] == gates[..n][i := g];
    }
  }

  /** The value a call brings in: its invocation reward. */
  function Attached(inv: Invocation): nat {
    match inv.call
    case Create(_, fee, _) => fee
    case Send(_, _, amount, _) => amount
    case Close(_, _, reward) => reward
    case Update(_, reward, _) => reward
    case EndOfEpoch => 0
  }

  lemma {:induction false} SweepConservesValue(s: State, epoch: Epoch, i: nat)
    requires i <= s.gateCount
    ensures Held(SweepFrom(s, epoch, i).state) + EffectsTotal(SweepFrom(s, epoch, i).effects) == Held(s)
    decreases s.gateCount - i
  {
    if i < s.gateCount {
      var step := ExpireSlot(s, epoch, i);
      SweepConservesValue(step.state, epoch, i + 1);
      var rest := SweepFrom(step.state, epoch, i + 1);
      EffectsTotalAppend(step.effects, rest.effects);
      if Expires(s.gates[i], epoch, s.expiryEpochs) {
        HeldInUpdate(s.gates, i, Closed(s.gates[i]));
      }
    }
  }

  lemma CreateConservesValue(s: State, creator: Id, fee: nat, input: CreateInput, epoch: Epoch)
    requires SlotsAgree(s)
    ensures var o := CreateGate(s, creator, fee, input, epoch);
            Held(s) + fee == Held(o.state) + EffectsTotal(o.effects)
  {
    var o := CreateGate(s, creator, fee, input, epoch);
    if o.output.status == Success {
      var slot := NextSlot(s);
      if |s.freeSlots| > 0 {
        assert s.freeSlots[|s.freeSlots| - 1] in s.freeSlots;
      }
      assert s.gates[slot].currentBalance == 0;
      HeldInUpdate(s.gates, slot, NewGate(creator, DecodeMode(input.mode).value, input, epoch));
    }
  }

  lemma SendConservesValue(s: State, sender: Id, gateId: nat, amount: nat, epoch: Epoch, tick: nat)
    requires ValidAsWritten(s)
    ensures var o := SendToGate(s, sender, gateId, amount, epoch, tick);
            Held(s) + amount == Held(o.state) + EffectsTotal(o.effects)
  {
    if SendRouted(s, gateId, amount) {
      var o := SendToGate(s, sender, gateId, amount, epoch, tick);
      HeldInUpdate(s.gates, gateId - 1, o.state.gates[gateId - 1]);
    }
  }

  lemma CloseConservesValue(s: State, caller: Id, gateId: nat, reward: nat)
    ensures var o := CloseGate(s, caller, gateId, reward);
            Held(s) + reward == Held(o.state) + EffectsTotal(o.effects)
  {
    var o := CloseGate(s, caller, gateId, reward);
    if o.output == Success {
      var g := s.gates[gateId - 1];
      HeldInUpdate(s.gates, gateId - 1, Closed(g));
      EffectsTotalAppend(Refund(g.owner, g.currentBalance), Refund(caller, reward));
    }
  }

  /** Both the update as written and the corrected one hand the reward
      back and leave every held balance alone. */
  lemma UpdateConservesValue(s: State, caller: Id, reward: nat, input: UpdateInput, epoch: Epoch)
    ensures var o := UpdateGate(s, caller, reward, input, epoch);
            Held(s) + reward == Held(o.state) + EffectsTotal(o.effects)
    ensures var o := UpdateGateAsWritten(s, caller, reward, input, epoch);
            Held(s) + reward == Held(o.state) + EffectsTotal(o.effects)
  {
    var o := UpdateGate(s, caller, reward, input, epoch);
    var w := UpdateGateAsWritten(s, caller, reward, input, epoch);
    if o.output == Success {
      HeldInUpdate(s.gates, input.gateId - 1, o.state.gates[input.gateId - 1]);
      HeldInUpdate(s.gates, input.gateId - 1, w.state.gates[input.gateId - 1]);
    }
  }

  /** No call creates or destroys value: what it brings in equals what it
      sends out (transfers and burns) plus what the gates' holdings grew by. */
  lemma CallConservesValue(s: State, inv: Invocation)
    requires ValidAsWritten(s)
    ensures Held(s) + Attached(inv) == Held(Step(s, inv).state) + EffectsTotal(Step(s, inv).effects)
  {
    var r := Step(s, inv);
    match inv.call
    case Create(creator, fee, input) =>
      var o := CreateGate(s, creator, fee, input, inv.epoch);
      assert r.state == o.state && r.effects == o.effects;
      CreateConservesValue(s, creator, fee, input, inv.epoch);
    case Send(sender, gateId, amount, tick) =>
      var o := SendToGate(s, sender, gateId, amount, inv.epoch, tick);
      assert r.state == o.state && r.effects == o.effects;
      SendConservesValue(s, sender, gateId, amount, inv.epoch, tick);
    case Close(caller, gateId, reward) =>
      var o := CloseGate(s, caller, gateId, reward);
      assert r.state == o.state && r.effects == o.effects;
      CloseConservesValue(s, caller, gateId, reward);
    case Update(caller, reward, input) =>
      var o := UpdateGate(s, caller, reward, input, inv.epoch);
      assert r.state == o.state && r.effects == o.effects;
      UpdateConservesValue(s, caller, reward, input, inv.epoch);
    case EndOfEpoch =>
      assert r == SweepFrom(s, inv.epoch, 0);
      SweepConservesValue(s, inv.epoch, 0);
  }

  /** Whether `inv` is a close the source rejects. */
  predicate CloseRejectedAsWritten(s: State, inv: Invocation) {
    inv.call.Close? && CloseGateAsWritten(s, inv.call.caller, inv.call.closeId, inv.call.reward).output != Success
  }

  /** The contract as written conserves value on every call but a rejected
      close, which neither holds nor hands back the reward it was sent. */
  lemma CallAsWrittenConservesValue(s: State, inv: Invocation)
    requires ValidAsWritten(s)
    ensures !CloseRejectedAsWritten(s, inv) ==>
              Held(s) + Attached(inv) == Held(StepAsWritten(s, inv).state) + EffectsTotal(StepAsWritten(s, inv).effects)
    ensures CloseRejectedAsWritten(s, inv) ==>
              Held(StepAsWritten(s, inv).state) == Held(s) && EffectsTotal(StepAsWritten(s, inv).effects) == 0
  {
    match inv.call
    case Create(creator, fee, input) => CreateConservesValue(s, creator, fee, input, inv.epoch);
    case Send(sender, gateId, amount, tick) => SendConservesValue(s, sender, gateId, amount, inv.epoch, tick);
    case Close(caller, gateId, reward) => CloseConservesValue(s, caller, gateId, reward);
    case Update(caller, reward, input) => UpdateConservesValue(s, caller, reward, input, inv.epoch);
    case EndOfEpoch => SweepConservesValue(s, inv.epoch, 0);
  }

  // ---------------------------------------------------------------------
  // Creation, reuse and lookup
  // ---------------------------------------------------------------------

  /** What `getGateCount` reports agrees with the store: every id issued so
      far names a gate in service or a slot on the free stack. */
  lemma GateCountAgrees(s: State)
    requires Valid(s)
    ensures GetGateCount(s).activeGates <= GetGateCount(s).totalGates
    ensures GetGateCount(s).totalGates == GetGateCount(s).activeGates + |s.freeSlots|
    ensures forall id :: 1 <= id <= GetGateCount(s).totalGates ==> GetGate(s, id).active || id - 1 in s.freeSlots
  {
  }

  /** A successful create puts one more gate in service, and issues a new
      id exactly when the free stack was empty. */
  lemma CreateCounts(s: State, creator: Id, fee: nat, input: CreateInput, epoch: Epoch)
    requires CreateGate(s, creator, fee, input, epoch).output.status == Success
    ensures var t := CreateGate(s, creator, fee, input, epoch).state;
            && GetGateCount(t).activeGates == GetGateCount(s).activeGates + 1
            && GetGateCount(t).totalGates == GetGateCount(s).totalGates + (if s.freeSlots == [] then 1 else 0)
            && GetGateCount(t).totalBurned == GetGateCount(s).totalBurned + CurrentEscalatedFee(s)
  {
  }

  /** A created gate reads back exactly as requested, with no trace of any
      gate that used its slot before: zero counters, zero padding. */
  lemma CreateThenGet(s: State, creator: Id, fee: nat, input: CreateInput, epoch: Epoch)
    requires Valid(s)
    requires CreateGate(s, creator, fee, input, epoch).output.status == Success
    ensures var o := CreateGate(s, creator, fee, input, epoch);
            var v := GetGate(o.state, o.output.gateId);
            && v.active && v.owner == creator && v.mode == input.mode
            && v.recipientCount == input.recipientCount && v.threshold == input.threshold
            && v.totalReceived == 0 && v.totalForwarded == 0 && v.currentBalance == 0
            && v.createdEpoch == epoch && v.lastActivityEpoch == epoch
            && (forall i :: 0 <= i < MAX_RECIPIENTS ==>
                  v.recipients[i] == (if i < input.recipientCount then input.recipients[i] else ZERO_ID))
            && (forall i :: 0 <= i < MAX_RECIPIENTS ==>
                  v.ratios[i] == (if i < input.recipientCount then input.ratios[i] else 0))
  {
    if |s.freeSlots| > 0 {
      assert s.freeSlots[|s.freeSlots| - 1] in s.freeSlots;
    }
  }

  /** The fee `getFees` quotes is the fee the next create charges: paying
      less is refused as insufficient, and an accepted create burns exactly
      the quote and hands back the rest. */
  lemma QuotedFeeIsCharged(s: State, creator: Id, fee: nat, input: CreateInput, epoch: Epoch)
    ensures CreateGate(s, creator, fee, input, epoch).output.status == InsufficientFee <==>
              fee < GetFees(s).currentCreationFee
    ensures var o := CreateGate(s, creator, fee, input, epoch);
            o.output.status == Success ==>
              && o.output.feePaid == GetFees(s).currentCreationFee
              && Burned(o.effects) == GetFees(s).currentCreationFee
              && TransferredTo(o.effects, creator) == fee - GetFees(s).currentCreationFee
  {
  }

  /** The free stack is last-in first-out: a create right after a close
      reuses the closed gate's id and leaves the slot count as it was. */
  lemma CloseThenCreateReusesSlot(s: State, owner: Id, gateId: nat, reward: nat,
                                  creator: Id, fee: nat, input: CreateInput, epoch: Epoch)
    requires CloseGate(s, owner, gateId, reward).output == Success
    requires CreateAcceptable(CloseGate(s, owner, gateId, reward).state, fee, input)
    ensures var t := CloseGate(s, owner, gateId, reward).state;
            var o := CreateGate(t, creator, fee, input, epoch);
            && o.output.gateId == gateId
            && o.state.gateCount == s.gateCount
            && o.state.freeSlots == s.freeSlots
  {
    var t := CloseGate(s, owner, gateId, reward).state;
    assert t.freeSlots[..|t.freeSlots| - 1] == s.freeSlots;
  }

  /** A rejected create, send, close or update changes nothing but (for a
      dust send) the burn counter. */
  lemma RejectionChangesNothing(s: State, who: Id, amount: nat, create: CreateInput, update: UpdateInput,
                                gateId: nat, epoch: Epoch, tick: nat)
    ensures CreateGate(s, who, amount, create, epoch).output.status != Success ==>
              CreateGate(s, who, amount, create, epoch).state == s
    ensures !SendRouted(s, gateId, amount) ==>
              SendToGate(s, who, gateId, amount, epoch, tick).state == s.(totalBurned := SendToGate(s, who, gateId, amount, epoch, tick).state.totalBurned)
    ensures CloseGate(s, who, gateId, amount).output != Success ==> CloseGate(s, who, gateId, amount).state == s
    ensures UpdateGate(s, who, amount, update, epoch).output != Success ==> UpdateGate(s, who, amount, update, epoch).state == s
  {
  }

  // ---------------------------------------------------------------------
  // Expiry
  // ---------------------------------------------------------------------

  /** A routed payment restarts the idle clock: the gate cannot expire at
      any epoch fewer than `expiryEpochs` epochs later. */
  lemma SendPostponesExpiry(s: State, sender: Id, gateId: nat, amount: nat, epoch: Epoch, tick: nat, later: Epoch)
    requires SendRouted(s, gateId, amount)
    requires EpochsSince(later, epoch) < s.expiryEpochs
    ensures !Expires(SendToGate(s, sender, gateId, amount, epoch, tick).state.gates[gateId - 1], later, s.expiryEpochs)
  {
  }

  /** The idle count is taken modulo 2^16, so it survives the epoch counter
      wrapping around: ten epochs pass between 65530 and 4. */
  lemma EpochWrap()
    ensures EpochsSince(4, 65530) == 10
    ensures EpochsSince(150, 100) == 50
    ensures EpochsSince(150, 140) == 10
  {
  }
}
