/** The unit-test cases of the contract, restated as lemmas about the
    model: each starts from INITIALIZE (epoch 100, tick 12345 unless the
    case moves them) and states what the case expects. */
module Scenarios {
  import opened Qpi
  import opened GateModel
  import opened Routing
  import opened QuGate

  const ALICE: Id := 1
  const BOB: Id := 2
  const CHARLIE: Id := 3
  const DAVE: Id := 4

  const EPOCH: Epoch := 100
  const TICK: nat := 12345

  /** A fixed-size array holding `xs` in front and zeroes behind. */
  function Ids(xs: seq<Id>): (r: IdArray)
    requires |xs| <= MAX_RECIPIENTS
  {
    seq(MAX_RECIPIENTS, i requires 0 <= i < MAX_RECIPIENTS => if i < |xs| then xs[i] else ZERO_ID)
  }

  function Ratios(xs: seq<nat>): (r: RatioArray)
    requires |xs| <= MAX_RECIPIENTS
  {
    seq(MAX_RECIPIENTS, i requires 0 <= i < MAX_RECIPIENTS => if i < |xs| then xs[i] else 0)
  }

  /** The request the tests' `createGateSimple` helper builds. */
  function Request(mode: nat, count: nat, recipients: seq<Id>, ratios: seq<nat>, threshold: nat,
                   allowed: seq<Id>, allowedCount: nat): CreateInput
    requires |recipients| <= MAX_RECIPIENTS && |ratios| <= MAX_RECIPIENTS && |allowed| <= MAX_RECIPIENTS
  {
    CreateInput(mode, count, Ids(recipients), Ratios(ratios), threshold, Ids(allowed), allowedCount)
  }

  function SplitTo(recipients: seq<Id>, ratios: seq<nat>): CreateInput
    requires |recipients| <= MAX_RECIPIENTS && |ratios| <= MAX_RECIPIENTS
  {
    Request(ModeCode(Split), |recipients|, recipients, ratios, 0, [], 0)
  }

  /** ALICE's one-recipient SPLIT gate paying BOB, as most cases set up. */
  const TO_BOB: CreateInput := SplitTo([BOB], [100])

  // ---------------------------------------------------------------------
  // Routing
  // ---------------------------------------------------------------------

  lemma SplitEvenTwo()
    ensures var c := CreateGate(Init(), ALICE, 1000, SplitTo([BOB, CHARLIE], [50, 50]), EPOCH);
            && c.output.status == Success && c.output.gateId == 1
            && SendToGate(c.state, ALICE, 1, 1000, EPOCH, TICK).effects == [Transfer(BOB, 500), Transfer(CHARLIE, 500)]
  {
    var c := CreateGate(Init(), ALICE, 1000, SplitTo([BOB, CHARLIE], [50, 50]), EPOCH);
    var g := c.state.gates[0];
    assert g.recipients[0] == BOB && g.recipients[1] == CHARLIE;
    assert SumFirst(g.ratios, 1) == 50;
    assert SumFirst(g.ratios, 2) == SumFirst(g.ratios, 1) + g.ratios[1] == 100;
    assert SharesBefore(1000, g.ratios, 100, 1) == 500;
    assert SplitShares(1000, g.ratios, 2) == [500, 500];
  }

  lemma SplitUnevenThree()
    ensures var c := CreateGate(Init(), ALICE, 1000, SplitTo([BOB, CHARLIE, DAVE], [50, 30, 20]), EPOCH);
            && c.output.status == Success
            && SendToGate(c.state, ALICE, c.output.gateId, 10000, EPOCH, TICK).effects
                 == [Transfer(BOB, 5000), Transfer(CHARLIE, 3000), Transfer(DAVE, 2000)]
  {
    var c := CreateGate(Init(), ALICE, 1000, SplitTo([BOB, CHARLIE, DAVE], [50, 30, 20]), EPOCH);
    var g := c.state.gates[0];
    assert g.recipients[0] == BOB && g.recipients[1] == CHARLIE && g.recipients[2] == DAVE;
    assert SumFirst(g.ratios, 1) == 50;
    assert SumFirst(g.ratios, 2) == SumFirst(g.ratios, 1) + g.ratios[1] == 80;
    assert SumFirst(g.ratios, 3) == SumFirst(g.ratios, 2) + g.ratios[2] == 100;
    assert SharesBefore(10000, g.ratios, 100, 1) == 5000;
    assert SharesBefore(10000, g.ratios, 100, 2) == 8000;
    assert SplitShares(10000, g.ratios, 3) == [5000, 3000, 2000];
  }

  /** 33% of 100 twice, and the last recipient takes the remaining 34. */
  lemma SplitHandlesRoundingDust()
    ensures var c := CreateGate(Init(), ALICE, 1000, SplitTo([BOB, CHARLIE, DAVE], [33, 33, 34]), EPOCH);
            SendToGate(c.state, ALICE, c.output.gateId, 100, EPOCH, TICK).effects
              == [Transfer(BOB, 33), Transfer(CHARLIE, 33), Transfer(DAVE, 34)]
  {
    var c := CreateGate(Init(), ALICE, 1000, SplitTo([BOB, CHARLIE, DAVE], [33, 33, 34]), EPOCH);
    var g := c.state.gates[0];
    assert g.recipients[0] == BOB && g.recipients[1] == CHARLIE && g.recipients[2] == DAVE;
    assert SumFirst(g.ratios, 1) == 33;
    assert SumFirst(g.ratios, 2) == SumFirst(g.ratios, 1) + g.ratios[1] == 66;
    assert SumFirst(g.ratios, 3) == SumFirst(g.ratios, 2) + g.ratios[2] == 100;
    assert SharesBefore(100, g.ratios, 100, 1) == 33;
    assert SharesBefore(100, g.ratios, 100, 2) == 66;
    assert SplitShares(100, g.ratios, 3) == [33, 33, 34];
  }

  lemma RoundRobinCycles()
    ensures var c := CreateGate(Init(), ALICE, 1000,
                                Request(ModeCode(RoundRobin), 3, [BOB, CHARLIE, DAVE], [0, 0, 0], 0, [], 0), EPOCH);
            var o1 := SendToGate(c.state, ALICE, c.output.gateId, 100, EPOCH, TICK);
            var o2 := SendToGate(o1.state, ALICE, c.output.gateId, 200, EPOCH, TICK);
            var o3 := SendToGate(o2.state, ALICE, c.output.gateId, 300, EPOCH, TICK);
            var o4 := SendToGate(o3.state, ALICE, c.output.gateId, 400, EPOCH, TICK);
            && c.output.status == Success
            && o1.effects == [Transfer(BOB, 100)]
            && o2.effects == [Transfer(CHARLIE, 200)]
            && o3.effects == [Transfer(DAVE, 300)]
            && o4.effects == [Transfer(BOB, 400)]
  {
    var c := CreateGate(Init(), ALICE, 1000,
                        Request(ModeCode(RoundRobin), 3, [BOB, CHARLIE, DAVE], [0, 0, 0], 0, [], 0), EPOCH);
    var g := c.state.gates[0];
    assert g.recipients[0] == BOB && g.recipients[1] == CHARLIE && g.recipients[2] == DAVE;
    var o1 := SendToGate(c.state, ALICE, 1, 100, EPOCH, TICK);
    assert o1.state.gates[0].roundRobinIndex == 1;
    var o2 := SendToGate(o1.state, ALICE, 1, 200, EPOCH, TICK);
    assert o2.state.gates[0].roundRobinIndex == 2;
    var o3 := SendToGate(o2.state, ALICE, 1, 300, EPOCH, TICK);
    assert o3.state.gates[0].roundRobinIndex == 0;
  }

  lemma ThresholdAccumulatesAndReleases()
    ensures var c := CreateGate(Init(), ALICE, 1000, Request(ModeCode(Threshold), 1, [BOB], [0], 500, [], 0), EPOCH);
            var o1 := SendToGate(c.state, ALICE, c.output.gateId, 200, EPOCH, TICK);
            var o2 := SendToGate(o1.state, ALICE, c.output.gateId, 200, EPOCH, TICK);
            var o3 := SendToGate(o2.state, ALICE, c.output.gateId, 200, EPOCH, TICK);
            && c.output.status == Success
            && o1.effects == [] && o2.effects == []
            && o3.effects == [Transfer(BOB, 600)]
            && o3.state.gates[0].currentBalance == 0 && o3.state.gates[0].totalForwarded == 600
  {
    var c := CreateGate(Init(), ALICE, 1000, Request(ModeCode(Threshold), 1, [BOB], [0], 500, [], 0), EPOCH);
    assert c.state.gates[0].recipients[0] == BOB;
    var o1 := SendToGate(c.state, ALICE, 1, 200, EPOCH, TICK);
    assert o1.state.gates[0].currentBalance == 200;
    var o2 := SendToGate(o1.state, ALICE, 1, 200, EPOCH, TICK);
    assert o2.state.gates[0].currentBalance == 400;
  }

  lemma ConditionalAllowsWhitelisted()
    ensures var c := CreateGate(Init(), ALICE, 1000,
                                Request(ModeCode(Conditional), 1, [DAVE], [0], 0, [ALICE, BOB], 2), EPOCH);
            var o := SendToGate(c.state, ALICE, c.output.gateId, 500, EPOCH, TICK);
            && c.output.status == Success
            && o.output == Success && o.effects == [Transfer(DAVE, 500)]
  {
    var c := CreateGate(Init(), ALICE, 1000,
                        Request(ModeCode(Conditional), 1, [DAVE], [0], 0, [ALICE, BOB], 2), EPOCH);
    var g := c.state.gates[0];
    assert g.recipients[0] == DAVE && g.allowedSenders[0] == ALICE;
  }

  lemma ConditionalBouncesUnauthorised()
    ensures var c := CreateGate(Init(), ALICE, 1000,
                                Request(ModeCode(Conditional), 1, [DAVE], [0], 0, [ALICE], 1), EPOCH);
            var o := SendToGate(c.state, CHARLIE, c.output.gateId, 500, EPOCH, TICK);
            && o.output == ConditionalRejected && o.output.Code() == -12
            && o.effects == [Transfer(CHARLIE, 500)]
  {
    var c := CreateGate(Init(), ALICE, 1000,
                        Request(ModeCode(Conditional), 1, [DAVE], [0], 0, [ALICE], 1), EPOCH);
    var g := c.state.gates[0];
    assert g.allowedSenderCount == 1 && g.allowedSenders[0] == ALICE;
    assert !(exists i :: 0 <= i < g.allowedSenderCount && g.allowedSenders[i] == CHARLIE);
  }

  // ---------------------------------------------------------------------
  // Guards and status codes
  // ---------------------------------------------------------------------

  lemma InvalidGateIdBounces()
    ensures var o := SendToGate(Init(), ALICE, 999, 1000, EPOCH, TICK);
            o.output == InvalidGateId && o.output.Code() == -1 && o.effects == [Transfer(ALICE, 1000)]
  {
  }

  /** An underpaid create is rejected and the payment handed back. */
  lemma CreationFailsWithInsufficientFee()
    ensures var c := CreateGate(Init(), ALICE, 500, TO_BOB, EPOCH);
            && c.output.status == InsufficientFee && c.output.status.Code() == -7
            && c.output.gateId == 0
            && c.effects == [Transfer(ALICE, 500)]
  {
  }

  lemma ZeroAmountDoesNothing()
    ensures var c := CreateGate(Init(), ALICE, 1000, TO_BOB, EPOCH);
            var o := SendToGate(c.state, ALICE, c.output.gateId, 0, EPOCH, TICK);
            o.output == DustAmount && o.effects == [] && o.state == c.state
  {
  }

  lemma DustBurnBelowMinSend()
    ensures var c := CreateGate(Init(), ALICE, 1000, TO_BOB, EPOCH);
            var o := SendToGate(c.state, ALICE, c.output.gateId, 5, EPOCH, TICK);
            && o.output == DustAmount && o.output.Code() == -9
            && o.effects == [Burn(5)]
            && o.state.totalBurned == 1005
  {
  }

  lemma ExactMinSendNotDust()
    ensures var c := CreateGate(Init(), ALICE, 1000, TO_BOB, EPOCH);
            var o := SendToGate(c.state, ALICE, c.output.gateId, 10, EPOCH, TICK);
            o.output == Success && o.effects == [Transfer(BOB, 10)]
  {
    var c := CreateGate(Init(), ALICE, 1000, TO_BOB, EPOCH);
    var g := c.state.gates[0];
    assert g.recipients[0] == BOB && SumFirst(g.ratios, 1) == 100;
    assert SplitShares(10, g.ratios, 1) == [10];
  }

  lemma CreateStatusCodes()
    ensures CreateGate(Init(), ALICE, 1000, SplitTo([BOB], [100]).(mode := 99), EPOCH).output.status.Code() == -4
    ensures CreateGate(Init(), ALICE, 1000, Request(ModeCode(Split), 0, [BOB], [100], 0, [], 0), EPOCH).output.status.Code() == -5
    ensures CreateGate(Init(), ALICE, 1000, SplitTo([BOB], [0]), EPOCH).output.status.Code() == -6
    ensures CreateGate(Init(), ALICE, 1000, SplitTo([BOB], [MAX_RATIO + 1]), EPOCH).output.status.Code() == -6
    ensures CreateGate(Init(), ALICE, 1000, Request(ModeCode(Threshold), 1, [BOB], [100], 0, [], 0), EPOCH).output.status.Code() == -10
    ensures CreateGate(Init(), ALICE, 1000, Request(ModeCode(Conditional), 1, [BOB], [100], 0, [ALICE], 9), EPOCH).output.status.Code() == -11
  {
    assert SumFirst(SplitTo([BOB], [0]).ratios, 1) == 0;
    assert SplitTo([BOB], [MAX_RATIO + 1]).ratios[0] == MAX_RATIO + 1;
  }

  /** A create refused for an unknown mode hands the whole 1000 back and
      burns nothing. */
  lemma RejectedCreateRefunds()
    ensures var c := CreateGate(Init(), ALICE, 1000, SplitTo([BOB], [100]).(mode := 99), EPOCH);
            && c.output.status == InvalidMode
            && c.effects == [Transfer(ALICE, 1000)]
            && c.state == Init()
  {
  }

  lemma SendToInactiveGate()
    ensures var c := CreateGate(Init(), ALICE, 1000, TO_BOB, EPOCH);
            var x := CloseGateAsWritten(c.state, ALICE, c.output.gateId, 0);
            var o := SendToGate(x.state, ALICE, c.output.gateId, 100, EPOCH, TICK);
            && x.output == Success
            && o.output == GateNotActive && o.output.Code() == -2 && o.effects == [Transfer(ALICE, 100)]
  {
  }

  lemma CloseStatusCodes()
    ensures var c := CreateGate(Init(), ALICE, 1000, TO_BOB, EPOCH);
            && CloseGateAsWritten(c.state, BOB, c.output.gateId, 0).output.Code() == -3
            && CloseGateAsWritten(Init(), ALICE, 999, 0).output.Code() == -1
  {
  }

  lemma UpdateStatusCodes()
    ensures var c := CreateGate(Init(), ALICE, 1000, TO_BOB, EPOCH);
            var u := UpdateInput(999, 1, Ids([BOB]), Ratios([100]), 0, Ids([]), 0);
            && UpdateGateAsWritten(Init(), ALICE, 0, u, EPOCH).output.Code() == -1
            && UpdateGateAsWritten(c.state, BOB, 0, u.(gateId := c.output.gateId, recipients := Ids([CHARLIE])), EPOCH).output.Code() == -3
  {
  }

  lemma CloseGateSuccessAndTwice()
    ensures var c := CreateGate(Init(), ALICE, 1000, TO_BOB, EPOCH);
            var x := CloseGateAsWritten(c.state, ALICE, c.output.gateId, 0);
            && x.output == Success && x.state.activeGates == 0
            && CloseGateAsWritten(x.state, ALICE, c.output.gateId, 0).output == GateNotActive
  {
  }

  // ---------------------------------------------------------------------
  // Fees and burns
  // ---------------------------------------------------------------------

  /** The fee doubles, triples and quadruples at 1024, 2048 and 3072 gates in service. */
  lemma FeeSchedule(s: State)
    requires s.creationFee == DEFAULT_CREATION_FEE
    ensures s.activeGates == 0 ==> CurrentEscalatedFee(s) == 1000
    ensures s.activeGates == 1024 ==> CurrentEscalatedFee(s) == 2000
    ensures s.activeGates == 1025 ==> CurrentEscalatedFee(s) == 2000
    ensures s.activeGates == 2048 ==> CurrentEscalatedFee(s) == 3000
    ensures s.activeGates == 3072 ==> CurrentEscalatedFee(s) == 4000
  {
  }

  lemma EscalatingFeeAtZeroGates()
    ensures GetFees(Init()).currentCreationFee == 1000
    ensures var c := CreateGate(Init(), ALICE, 1000, TO_BOB, EPOCH);
            c.output.status == Success && c.output.feePaid == 1000
  {
  }

  /** The store as it stands with `k` gates in service and nothing else
      changed: the only field the fee formula reads. */
  function Loaded(k: nat): State {
    Init().(activeGates := k)
  }

  lemma EscalatingFeeAtHighLoad()
    ensures GetFees(Loaded(1024)).currentCreationFee == 2000
    ensures var c := CreateGate(Loaded(1024), ALICE, 2000, TO_BOB, EPOCH);
            c.output.status == Success && c.output.feePaid == 2000
    ensures CreateGate(Loaded(1025), ALICE, 1999, TO_BOB, EPOCH).output.status == InsufficientFee
    ensures GetFees(Loaded(2048)).currentCreationFee == 3000
    ensures var c := CreateGate(Loaded(2048), ALICE, 3000, TO_BOB, EPOCH);
            c.output.status == Success && c.output.feePaid == 3000
    ensures CreateGate(Loaded(3072), ALICE, 5000, TO_BOB, EPOCH).output.feePaid == 4000
  {
  }

  lemma FeeOverpaymentRefund()
    ensures var c := CreateGate(Init(), ALICE, 5000, TO_BOB, EPOCH);
            && c.output.status == Success && c.output.feePaid == 1000
            && c.effects == [Burn(1000), Transfer(ALICE, 4000)]
  {
  }

  lemma TotalBurnedTracking()
    ensures var c1 := CreateGate(Init(), ALICE, 1000, TO_BOB, EPOCH);
            var d := SendToGate(c1.state, ALICE, 1, 5, EPOCH, TICK);
            var c2 := CreateGate(d.state, ALICE, 1000, TO_BOB, EPOCH);
            && c1.state.totalBurned == 1000
            && d.state.totalBurned == 1005
            && c2.state.totalBurned == 2005
            && GetGateCount(c2.state).totalBurned == 2005
  {
  }

  lemma GetFeesReturnsCorrectValues()
    ensures GetFees(Init()) == FeesView(1000, 1000, 10, 50)
  {
  }

  // ---------------------------------------------------------------------
  // Store
  // ---------------------------------------------------------------------

  lemma GateCountTracking()
    ensures var c1 := CreateGate(Init(), ALICE, 1000, TO_BOB, EPOCH);
            var c2 := CreateGate(c1.state, ALICE, 1000, Request(ModeCode(RoundRobin), 1, [BOB], [100], 0, [], 0), EPOCH);
            var c3 := CreateGate(c2.state, BOB, 1000, Request(ModeCode(Threshold), 1, [BOB], [100], 1000, [], 0), EPOCH);
            c3.state.gateCount == 3 && c3.state.activeGates == 3
  {
  }

  lemma FreeListSlotReuse()
    ensures var g1 := CreateGate(Init(), ALICE, 1000, TO_BOB, EPOCH);
            var g2 := CreateGate(g1.state, ALICE, 1000, TO_BOB, EPOCH);
            var x := CloseGateAsWritten(g2.state, ALICE, 1, 0);
            var g3 := CreateGate(x.state, ALICE, 1000, TO_BOB, EPOCH);
            && g1.output.gateId == 1 && g2.output.gateId == 2 && g2.state.gateCount == 2
            && |x.state.freeSlots| == 1 && x.state.activeGates == 1
            && g3.output.gateId == 1
            && |g3.state.freeSlots| == 0 && g3.state.gateCount == 2 && g3.state.activeGates == 2
  {
  }

  // ---------------------------------------------------------------------
  // Expiry and activity
  // ---------------------------------------------------------------------

  lemma GateExpiryAutoClose()
    ensures var c := CreateGate(Init(), ALICE, 1000, TO_BOB, 100);
            var e := EndEpoch(c.state, 150);
            && !GetGate(e.state, c.output.gateId).active
            && e.state.activeGates == 0 && |e.state.freeSlots| == 1
  {
    var c := CreateGate(Init(), ALICE, 1000, TO_BOB, 100);
    assert ExpiringSlots(c.state.gates, 1, 150, 50, 0) == [0];
  }

  lemma GateExpiryRefundsBalance()
    ensures var c := CreateGate(Init(), ALICE, 1000, Request(ModeCode(Threshold), 1, [BOB], [100], 10000, [], 0), 100);
            var o := SendToGate(c.state, CHARLIE, c.output.gateId, 500, 100, TICK);
            var e := EndEpoch(o.state, 150);
            && GetGate(o.state, c.output.gateId).currentBalance == 500
            && e.effects == [Transfer(ALICE, 500)]
            && !GetGate(e.state, c.output.gateId).active
  {
    var c := CreateGate(Init(), ALICE, 1000, Request(ModeCode(Threshold), 1, [BOB], [100], 10000, [], 0), 100);
    var o := SendToGate(c.state, CHARLIE, 1, 500, 100, TICK);
    var g := o.state.gates[0];
    assert g.currentBalance == 500 && g.owner == ALICE && g.lastActivityEpoch == 100;
    assert o.state.gateCount == 1;
    var step := ExpireSlot(o.state, 150, 0);
    assert step.effects == [Transfer(ALICE, 500)];
    assert SweepFrom(step.state, 150, 1).effects == [];
    assert EndEpoch(o.state, 150).effects == step.effects + [];
  }

  lemma GateNotExpiredIfActive()
    ensures var c := CreateGate(Init(), ALICE, 1000, TO_BOB, 100);
            var o := SendToGate(c.state, CHARLIE, c.output.gateId, 100, 140, TICK);
            GetGate(EndEpoch(o.state, 150).state, c.output.gateId).active
  {
    var c := CreateGate(Init(), ALICE, 1000, TO_BOB, 100);
    var o := SendToGate(c.state, CHARLIE, 1, 100, 140, TICK);
    assert o.state.gates[0].lastActivityEpoch == 140;
  }

  lemma LastActivityEpochUpdates()
    ensures var c := CreateGate(Init(), ALICE, 1000, TO_BOB, 100);
            var o := SendToGate(c.state, CHARLIE, c.output.gateId, 100, 120, TICK);
            var u := UpdateGateAsWritten(c.state, ALICE, 0, UpdateInput(c.output.gateId, 1, Ids([CHARLIE]), Ratios([100]), 0, Ids([]), 0), 130);
            && GetGate(c.state, c.output.gateId).lastActivityEpoch == 100
            && GetGate(o.state, c.output.gateId).lastActivityEpoch == 120
            && GetGate(u.state, c.output.gateId).lastActivityEpoch == 130
  {
    var c := CreateGate(Init(), ALICE, 1000, TO_BOB, 100);
    assert SumFirst(Ratios([100]), 1) == 100;
  }

  // ---------------------------------------------------------------------
  // The stranded round-robin cursor
  // ---------------------------------------------------------------------

  /** A round-robin gate over BOB, CHARLIE, DAVE is paid twice, so its
      cursor stands at 2; ALICE then updates it to BOB and CHARLIE. As
      written, the next payment goes to the zero key; corrected, to BOB. */
  lemma StrandedCursorExample()
    ensures var c := CreateGate(Init(), ALICE, 1000,
                                Request(ModeCode(RoundRobin), 3, [BOB, CHARLIE, DAVE], [0, 0, 0], 0, [], 0), EPOCH);
            var o1 := SendToGate(c.state, ALICE, 1, 100, EPOCH, TICK);
            var o2 := SendToGate(o1.state, ALICE, 1, 100, EPOCH, TICK);
            var u := UpdateInput(1, 2, Ids([BOB, CHARLIE]), Ratios([0, 0]), 0, Ids([]), 0);
            var asWritten := UpdateGateAsWritten(o2.state, ALICE, 0, u, EPOCH);
            var corrected := UpdateGate(o2.state, ALICE, 0, u, EPOCH);
            && asWritten.output == Success && corrected.output == Success
            && SendToGate(asWritten.state, ALICE, 1, 100, EPOCH, TICK).effects == [Transfer(ZERO_ID, 100)]
            && SendToGate(corrected.state, ALICE, 1, 100, EPOCH, TICK).effects == [Transfer(BOB, 100)]
  {
    var c := CreateGate(Init(), ALICE, 1000,
                        Request(ModeCode(RoundRobin), 3, [BOB, CHARLIE, DAVE], [0, 0, 0], 0, [], 0), EPOCH);
    var o1 := SendToGate(c.state, ALICE, 1, 100, EPOCH, TICK);
    assert o1.state.gates[0].roundRobinIndex == 1;
    var o2 := SendToGate(o1.state, ALICE, 1, 100, EPOCH, TICK);
    assert o2.state.gates[0].roundRobinIndex == 2;
    var u := UpdateInput(1, 2, Ids([BOB, CHARLIE]), Ratios([0, 0]), 0, Ids([]), 0);
    var asWritten := UpdateGateAsWritten(o2.state, ALICE, 0, u, EPOCH);
    assert asWritten.state.gates[0].recipients[2] == ZERO_ID;
    var corrected := UpdateGate(o2.state, ALICE, 0, u, EPOCH);
    assert corrected.state.gates[0].roundRobinIndex == 0;
    assert corrected.state.gates[0].recipients[0] == BOB;
  }
}
