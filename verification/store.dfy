/** The invariant the contract keeps over its gate store, and the proof
    that every procedure, started in a state that satisfies it, ends in one
    that does. The invariant ties the free-slot stack, the slot counter and
    the active-gate counter together (`_freeCount + _activeGates ==
    _gateCount`), and says what every gate in service looks like. */
module Store {
  import opened Qpi
  import opened GateModel
  import opened Routing
  import opened QuGate

  // ---------------------------------------------------------------------
  // The invariant
  // ---------------------------------------------------------------------

  /** What every gate in service satisfies, whatever the position of its
      round-robin cursor: at least one recipient, zero padding past the
      counts, the ratio and threshold rules its mode needs, and no value
      made up: forwarded plus held never exceeds received, and equals it
      for every mode that never bounces a payment. */
  predicate GateShapeOk(g: Gate) {
    && 1 <= g.recipientCount
    && (forall i :: g.recipientCount <= i < MAX_RECIPIENTS ==> g.recipients[i] == ZERO_ID)
    && (forall i :: g.recipientCount <= i < MAX_RECIPIENTS ==> g.ratios[i] == 0)
    && (forall i :: g.allowedSenderCount <= i < MAX_RECIPIENTS ==> g.allowedSenders[i] == ZERO_ID)
    && (g.mode == Split ==> RatiosAcceptable(g.ratios, g.recipientCount))
    && (g.mode == Threshold ==> g.threshold > 0)
    && (g.mode != Threshold ==> g.currentBalance == 0)
    && g.totalForwarded + g.currentBalance <= g.totalReceived
    && (g.mode != Conditional ==> g.totalForwarded + g.currentBalance == g.totalReceived)
  }

  /** A gate in good order: its shape is right and its round-robin cursor
      names one of its recipients. */
  predicate GateOk(g: Gate) {
    GateShapeOk(g) && g.roundRobinIndex < g.recipientCount
  }

  predicate Distinct(xs: seq<SlotIndex>) {
    forall k, l :: 0 <= k < l < |xs| ==> xs[k] != xs[l]
  }

  /** The slot bookkeeping. The free stack holds, without repetition,
      exactly the slots below `gateCount` whose gate is out of service; no
      slot at or past `gateCount` is in service; a gate out of service holds
      nothing; and the counters agree. */
  predicate SlotsAgree(s: State) {
    && |s.freeSlots| + s.activeGates == s.gateCount
    && Distinct(s.freeSlots)
    && (forall k :: 0 <= k < |s.freeSlots| ==> s.freeSlots[k] < s.gateCount)
    && (forall j :: 0 <= j < MAX_GATES ==> (j < s.gateCount && !s.gates[j].active <==> j in s.freeSlots))
    && (forall j :: 0 <= j < MAX_GATES && s.gates[j].active ==> j < s.gateCount)
    && (forall j :: 0 <= j < MAX_GATES && !s.gates[j].active ==> s.gates[j].currentBalance == 0)
  }

  /** What the procedures as the source writes them keep: the slot
      bookkeeping, and every gate in service in shape. */
  predicate ValidAsWritten(s: State) {
    SlotsAgree(s) && InShape(s.gates)
  }

  /** The store invariant: the slot bookkeeping, and every gate in service
      in good order, cursor included. */
  predicate Valid(s: State) {
    SlotsAgree(s) && InOrder(s.gates)
  }

  /** Every gate in service is in shape. */
  predicate InShape(gates: GateArray) {
    forall j :: 0 <= j < MAX_GATES && gates[j].active ==> GateShapeOk(gates[j])
  }

  /** Every gate in service is in good order. */
  predicate InOrder(gates: GateArray) {
    forall j :: 0 <= j < MAX_GATES && gates[j].active ==> GateOk(gates[j])
  }

  /** Writing one gate keeps every gate in service in shape (in order) when
      the written gate is out of service or in shape (in order) itself. */
  lemma ReplaceGate(gates: GateArray, i: SlotIndex, g: Gate)
    ensures InShape(gates) && (g.active ==> GateShapeOk(g)) ==> InShape(gates[i := g])
    ensures InOrder(gates) && (g.active ==> GateOk(g)) ==> InOrder(gates[i := g])
  {
  }

  // ---------------------------------------------------------------------
  // Counting
  // ---------------------------------------------------------------------

  /** The slot numbers 0, 1, ..., n - 1, in order. */
  function Upto(n: nat): (r: seq<nat>)
    ensures |r| == n
    ensures forall i :: 0 <= i < n ==> r[i] == i
  {
    if n == 0 then [] else Upto(n - 1) + [n - 1]
  }

  function Below(n: nat): set<nat> {
    set x | x in Upto(n)
  }

  lemma {:induction false} BelowCard(n: nat)
    ensures |Below(n)| == n
    ensures forall x: nat :: x < n ==> x in Below(n)
  {
    if n > 0 {
      BelowCard(n - 1);
      assert Upto(n) == Upto(n - 1) + [n - 1];
      assert Below(n) == Below(n - 1) + {n - 1};
      assert Upto(n)[n - 1] == n - 1;
    }
  }

  lemma {:induction false} DistinctWithin(xs: seq<SlotIndex>, bound: set<nat>)
    requires Distinct(xs)
    requires forall k :: 0 <= k < |xs| ==> xs[k] in bound
    ensures |xs| <= |bound|
    decreases |xs|
  {
    if xs != [] {
      var last := xs[|xs| - 1];
      var rest := xs[..|xs| - 1];
      forall k | 0 <= k < |rest|
        ensures rest[k] in bound - {last}
      {
        assert rest[k] == xs[k];
      }
      DistinctWithin(rest, bound - {last});
    }
  }

  /** A repetition-free list of slots below `n` has at most `n` entries. */
  lemma DistinctBelowBound(xs: seq<SlotIndex>, n: nat)
    requires Distinct(xs)
    requires forall k :: 0 <= k < |xs| ==> xs[k] < n
    ensures |xs| <= n
  {
    BelowCard(n);
    DistinctWithin(xs, Below(n));
  }

  /** Under the invariant no counter can run past another: the active
      count is at most the slot count, and a slot in service proves that
      the active count is positive. */
  lemma ValidCounts(s: State, j: SlotIndex)
    requires SlotsAgree(s)
    ensures s.activeGates <= s.gateCount
    ensures s.gates[j].active ==> s.activeGates >= 1
  {
    if s.gates[j].active {
      var xs := s.freeSlots + [j];
      assert j !in s.freeSlots;
      assert Distinct(xs);
      DistinctBelowBound(xs, s.gateCount);
    }
  }

  // ---------------------------------------------------------------------
  // Gates in service
  // ---------------------------------------------------------------------

  lemma {:induction false} SumFirstAgree(xs: seq<nat>, ys: seq<nat>, n: nat)
    requires n <= |xs| && n <= |ys|
    requires forall i :: 0 <= i < n ==> xs[i] == ys[i]
    ensures SumFirst(xs, n) == SumFirst(ys, n)
  {
    if n > 0 {
      SumFirstAgree(xs, ys, n - 1);
    }
  }

  /** A freshly created gate is in good order. */
  lemma NewGateOk(s: State, creator: Id, fee: nat, input: CreateInput, epoch: Epoch)
    requires CreateAcceptable(s, fee, input)
    ensures GateOk(NewGate(creator, DecodeMode(input.mode).value, input, epoch))
  {
    var g := NewGate(creator, DecodeMode(input.mode).value, input, epoch);
    if g.mode == Split {
      SumFirstAgree(g.ratios, input.ratios, g.recipientCount);
    }
  }

  /** An accepted update keeps a gate's shape, and the corrected update
      keeps it in good order. */
  lemma UpdatedGateOk(g: Gate, input: UpdateInput, epoch: Epoch)
    requires GateShapeOk(g)
    requires 1 <= input.recipientCount <= MAX_RECIPIENTS && input.allowedSenderCount <= MAX_RECIPIENTS
    requires g.mode == Split ==> RatiosAcceptable(input.ratios, input.recipientCount)
    requires g.mode == Threshold ==> input.threshold != 0
    ensures GateShapeOk(ApplyUpdate(g, input, epoch))
    ensures GateOk(RewindCursor(ApplyUpdate(g, input, epoch)))
  {
    var u := ApplyUpdate(g, input, epoch);
    if g.mode == Split {
      SumFirstAgree(u.ratios, input.ratios, u.recipientCount);
    }
  }

  /** Routing a payment keeps a gate's shape, and keeps a gate in good
      order in good order. */
  lemma RoutedGateOk(g: Gate, sender: Id, amount: nat, epoch: Epoch, tick: nat)
    requires GateShapeOk(g)
    ensures GateShapeOk(Route(g.(lastActivityEpoch := epoch, totalReceived := g.totalReceived + amount), sender, amount, tick).gate)
    ensures GateOk(g) ==>
              GateOk(Route(g.(lastActivityEpoch := epoch, totalReceived := g.totalReceived + amount), sender, amount, tick).gate)
  {
    var c := g.(lastActivityEpoch := epoch, totalReceived := g.totalReceived + amount);
    var r := Route(c, sender, amount, tick);
    assert r.gate == c.(totalForwarded := r.gate.totalForwarded, currentBalance := r.gate.currentBalance,
                        roundRobinIndex := r.gate.roundRobinIndex);
  }

  // ---------------------------------------------------------------------
  // Preservation, procedure by procedure. Each procedure as the source
  // writes it keeps the slot bookkeeping; the gate-level lemmas above then
  // give the rest of each invariant.
  // ---------------------------------------------------------------------

  /** The full invariant includes the as-written one. */
  lemma ValidIsValidAsWritten(s: State)
    requires Valid(s)
    ensures ValidAsWritten(s)
  {
    forall j | 0 <= j < MAX_GATES && s.gates[j].active
      ensures GateShapeOk(s.gates[j])
    {
      assert GateOk(s.gates[j]);
    }
    assert InShape(s.gates);
  }

  lemma InitValid()
    ensures Valid(Init())
  {
  }

  lemma CreateKeepsSlots(s: State, creator: Id, fee: nat, input: CreateInput, epoch: Epoch)
    requires SlotsAgree(s)
    ensures SlotsAgree(CreateGate(s, creator, fee, input, epoch).state)
  {
    var o := CreateGate(s, creator, fee, input, epoch);
    if o.output.status == Success {
      var slot := NextSlot(s);
      var t := o.state;
      if |s.freeSlots| > 0 {
        var rest := s.freeSlots[..|s.freeSlots| - 1];
        assert s.freeSlots == rest + [slot];
        forall j | 0 <= j < MAX_GATES
          ensures j < t.gateCount && !t.gates[j].active <==> j in t.freeSlots
        {
          if j in rest {
            var k :| 0 <= k < |rest| && rest[k] == j;
            assert s.freeSlots[k] == j && s.freeSlots[|s.freeSlots| - 1] == slot;
          }
        }
      } else {
        forall j | 0 <= j < MAX_GATES
          ensures j < t.gateCount && !t.gates[j].active <==> j in t.freeSlots
        {
        }
      }
    }
  }

  lemma CreatePreservesValid(s: State, creator: Id, fee: nat, input: CreateInput, epoch: Epoch)
    requires ValidAsWritten(s)
    ensures ValidAsWritten(CreateGate(s, creator, fee, input, epoch).state)
    ensures Valid(s) ==> Valid(CreateGate(s, creator, fee, input, epoch).state)
  {
    CreateKeepsSlots(s, creator, fee, input, epoch);
    if CreateAcceptable(s, fee, input) {
      var g := NewGate(creator, DecodeMode(input.mode).value, input, epoch);
      NewGateOk(s, creator, fee, input, epoch);
      ReplaceGate(s.gates, NextSlot(s), g);
    }
  }

  lemma SendKeepsSlots(s: State, sender: Id, gateId: nat, amount: nat, epoch: Epoch, tick: nat)
    requires SlotsAgree(s)
    ensures SlotsAgree(SendToGate(s, sender, gateId, amount, epoch, tick).state)
  {
    var t := SendToGate(s, sender, gateId, amount, epoch, tick).state;
    forall j | 0 <= j < MAX_GATES
      ensures t.gates[j].active == s.gates[j].active
      ensures !t.gates[j].active ==> t.gates[j].currentBalance == 0
    {
    }
  }

  /** A send writes at most the one gate it routes through. */
  lemma SendWritesOneGate(s: State, sender: Id, gateId: nat, amount: nat, epoch: Epoch, tick: nat)
    ensures var t := SendToGate(s, sender, gateId, amount, epoch, tick).state;
            && (SendRouted(s, gateId, amount) ==>
                  var g := s.gates[gateId - 1];
                  t.gates == s.gates[gateId - 1 := Route(g.(lastActivityEpoch := epoch, totalReceived := g.totalReceived + amount), sender, amount, tick).gate])
            && (!SendRouted(s, gateId, amount) ==> t.gates == s.gates)
  {
  }

  lemma SendPreservesValid(s: State, sender: Id, gateId: nat, amount: nat, epoch: Epoch, tick: nat)
    requires ValidAsWritten(s)
    ensures ValidAsWritten(SendToGate(s, sender, gateId, amount, epoch, tick).state)
    ensures Valid(s) ==> Valid(SendToGate(s, sender, gateId, amount, epoch, tick).state)
  {
    SendKeepsSlots(s, sender, gateId, amount, epoch, tick);
    SendWritesOneGate(s, sender, gateId, amount, epoch, tick);
    if SendRouted(s, gateId, amount) {
      var g := s.gates[gateId - 1];
      var routed := Route(g.(lastActivityEpoch := epoch, totalReceived := g.totalReceived + amount), sender, amount, tick).gate;
      RoutedGateOk(g, sender, amount, epoch, tick);
      ReplaceGate(s.gates, gateId - 1, routed);
    }
  }

  /** Closing keeps the slot bookkeeping, whether or not the rejection
      refunds, and never takes the active counter below zero. */
  lemma CloseKeepsSlots(s: State, caller: Id, gateId: nat, reward: nat)
    requires SlotsAgree(s)
    ensures SlotsAgree(CloseGateAsWritten(s, caller, gateId, reward).state)
    ensures SlotsAgree(CloseGate(s, caller, gateId, reward).state)
    ensures CloseGateAsWritten(s, caller, gateId, reward).output == Success ==>
              CloseGateAsWritten(s, caller, gateId, reward).state.activeGates + 1 == s.activeGates
  {
    var o := CloseGateAsWritten(s, caller, gateId, reward);
    if o.output == Success {
      ValidCounts(s, gateId - 1);
      var t := o.state;
      forall j | 0 <= j < MAX_GATES
        ensures j < t.gateCount && !t.gates[j].active <==> j in t.freeSlots
      {
      }
    }
  }

  lemma ClosePreservesValid(s: State, caller: Id, gateId: nat, reward: nat)
    requires ValidAsWritten(s)
    ensures ValidAsWritten(CloseGateAsWritten(s, caller, gateId, reward).state)
    ensures Valid(s) ==> Valid(CloseGate(s, caller, gateId, reward).state)
    ensures CloseGate(s, caller, gateId, reward).output == Success ==>
              CloseGate(s, caller, gateId, reward).state.activeGates + 1 == s.activeGates
  {
    CloseKeepsSlots(s, caller, gateId, reward);
    if CloseGate(s, caller, gateId, reward).output == Success {
      ReplaceGate(s.gates, gateId - 1, Closed(s.gates[gateId - 1]));
    }
  }

  lemma UpdateKeepsSlots(s: State, caller: Id, reward: nat, input: UpdateInput, epoch: Epoch)
    requires SlotsAgree(s)
    ensures SlotsAgree(UpdateGateAsWritten(s, caller, reward, input, epoch).state)
    ensures SlotsAgree(UpdateGate(s, caller, reward, input, epoch).state)
  {
  }

  /** An update writes at most the gate it names, both as written and
      corrected. */
  lemma UpdateWritesOneGate(s: State, caller: Id, reward: nat, input: UpdateInput, epoch: Epoch)
    ensures UpdateAcceptable(s, caller, input) ==>
              var u := ApplyUpdate(s.gates[input.gateId - 1], input, epoch);
              && UpdateGateAsWritten(s, caller, reward, input, epoch).state.gates == s.gates[input.gateId - 1 := u]
              && UpdateGate(s, caller, reward, input, epoch).state.gates == s.gates[input.gateId - 1 := RewindCursor(u)]
    ensures !UpdateAcceptable(s, caller, input) ==>
              && UpdateGateAsWritten(s, caller, reward, input, epoch).state.gates == s.gates
              && UpdateGate(s, caller, reward, input, epoch).state.gates == s.gates
  {
  }

  /** The update as written keeps every gate in shape; the corrected one
      keeps every gate in good order. */
  lemma UpdatePreservesValid(s: State, caller: Id, reward: nat, input: UpdateInput, epoch: Epoch)
    requires ValidAsWritten(s)
    ensures ValidAsWritten(UpdateGateAsWritten(s, caller, reward, input, epoch).state)
    ensures Valid(s) ==> Valid(UpdateGate(s, caller, reward, input, epoch).state)
  {
    UpdateKeepsSlots(s, caller, reward, input, epoch);
    UpdateWritesOneGate(s, caller, reward, input, epoch);
    if UpdateAcceptable(s, caller, input) {
      var u := ApplyUpdate(s.gates[input.gateId - 1], input, epoch);
      UpdatedGateOk(s.gates[input.gateId - 1], input, epoch);
      ReplaceGate(s.gates, input.gateId - 1, u);
      ReplaceGate(s.gates, input.gateId - 1, RewindCursor(u));
    }
  }

  /** Every slot of `e` lies in [lo, count) and its gate expires. */
  predicate ExpiringWithin(e: seq<SlotIndex>, gates: GateArray, lo: nat, count: nat, epoch: Epoch, expiryEpochs: nat) {
    forall k :: 0 <= k < |e| ==> lo <= e[k] < count && Expires(gates[e[k]], epoch, expiryEpochs)
  }

  predicate Ascending(e: seq<SlotIndex>) {
    forall k, l :: 0 <= k < l < |e| ==> e[k] < e[l]
  }

  /** Every slot in [lo, count) whose gate expires is in `e`. */
  predicate CoversExpiring(e: seq<SlotIndex>, gates: GateArray, lo: nat, count: GateCount, epoch: Epoch, expiryEpochs: nat) {
    forall j :: lo <= j < count && Expires(gates[j], epoch, expiryEpochs) ==> j in e
  }

  lemma {:induction false} ExpiringSlotsInRange(gates: GateArray, count: GateCount, epoch: Epoch, expiryEpochs: nat, i: nat)
    requires i <= count
    ensures ExpiringWithin(ExpiringSlots(gates, count, epoch, expiryEpochs, i), gates, i, count, epoch, expiryEpochs)
    decreases count - i
  {
    if i < count {
      ExpiringSlotsInRange(gates, count, epoch, expiryEpochs, i + 1);
      var rest := ExpiringSlots(gates, count, epoch, expiryEpochs, i + 1);
      var e := ExpiringSlots(gates, count, epoch, expiryEpochs, i);
      if Expires(gates[i], epoch, expiryEpochs) {
        assert e == [i] + rest;
        forall k | 0 <= k < |e|
          ensures i <= e[k] < count && Expires(gates[e[k]], epoch, expiryEpochs)
        {
          if k > 0 {
            assert e[k] == rest[k - 1];
          }
        }
      } else {
        assert e == rest;
      }
    }
  }

  lemma {:induction false} ExpiringSlotsAscending(gates: GateArray, count: GateCount, epoch: Epoch, expiryEpochs: nat, i: nat)
    requires i <= count
    ensures Ascending(ExpiringSlots(gates, count, epoch, expiryEpochs, i))
    decreases count - i
  {
    if i < count {
      ExpiringSlotsAscending(gates, count, epoch, expiryEpochs, i + 1);
      ExpiringSlotsInRange(gates, count, epoch, expiryEpochs, i + 1);
      var rest := ExpiringSlots(gates, count, epoch, expiryEpochs, i + 1);
      var e := ExpiringSlots(gates, count, epoch, expiryEpochs, i);
      if Expires(gates[i], epoch, expiryEpochs) {
        assert e == [i] + rest;
        forall k, l | 0 <= k < l < |e|
          ensures e[k] < e[l]
        {
          assert e[l] == rest[l - 1];
          if k > 0 {
            assert e[k] == rest[k - 1];
          }
        }
      } else {
        assert e == rest;
      }
    }
  }

  lemma {:induction false} ExpiringSlotsComplete(gates: GateArray, count: GateCount, epoch: Epoch, expiryEpochs: nat, i: nat)
    requires i <= count
    ensures CoversExpiring(ExpiringSlots(gates, count, epoch, expiryEpochs, i), gates, i, count, epoch, expiryEpochs)
    decreases count - i
  {
    if i < count {
      ExpiringSlotsComplete(gates, count, epoch, expiryEpochs, i + 1);
      var rest := ExpiringSlots(gates, count, epoch, expiryEpochs, i + 1);
      var e := ExpiringSlots(gates, count, epoch, expiryEpochs, i);
      if Expires(gates[i], epoch, expiryEpochs) {
        assert e == [i] + rest;
      } else {
        assert e == rest;
      }
    }
  }

  /** The free stack after the sweep stays below the slot count. */
  predicate AllBelow(xs: seq<SlotIndex>, n: nat) {
    forall k :: 0 <= k < |xs| ==> xs[k] < n
  }

  lemma SweepFreeStackBelow(s: State, epoch: Epoch)
    requires SlotsAgree(s)
    ensures AllBelow(s.freeSlots + ExpiringSlots(s.gates, s.gateCount, epoch, s.expiryEpochs, 0), s.gateCount)
  {
    var e := ExpiringSlots(s.gates, s.gateCount, epoch, s.expiryEpochs, 0);
    ExpiringSlotsInRange(s.gates, s.gateCount, epoch, s.expiryEpochs, 0);
    var xs := s.freeSlots + e;
    forall k | 0 <= k < |xs|
      ensures xs[k] < s.gateCount
    {
      if k >= |s.freeSlots| {
        assert xs[k] == e[k - |s.freeSlots|];
      }
    }
  }

  /** The free stack after the sweep is still repetition-free. */
  lemma SweepFreeStackDistinct(s: State, epoch: Epoch)
    requires SlotsAgree(s)
    ensures Distinct(s.freeSlots + ExpiringSlots(s.gates, s.gateCount, epoch, s.expiryEpochs, 0))
  {
    var e := ExpiringSlots(s.gates, s.gateCount, epoch, s.expiryEpochs, 0);
    ExpiringSlotsInRange(s.gates, s.gateCount, epoch, s.expiryEpochs, 0);
    ExpiringSlotsAscending(s.gates, s.gateCount, epoch, s.expiryEpochs, 0);
    var xs := s.freeSlots + e;
    forall k, l | 0 <= k < l < |xs|
      ensures xs[k] != xs[l]
    {
      if l >= |s.freeSlots| {
        assert xs[l] == e[l - |s.freeSlots|];
        if k >= |s.freeSlots| {
          assert xs[k] == e[k - |s.freeSlots|];
        } else {
          assert xs[k] == s.freeSlots[k];
          assert !s.gates[xs[k]].active;
          assert Expires(s.gates[xs[l]], epoch, s.expiryEpochs);
        }
      }
    }
  }

  /** The free stack after the sweep: still repetition-free, still below
      the slot count, and so no longer than the slot count. */
  lemma SweepFreeStack(s: State, epoch: Epoch)
    requires SlotsAgree(s)
    ensures var xs := s.freeSlots + ExpiringSlots(s.gates, s.gateCount, epoch, s.expiryEpochs, 0);
            Distinct(xs) && |xs| <= s.gateCount
  {
    SweepFreeStackBelow(s, epoch);
    SweepFreeStackDistinct(s, epoch);
    DistinctBelowBound(s.freeSlots + ExpiringSlots(s.gates, s.gateCount, epoch, s.expiryEpochs, 0), s.gateCount);
  }

  lemma EndEpochKeepsSlots(s: State, epoch: Epoch)
    requires SlotsAgree(s)
    ensures SlotsAgree(EndEpoch(s, epoch).state)
  {
    var e := ExpiringSlots(s.gates, s.gateCount, epoch, s.expiryEpochs, 0);
    ExpiringSlotsInRange(s.gates, s.gateCount, epoch, s.expiryEpochs, 0);
    ExpiringSlotsComplete(s.gates, s.gateCount, epoch, s.expiryEpochs, 0);
    SweepFreeStack(s, epoch);
    var t := EndEpoch(s, epoch).state;
    assert t.freeSlots == s.freeSlots + e;
    assert t.activeGates + |e| == s.activeGates;
    forall j | 0 <= j < MAX_GATES
      ensures j < t.gateCount && !t.gates[j].active <==> j in t.freeSlots
    {
      if j in e {
        var k :| 0 <= k < |e| && e[k] == j;
      }
    }
  }

  /** The sweep closes gates and touches no other: whatever shape or order
      the gates still in service were in, they stay in. */
  lemma EndEpochPreservesValid(s: State, epoch: Epoch)
    requires ValidAsWritten(s)
    ensures ValidAsWritten(EndEpoch(s, epoch).state)
    ensures Valid(s) ==> Valid(EndEpoch(s, epoch).state)
  {
    EndEpochKeepsSlots(s, epoch);
    var t := EndEpoch(s, epoch).state;
    forall j | 0 <= j < MAX_GATES && t.gates[j].active
      ensures t.gates[j] == s.gates[j]
    {
    }
  }

  // ---------------------------------------------------------------------
  // Whole runs
  // ---------------------------------------------------------------------

  /** One call to the contract, as the ledger would make it. */
  datatype Call =
    | Create(creator: Id, fee: nat, input: CreateInput)
    | Send(sender: Id, gateId: nat, amount: nat, tick: nat)
    | Close(caller: Id, closeId: nat, reward: nat)
    | Update(updater: Id, updateReward: nat, update: UpdateInput)
    | EndOfEpoch

  datatype Invocation = Invocation(call: Call, epoch: Epoch)

  /** One call to the corrected contract: the next state and the value
      movements it issues. Close and update are the corrected ones. */
  function Step(s: State, inv: Invocation): Outcome<()> {
    match inv.call
    case Create(creator, fee, input) =>
      var o := CreateGate(s, creator, fee, input, inv.epoch); Outcome(o.state, (), o.effects)
    case Send(sender, gateId, amount, tick) =>
      var o := SendToGate(s, sender, gateId, amount, inv.epoch, tick); Outcome(o.state, (), o.effects)
    case Close(caller, gateId, reward) =>
      var o := CloseGate(s, caller, gateId, reward); Outcome(o.state, (), o.effects)
    case Update(caller, reward, input) =>
      var o := UpdateGate(s, caller, reward, input, inv.epoch); Outcome(o.state, (), o.effects)
    case EndOfEpoch => EndEpoch(s, inv.epoch)
  }

  /** One call to the contract as the source writes it. */
  function StepAsWritten(s: State, inv: Invocation): Outcome<()> {
    match inv.call
    case Create(creator, fee, input) =>
      var o := CreateGate(s, creator, fee, input, inv.epoch); Outcome(o.state, (), o.effects)
    case Send(sender, gateId, amount, tick) =>
      var o := SendToGate(s, sender, gateId, amount, inv.epoch, tick); Outcome(o.state, (), o.effects)
    case Close(caller, gateId, reward) =>
      var o := CloseGateAsWritten(s, caller, gateId, reward); Outcome(o.state, (), o.effects)
    case Update(caller, reward, input) =>
      var o := UpdateGateAsWritten(s, caller, reward, input, inv.epoch); Outcome(o.state, (), o.effects)
    case EndOfEpoch => EndEpoch(s, inv.epoch)
  }

  /** The state after a sequence of calls to the corrected contract, in order. */
  function Run(s: State, invs: seq<Invocation>): State
    decreases |invs|
  {
    if invs == [] then s else Run(Step(s, invs[0]).state, invs[1..])
  }

  /** The state after a sequence of calls to the contract as written. */
  function RunAsWritten(s: State, invs: seq<Invocation>): State
    decreases |invs|
  {
    if invs == [] then s else RunAsWritten(StepAsWritten(s, invs[0]).state, invs[1..])
  }

  lemma StepPreservesValid(s: State, inv: Invocation)
    requires Valid(s)
    ensures Valid(Step(s, inv).state)
  {
    ValidIsValidAsWritten(s);
    var t := Step(s, inv).state;
    match inv.call
    case Create(creator, fee, input) =>
      CreatePreservesValid(s, creator, fee, input, inv.epoch);
      assert t == CreateGate(s, creator, fee, input, inv.epoch).state;
    case Send(sender, gateId, amount, tick) =>
      SendPreservesValid(s, sender, gateId, amount, inv.epoch, tick);
      assert t == SendToGate(s, sender, gateId, amount, inv.epoch, tick).state;
    case Close(caller, gateId, reward) =>
      ClosePreservesValid(s, caller, gateId, reward);
      assert t == CloseGate(s, caller, gateId, reward).state;
    case Update(caller, reward, input) =>
      UpdatePreservesValid(s, caller, reward, input, inv.epoch);
      assert t == UpdateGate(s, caller, reward, input, inv.epoch).state;
    case EndOfEpoch =>
      EndEpochPreservesValid(s, inv.epoch);
      assert t == EndEpoch(s, inv.epoch).state;
  }

  lemma StepAsWrittenPreservesValid(s: State, inv: Invocation)
    requires ValidAsWritten(s)
    ensures ValidAsWritten(StepAsWritten(s, inv).state)
  {
    var t := StepAsWritten(s, inv).state;
    match inv.call
    case Create(creator, fee, input) =>
      CreatePreservesValid(s, creator, fee, input, inv.epoch);
      assert t == CreateGate(s, creator, fee, input, inv.epoch).state;
    case Send(sender, gateId, amount, tick) =>
      SendPreservesValid(s, sender, gateId, amount, inv.epoch, tick);
      assert t == SendToGate(s, sender, gateId, amount, inv.epoch, tick).state;
    case Close(caller, gateId, reward) =>
      ClosePreservesValid(s, caller, gateId, reward);
      assert t == CloseGateAsWritten(s, caller, gateId, reward).state;
    case Update(caller, reward, input) =>
      UpdatePreservesValid(s, caller, reward, input, inv.epoch);
      assert t == UpdateGateAsWritten(s, caller, reward, input, inv.epoch).state;
    case EndOfEpoch =>
      EndEpochPreservesValid(s, inv.epoch);
      assert t == EndEpoch(s, inv.epoch).state;
  }

  /** Any sequence of calls to the corrected contract keeps the invariant. */
  lemma {:induction false} RunPreservesValid(s: State, invs: seq<Invocation>)
    requires Valid(s)
    ensures Valid(Run(s, invs))
    decreases |invs|
  {
    if invs != [] {
      StepPreservesValid(s, invs[0]);
      RunPreservesValid(Step(s, invs[0]).state, invs[1..]);
    }
  }

  /** Any sequence of calls to the contract as written keeps the slot
      bookkeeping and the shape of every gate in service. */
  lemma {:induction false} RunAsWrittenPreservesValid(s: State, invs: seq<Invocation>)
    requires ValidAsWritten(s)
    ensures ValidAsWritten(RunAsWritten(s, invs))
    decreases |invs|
  {
    if invs != [] {
      StepAsWrittenPreservesValid(s, invs[0]);
      RunAsWrittenPreservesValid(StepAsWritten(s, invs[0]).state, invs[1..]);
    }
  }

  /** Every state the corrected contract reaches from INITIALIZE satisfies the invariant. */
  lemma ReachableValid(invs: seq<Invocation>)
    ensures Valid(Run(Init(), invs))
  {
    InitValid();
    RunPreservesValid(Init(), invs);
  }

  /** Every state the contract as written reaches from INITIALIZE keeps its
      slot bookkeeping: `_freeCount + _activeGates == _gateCount`, no slot
      twice on the free stack, and the free stack is the closed slots. */
  lemma ReachableAsWrittenSlotsAgree(invs: seq<Invocation>)
    ensures ValidAsWritten(RunAsWritten(Init(), invs))
    ensures SlotsAgree(RunAsWritten(Init(), invs))
  {
    InitValid();
    RunAsWrittenPreservesValid(Init(), invs);
  }
}
