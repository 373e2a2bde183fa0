/** The forwarding rules a gate applies to an accepted send, one per mode.
    Each takes the gate record as it stands after the send has been
    counted into `totalReceived`, and returns the updated record, the
    status, and the transfers the rule issues. */
module Routing {
  import opened Qpi
  import opened GateModel

  datatype Routed = Routed(gate: Gate, status: Status, effects: seq<Effect>)

  /** Routing touches only the forwarding counter, the held balance and the
      round-robin cursor of a gate. */
  predicate OnlyFlowsChanged(before: Gate, after: Gate) {
    after == before.(totalForwarded := after.totalForwarded,
                     currentBalance := after.currentBalance,
                     roundRobinIndex := after.roundRobinIndex)
  }

  // ---------------------------------------------------------------------
  // SPLIT
  // ---------------------------------------------------------------------

  /** The share of a recipient other than the last: floor(amount * ratio / total),
      or 0 when the ratios sum to 0. */
  function Share(amount: nat, ratio: nat, total: nat): nat {
    Div(amount * ratio, total)
  }

  /** The shares of the first `n` recipients added up. */
  function SharesBefore(amount: nat, ratios: seq<nat>, total: nat, n: nat): nat
    requires n <= |ratios|
  {
    if n == 0 then 0 else SharesBefore(amount, ratios, total, n - 1) + Share(amount, ratios[n - 1], total)
  }

  lemma {:induction false} SharesBeforeScaled(amount: nat, ratios: seq<nat>, total: nat, n: nat)
    requires n <= |ratios|
    requires total > 0
    ensures SharesBefore(amount, ratios, total, n) * total <= amount * SumFirst(ratios, n)
  {
    if n > 0 {
      SharesBeforeScaled(amount, ratios, total, n - 1);
      var p := SharesBefore(amount, ratios, total, n - 1);
      var q := Share(amount, ratios[n - 1], total);
      var x := SumFirst(ratios, n - 1);
      var r := ratios[n - 1];
      assert q * total <= amount * r;
      Distribute(total, p, q);
      Distribute(amount, x, r);
      assert SumFirst(ratios, n) == x + r;
    }
  }

  lemma Distribute(a: nat, x: nat, y: nat)
    ensures (x + y) * a == x * a + y * a
    ensures a * (x + y) == a * x + a * y
  {
  }

  lemma {:induction false} SharesBeforeZeroTotal(amount: nat, ratios: seq<nat>, n: nat)
    requires n <= |ratios|
    ensures SharesBefore(amount, ratios, 0, n) == 0
  {
    if n > 0 {
      SharesBeforeZeroTotal(amount, ratios, n - 1);
    }
  }

  /** Rounding down never hands out more than the amount: with the ratios
      of the first `count` recipients as the total, the shares of any `n <= count`
      of them add up to at most `amount`. */
  lemma SharesFit(amount: nat, ratios: seq<nat>, count: nat, n: nat)
    requires n <= count <= |ratios|
    ensures SharesBefore(amount, ratios, SumFirst(ratios, count), n) <= amount
  {
    var total := SumFirst(ratios, count);
    var p := SharesBefore(amount, ratios, total, n);
    if total == 0 {
      SharesBeforeZeroTotal(amount, ratios, n);
    } else {
      SharesBeforeScaled(amount, ratios, total, n);
      SumFirstMonotone(ratios, n, count);
      MulMonotone(amount, SumFirst(ratios, n), total);
      MulCancel(p, amount, total);
    }
  }

  lemma MulMonotone(a: nat, x: nat, y: nat)
    requires x <= y
    ensures a * x <= a * y
  {
    assert a * y == a * x + a * (y - x);
  }

  lemma MulCancel(p: nat, a: nat, t: nat)
    requires t > 0
    requires p * t <= a * t
    ensures p <= a
  {
  }

  /** What SPLIT credits each of the first `count` recipients: the rounded-down
      proportional share for all but the last, and the rest of the amount for
      the last. */
  function SplitShares(amount: nat, ratios: seq<nat>, count: nat): (shares: seq<nat>)
    requires count <= |ratios|
    ensures |shares| == count
  {
    if count == 0 then []
    else
      var total := SumFirst(ratios, count);
      SharesFit(amount, ratios, count, count - 1);
      var last := amount - SharesBefore(amount, ratios, total, count - 1);
      seq(count, i requires 0 <= i < count => if i < count - 1 then Share(amount, ratios[i], total) else last)
  }

  lemma {:induction false} SharesAreSharesBefore(amount: nat, ratios: seq<nat>, count: nat, n: nat)
    requires 1 <= count <= |ratios|
    requires n <= count - 1
    ensures SumFirst(SplitShares(amount, ratios, count), n) == SharesBefore(amount, ratios, SumFirst(ratios, count), n)
  {
    if n > 0 {
      SharesAreSharesBefore(amount, ratios, count, n - 1);
    }
  }

  /** SPLIT is exact: the shares add up to the amount, every recipient but the
      last gets floor(amount * ratio / total), and the last, which takes the rounding
      remainder, never gets less than its own proportional share. */
  lemma SplitSharesExact(amount: nat, ratios: seq<nat>, count: nat)
    requires 1 <= count <= |ratios|
    ensures SumFirst(SplitShares(amount, ratios, count), count) == amount
    ensures forall i :: 0 <= i < count - 1 ==>
              SplitShares(amount, ratios, count)[i] == Div(amount * ratios[i], SumFirst(ratios, count))
    ensures SplitShares(amount, ratios, count)[count - 1] >= Div(amount * ratios[count - 1], SumFirst(ratios, count))
  {
    var shares := SplitShares(amount, ratios, count);
    var total := SumFirst(ratios, count);
    SharesAreSharesBefore(amount, ratios, count, count - 1);
    SharesFit(amount, ratios, count, count);
  }

  /** The share of recipient `i` on its own. */
  lemma SplitShareAt(amount: nat, ratios: seq<nat>, count: nat, i: nat)
    requires i < count <= |ratios|
    ensures SharesBefore(amount, ratios, SumFirst(ratios, count), count - 1) <= amount
    ensures SplitShares(amount, ratios, count)[i]
              == if i == count - 1 then amount - SharesBefore(amount, ratios, SumFirst(ratios, count), count - 1)
                 else Share(amount, ratios[i], SumFirst(ratios, count))
  {
    SharesFit(amount, ratios, count, count - 1);
  }

  /** One transfer per non-zero share, in recipient order, from position `i` on. */
  function PayShares(recipients: seq<Id>, shares: seq<nat>, i: nat): seq<Effect>
    requires i <= |shares| <= |recipients|
    decreases |shares| - i
  {
    if i == |shares| then []
    else (if shares[i] > 0 then [Transfer(recipients[i], shares[i])] else []) + PayShares(recipients, shares, i + 1)
  }

  datatype SplitResult = SplitResult(effects: seq<Effect>, distributed: nat)

  /** The distribution loop of SPLIT from recipient `i` on, `distributed`
      being what the earlier recipients were paid. The last recipient is paid
      `amount - distributed`; zero shares are skipped. */
  function SplitLoop(recipients: IdArray, ratios: RatioArray, count: Count, amount: nat,
                     total: nat, i: nat, distributed: nat): (r: SplitResult)
    requires i <= count
    requires total == SumFirst(ratios, count)
    requires i < count ==> distributed == SharesBefore(amount, ratios, total, i)
    ensures i < count ==> r.distributed == amount
    ensures i == count ==> r.distributed == distributed
    ensures distributed + EffectsTotal(r.effects) == r.distributed
    ensures Burned(r.effects) == 0
    ensures r.effects == PayShares(recipients, SplitShares(amount, ratios, count), i)
    decreases count - i
  {
    if i == count then SplitResult([], distributed)
    else
      SplitShareAt(amount, ratios, count, i);
      var share := if i == count - 1 then amount - distributed else Share(amount, ratios[i], total);
      var paid := Refund(recipients[i], share);
      var rest := SplitLoop(recipients, ratios, count, amount, total, i + 1,
                            if share > 0 then distributed + share else distributed);
      EffectsTotalAppend(paid, rest.effects);
      SplitResult(paid + rest.effects, rest.distributed)
  }

  /** SPLIT: pays each recipient its share and counts what was paid as forwarded. */
  function SplitForward(g: Gate, amount: nat): (r: Routed)
    ensures r.status == Success
    ensures r.effects == PayShares(g.recipients, SplitShares(amount, g.ratios, g.recipientCount), 0)
    ensures g.recipientCount > 0 ==> EffectsTotal(r.effects) == amount
    ensures Burned(r.effects) == 0
    ensures r.gate == g.(totalForwarded := g.totalForwarded + EffectsTotal(r.effects))
  {
    var total := SumFirst(g.ratios, g.recipientCount);
    var split := SplitLoop(g.recipients, g.ratios, g.recipientCount, amount, total, 0, 0);
    Routed(g.(totalForwarded := g.totalForwarded + split.distributed), Success, split.effects)
  }

  // ---------------------------------------------------------------------
  // ROUND_ROBIN
  // ---------------------------------------------------------------------

  /** ROUND_ROBIN: the whole amount to the recipient under the cursor, then the
      cursor moves one place on, wrapping at the recipient count. */
  function RoundRobinForward(g: Gate, amount: nat): (r: Routed)
    ensures r.status == Success
    ensures r.effects == [Transfer(g.recipients[g.roundRobinIndex], amount)]
    ensures r.gate.roundRobinIndex < g.recipientCount || g.recipientCount == 0
    ensures g.recipientCount > 0 ==> r.gate.roundRobinIndex == (g.roundRobinIndex + 1) % g.recipientCount
    ensures r.gate == g.(totalForwarded := g.totalForwarded + amount, roundRobinIndex := r.gate.roundRobinIndex)
  {
    Routed(g.(totalForwarded := g.totalForwarded + amount,
              roundRobinIndex := Mod(g.roundRobinIndex + 1, g.recipientCount)),
           Success,
           [Transfer(g.recipients[g.roundRobinIndex], amount)])
  }

  // ---------------------------------------------------------------------
  // THRESHOLD
  // ---------------------------------------------------------------------

  /** THRESHOLD: the amount is added to the held balance; once the balance
      reaches the threshold all of it goes to the first recipient in one transfer. */
  function ThresholdForward(g: Gate, amount: nat): (r: Routed)
    ensures r.status == Success
    ensures g.currentBalance + amount < g.threshold ==>
              r.effects == [] && r.gate == g.(currentBalance := g.currentBalance + amount)
    ensures g.currentBalance + amount >= g.threshold ==>
              && r.effects == [Transfer(g.recipients[0], g.currentBalance + amount)]
              && r.gate == g.(currentBalance := 0, totalForwarded := g.totalForwarded + g.currentBalance + amount)
    ensures g.threshold > 0 ==> r.gate.currentBalance < g.threshold
  {
    var balance := g.currentBalance + amount;
    if balance >= g.threshold then
      Routed(g.(totalForwarded := g.totalForwarded + balance, currentBalance := 0),
             Success, [Transfer(g.recipients[0], balance)])
    else
      Routed(g.(currentBalance := balance), Success, [])
  }

  // ---------------------------------------------------------------------
  // RANDOM
  // ---------------------------------------------------------------------

  /** The recipient RANDOM picks: (totalReceived + tick) mod recipientCount. */
  function RandomPick(g: Gate, tick: nat): (k: RecipientIndex)
    ensures g.recipientCount > 0 ==> k < g.recipientCount
    ensures g.recipientCount > 0 ==> k == (g.totalReceived + tick) % g.recipientCount
  {
    Mod(g.totalReceived + tick, g.recipientCount)
  }

  /** RANDOM: the whole amount to the picked recipient. */
  function RandomForward(g: Gate, amount: nat, tick: nat): (r: Routed)
    ensures r.status == Success
    ensures r.effects == [Transfer(g.recipients[RandomPick(g, tick)], amount)]
    ensures g.recipientCount > 0 ==> r.effects[0].to in g.recipients[..g.recipientCount]
    ensures r.gate == g.(totalForwarded := g.totalForwarded + amount)
  {
    Routed(g.(totalForwarded := g.totalForwarded + amount), Success,
           [Transfer(g.recipients[RandomPick(g, tick)], amount)])
  }

  // ---------------------------------------------------------------------
  // CONDITIONAL
  // ---------------------------------------------------------------------

  /** Whether `sender` is among the first `allowedSenderCount` allowed senders. */
  predicate SenderAllowed(g: Gate, sender: Id) {
    sender in g.allowedSenders[..g.allowedSenderCount]
  }

  /** CONDITIONAL: a listed sender's amount goes whole to the first recipient;
      anyone else gets it back and the call reports CONDITIONAL_REJECTED. */
  function ConditionalForward(g: Gate, sender: Id, amount: nat): (r: Routed)
    ensures r.status == Success <==> exists i :: 0 <= i < g.allowedSenderCount && g.allowedSenders[i] == sender
    ensures r.status == Success ==>
              && r.effects == [Transfer(g.recipients[0], amount)]
              && r.gate == g.(totalForwarded := g.totalForwarded + amount)
    ensures r.status != Success ==>
              && r.status == ConditionalRejected
              && r.effects == [Transfer(sender, amount)]
              && r.gate == g
  {
    if SenderAllowed(g, sender) then
      Routed(g.(totalForwarded := g.totalForwarded + amount), Success, [Transfer(g.recipients[0], amount)])
    else
      Routed(g, ConditionalRejected, [Transfer(sender, amount)])
  }

  // ---------------------------------------------------------------------
  // Dispatch
  // ---------------------------------------------------------------------

  /** The forwarding step of `sendToGate`, chosen by the gate's mode. No rule
      burns value, and no rule creates or loses any: what leaves in transfers
      plus what the gate still holds equals what came in plus what it held. */
  function Route(g: Gate, sender: Id, amount: nat, tick: nat): (r: Routed)
    ensures OnlyFlowsChanged(g, r.gate)
    ensures r.status == Success || (r.status == ConditionalRejected && g.mode == Conditional)
    ensures Burned(r.effects) == 0
    ensures g.recipientCount > 0 ==> EffectsTotal(r.effects) + r.gate.currentBalance == amount + g.currentBalance
    ensures r.status == Success ==>
              r.gate.totalForwarded + r.gate.currentBalance == g.totalForwarded + g.currentBalance + amount
              || (g.mode == Split && g.recipientCount == 0)
    ensures r.status != Success ==> r.gate == g && r.effects == [Transfer(sender, amount)]
    ensures g.mode != RoundRobin ==> r.gate.roundRobinIndex == g.roundRobinIndex
    ensures g.mode == RoundRobin && g.recipientCount > 0 ==>
              r.gate.roundRobinIndex == (g.roundRobinIndex + 1) % g.recipientCount
    ensures g.mode != Threshold ==> r.gate.currentBalance == g.currentBalance
    ensures g.mode == Threshold && g.threshold > 0 ==> r.gate.currentBalance < g.threshold
  {
    match g.mode
    case Split => SplitForward(g, amount)
    case RoundRobin => RoundRobinForward(g, amount)
    case Threshold => ThresholdForward(g, amount)
    case Random => RandomForward(g, amount, tick)
    case Conditional => ConditionalForward(g, sender, amount)
  }
}
