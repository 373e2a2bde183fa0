/** The data of the QuGate contract: its constants and status codes, the
    `GateConfig` record, the contract state `QuGateState`, the procedure
    inputs and outputs, and the value movements (transfers and burns) a
    call issues. */
module GateModel {
  import opened Qpi
  import opened Wrappers

  // ---------------------------------------------------------------------
  // Constants
  // ---------------------------------------------------------------------

  /** QUGATE_INITIAL_MAX_GATES times X_MULTIPLIER (which is 1). */
  const MAX_GATES: nat := 4096
  const MAX_RECIPIENTS: nat := 8
  const MAX_RATIO: nat := 10000
  const DEFAULT_CREATION_FEE: nat := 1000
  const DEFAULT_MIN_SEND: nat := 10
  const FEE_ESCALATION_STEP: nat := 1024
  const DEFAULT_EXPIRY_EPOCHS: nat := 50

  // ---------------------------------------------------------------------
  // Modes and status codes
  // ---------------------------------------------------------------------

  datatype Mode = Split | RoundRobin | Threshold | Random | Conditional

  /** The byte a mode is stored and reported as (MODE_SPLIT = 0 ... MODE_CONDITIONAL = 4). */
  function ModeCode(m: Mode): nat {
    match m
    case Split => 0
    case RoundRobin => 1
    case Threshold => 2
    case Random => 3
    case Conditional => 4
  }

  /** Reads the mode byte of a create request; codes above MODE_CONDITIONAL name no mode. */
  function DecodeMode(code: nat): (r: Option<Mode>)
    ensures r.Some? <==> code <= 4
    ensures r.Some? ==> ModeCode(r.value) == code
  {
    if code == 0 then Some(Split)
    else if code == 1 then Some(RoundRobin)
    else if code == 2 then Some(Threshold)
    else if code == 3 then Some(Random)
    else if code == 4 then Some(Conditional)
    else None
  }

  datatype Status =
    | Success
    | InvalidGateId
    | GateNotActive
    | Unauthorized
    | InvalidMode
    | InvalidRecipientCount
    | InvalidRatio
    | InsufficientFee
    | NoFreeSlots
    | DustAmount
    | InvalidThreshold
    | InvalidSenderCount
    | ConditionalRejected
  {
    /** The signed code written into a procedure's `status` output. */
    function Code(): int {
      match this
      case Success => 0
      case InvalidGateId => -1
      case GateNotActive => -2
      case Unauthorized => -3
      case InvalidMode => -4
      case InvalidRecipientCount => -5
      case InvalidRatio => -6
      case InsufficientFee => -7
      case NoFreeSlots => -8
      case DustAmount => -9
      case InvalidThreshold => -10
      case InvalidSenderCount => -11
      case ConditionalRejected => -12
    }
  }

  // ---------------------------------------------------------------------
  // Fixed-size arrays
  // ---------------------------------------------------------------------

  /** `Array<id, 8>`. */
  type IdArray = a: seq<Id> | |a| == MAX_RECIPIENTS witness seq(MAX_RECIPIENTS, _ => ZERO_ID)

  /** `Array<uint64, 8>`. */
  type RatioArray = a: seq<nat> | |a| == MAX_RECIPIENTS witness seq(MAX_RECIPIENTS, _ => 0)

  /** A recipient or allowed-sender count as stored in a gate: every path
      that writes one has checked it against MAX_RECIPIENTS. */
  type Count = c: nat | c <= MAX_RECIPIENTS

  /** A position in a gate's recipient array. */
  type RecipientIndex = i: nat | i < MAX_RECIPIENTS

  /** A position in the gate store. */
  type SlotIndex = i: nat | i < MAX_GATES

  /** The number of slots ever handed out; the store never grows past its capacity. */
  type GateCount = c: nat | c <= MAX_GATES

  // ---------------------------------------------------------------------
  // Gate record and contract state
  // ---------------------------------------------------------------------

  /** `GateConfig`. */
  datatype Gate = Gate(
    owner: Id,
    mode: Mode,
    recipientCount: Count,
    active: bool,
    allowedSenderCount: Count,
    createdEpoch: Epoch,
    lastActivityEpoch: Epoch,
    totalReceived: nat,
    totalForwarded: nat,
    currentBalance: nat,
    threshold: nat,
    roundRobinIndex: RecipientIndex,
    recipients: IdArray,
    ratios: RatioArray,
    allowedSenders: IdArray)

  const ZERO_IDS: IdArray := [ZERO_ID, ZERO_ID, ZERO_ID, ZERO_ID, ZERO_ID, ZERO_ID, ZERO_ID, ZERO_ID]
  const ZERO_RATIOS: RatioArray := [0, 0, 0, 0, 0, 0, 0, 0]

  /** A slot that was never written: all-zero memory, which reads as an
      inactive SPLIT gate owned by the zero key. */
  const EMPTY_GATE: Gate :=
    Gate(ZERO_ID, Split, 0, false, 0, 0, 0, 0, 0, 0, 0, 0, ZERO_IDS, ZERO_RATIOS, ZERO_IDS)

  /** `Array<GateConfig, MAX_GATES>`. */
  type GateArray = a: seq<Gate> | |a| == MAX_GATES witness seq(MAX_GATES, _ => EMPTY_GATE)

  /** `QuGateState`. The free-slot stack `_freeSlots[0.._freeCount)` is the
      sequence `freeSlots`, so `_freeCount` is `|freeSlots|`. */
  datatype State = State(
    gateCount: GateCount,
    activeGates: nat,
    totalBurned: nat,
    gates: GateArray,
    freeSlots: seq<SlotIndex>,
    creationFee: nat,
    minSendAmount: nat,
    expiryEpochs: nat)

  /** The state INITIALIZE leaves: an empty store and the default fees. */
  function Init(): (s: State)
    ensures s.gateCount == 0 && s.activeGates == 0 && s.freeSlots == []
    ensures forall i :: 0 <= i < MAX_GATES ==> !s.gates[i].active && s.gates[i].currentBalance == 0
    ensures s.totalBurned == 0
    ensures s.creationFee == 1000 && s.minSendAmount == 10 && s.expiryEpochs == 50
  {
    State(0, 0, 0, seq(MAX_GATES, _ => EMPTY_GATE), [],
          DEFAULT_CREATION_FEE, DEFAULT_MIN_SEND, DEFAULT_EXPIRY_EPOCHS)
  }

  // ---------------------------------------------------------------------
  // Procedure inputs and outputs
  // ---------------------------------------------------------------------

  /** `createGate_input`; the byte-sized fields are kept as naturals. */
  datatype CreateInput = CreateInput(
    mode: nat,
    recipientCount: nat,
    recipients: IdArray,
    ratios: RatioArray,
    threshold: nat,
    allowedSenders: IdArray,
    allowedSenderCount: nat)

  /** `updateGate_input`: like a create request but naming a gate and without a mode. */
  datatype UpdateInput = UpdateInput(
    gateId: nat,
    recipientCount: nat,
    recipients: IdArray,
    ratios: RatioArray,
    threshold: nat,
    allowedSenders: IdArray,
    allowedSenderCount: nat)

  datatype CreateOutput = CreateOutput(status: Status, gateId: nat, feePaid: nat)

  /** `getGate_output`: a gate without its whitelist and cursor; the mode as its byte. */
  datatype GateView = GateView(
    mode: nat,
    recipientCount: nat,
    active: bool,
    owner: Id,
    totalReceived: nat,
    totalForwarded: nat,
    currentBalance: nat,
    threshold: nat,
    createdEpoch: Epoch,
    lastActivityEpoch: Epoch,
    recipients: IdArray,
    ratios: RatioArray)

  datatype GateCountView = GateCountView(totalGates: nat, activeGates: nat, totalBurned: nat)

  datatype FeesView = FeesView(creationFee: nat, currentCreationFee: nat, minSendAmount: nat, expiryEpochs: nat)

  // ---------------------------------------------------------------------
  // Value movements
  // ---------------------------------------------------------------------

  /** What `qpi.transfer` and `qpi.burn` do, recorded in call order. */
  datatype Effect = Transfer(to: Id, amount: nat) | Burn(amount: nat)

  /** The outcome of one procedure call: next state, output, value movements. */
  datatype Outcome<T> = Outcome(state: State, output: T, effects: seq<Effect>)

  /** `if (amount > 0) qpi.transfer(to, amount)`. */
  function Refund(to: Id, amount: nat): (r: seq<Effect>)
    ensures EffectsTotal(r) == amount
    ensures Burned(r) == 0
  {
    if amount > 0 then [Transfer(to, amount)] else []
  }

  /** All value a list of effects moves out of the contract. */
  function EffectsTotal(effects: seq<Effect>): nat {
    if effects == [] then 0 else EffectsTotal(effects[..|effects| - 1]) + effects[|effects| - 1].amount
  }

  /** The sum of the transfers to `who`, as `totalTransferredTo` counts it. */
  function TransferredTo(effects: seq<Effect>, who: Id): nat {
    if effects == [] then 0
    else
      var e := effects[|effects| - 1];
      TransferredTo(effects[..|effects| - 1], who) + (if e.Transfer? && e.to == who then e.amount else 0)
  }

  /** The sum of the burns. */
  function Burned(effects: seq<Effect>): nat {
    if effects == [] then 0
    else
      var e := effects[|effects| - 1];
      Burned(effects[..|effects| - 1]) + (if e.Burn? then e.amount else 0)
  }

  lemma {:induction false} EffectsTotalAppend(a: seq<Effect>, b: seq<Effect>)
    ensures EffectsTotal(a + b) == EffectsTotal(a) + EffectsTotal(b)
    ensures Burned(a + b) == Burned(a) + Burned(b)
    ensures forall who :: TransferredTo(a + b, who) == TransferredTo(a, who) + TransferredTo(b, who)
    decreases |b|
  {
    if b != [] {
      var b' := b[..|b| - 1];
      assert (a + b)[..|a + b| - 1] == a + b';
      EffectsTotalAppend(a, b');
    } else {
      assert a + b == a;
    }
  }

  /** The sum of the first `n` entries of `xs`. */
  function SumFirst(xs: seq<nat>, n: nat): nat
    requires n <= |xs|
  {
    if n == 0 then 0 else SumFirst(xs, n - 1) + xs[n - 1]
  }

  lemma {:induction false} SumFirstMonotone(xs: seq<nat>, m: nat, n: nat)
    requires m <= n <= |xs|
    ensures SumFirst(xs, m) <= SumFirst(xs, n)
    decreases n - m
  {
    if m < n {
      SumFirstMonotone(xs, m, n - 1);
    }
  }
}
