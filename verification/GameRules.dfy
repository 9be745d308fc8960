/** The rules of one turn: five actions, their ki costs, and who beats whom. */
module GameRules {

  datatype Action = Charge | Block | Attack | EnergyWave | Teleport

  datatype Outcome = P1WinsRound | P2WinsRound | Clash | Blocked | Dodged | Neutral

  const KI_CAP := 10
  const TURN_LIMIT := 20
  const ROUNDS_TO_WIN := 2
  const MAX_ROUNDS := 3

  function Cost(a: Action): nat {
    match a
    case Charge | Block => 0
    case Attack | Teleport => 1
    case EnergyWave => 3
  }

  function Gain(a: Action): nat {
    if a == Charge then 1 else 0
  }

  /** Outcome from the first player's perspective. */
  function Resolve(p1: Action, p2: Action): Outcome {
    match (p1, p2)
    case (Charge, Attack) => P2WinsRound
    case (Charge, EnergyWave) => P2WinsRound
    case (Charge, _) => Neutral
    case (Block, Attack) => Blocked
    case (Block, EnergyWave) => P2WinsRound
    case (Block, _) => Neutral
    case (Attack, Charge) => P1WinsRound
    case (Attack, Block) => Blocked
    case (Attack, Attack) => Clash
    case (Attack, EnergyWave) => P2WinsRound
    case (Attack, Teleport) => Dodged
    case (EnergyWave, EnergyWave) => Clash
    case (EnergyWave, Teleport) => Dodged
    case (EnergyWave, _) => P1WinsRound
    case (Teleport, Attack) => Dodged
    case (Teleport, EnergyWave) => Dodged
    case (Teleport, _) => Neutral
  }

  /** The first action wins the round against the second: an attack against a charge, an
      energy wave against a charge, a block or an attack. */
  predicate Beats(a: Action, b: Action) {
    (a == Attack && b == Charge) || (a == EnergyWave && b in {Charge, Block, Attack})
  }

  /** Blows are the two actions that can win. A round is won exactly by the action that
      beats the other; two equal blows clash; a blow is dodged by a teleport and an attack
      blocked by a block, on whichever side; and everything else is neutral. */
  lemma ResolveCases(p1: Action, p2: Action)
    ensures Resolve(p1, p2) == P1WinsRound <==> Beats(p1, p2)
    ensures Resolve(p1, p2) == P2WinsRound <==> Beats(p2, p1)
    ensures Resolve(p1, p2) == Clash <==> p1 == p2 && p1 in {Attack, EnergyWave}
    ensures Resolve(p1, p2) == Blocked <==> {p1, p2} == {Attack, Block}
    ensures Resolve(p1, p2) == Dodged <==> {p1, p2} == {Attack, Teleport} || {p1, p2} == {EnergyWave, Teleport}
    ensures Resolve(p1, p2) == Neutral <==> p1 !in {Attack, EnergyWave} && p2 !in {Attack, EnergyWave}
  {
    assert Attack in {p1, p2} <==> p1 == Attack || p2 == Attack;
    assert Block in {p1, p2} <==> p1 == Block || p2 == Block;
    assert Teleport in {p1, p2} <==> p1 == Teleport || p2 == Teleport;
    assert EnergyWave in {p1, p2} <==> p1 == EnergyWave || p2 == EnergyWave;
  }

  predicate Affordable(a: Action, ki: int) {
    ki >= Cost(a)
  }

  function Clamp(ki: int, lo: int, hi: int): int {
    if ki < lo then lo else if ki > hi then hi else ki
  }

  function KiAfter(a: Action, ki: int): int {
    Clamp(ki - Cost(a) + Gain(a), 0, KI_CAP)
  }

  datatype TurnResult = TurnResult(
    turnNumber: int,
    p1Action: Action, p2Action: Action, outcome: Outcome,
    p1Before: int, p2Before: int, p1After: int, p2After: int)

  function ResolveTurn(turnNumber: int, p1: Action, p2: Action, p1Ki: int, p2Ki: int): TurnResult {
    TurnResult(turnNumber, p1, p2, Resolve(p1, p2), p1Ki, p2Ki, KiAfter(p1, p1Ki), KiAfter(p2, p2Ki))
  }

  /** An affordable action never needs the lower clamp: the payment is exact, and
      the cap only swallows the gain of a charge made at the cap. */
  lemma PaymentIsExact(a: Action, ki: int)
    requires 0 <= ki <= KI_CAP && Affordable(a, ki)
    ensures 0 <= KiAfter(a, ki) <= KI_CAP
    ensures KiAfter(a, ki) == ki - Cost(a) + Gain(a) - (if a == Charge && ki == KI_CAP then 1 else 0)
  {}
}
