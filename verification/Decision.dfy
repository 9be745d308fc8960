/** The decision at run time: finish when a finish is certain, otherwise the solved
    mix blended with the best reply to the model and lifted by the noise floor; and
    what playing it at every turn still guarantees. */
module Decision {
  import opened Wrappers
  import opened GameRules
  import opened MatchEngine
  import opened EngineInvariants
  import opened Vectors
  import opened MatrixGame
  import opened ZeroSum
  import opened StageGame
  import opened RoundSolver
  import opened RoundGuarantee
  import opened OpponentModel
  import opened Exploit
  import opened Blending

  // ----- the certain finish -----

  /** The energy wave, when it is paid for and the opponent is out of ki. */
  function Finisher(myKi: int, oppKi: int): Option<Action> {
    if myKi >= Cost(EnergyWave) && oppKi == 0 then Some(EnergyWave) else None
  }

  /** Some affordable action wins against every legal reply exactly in the states of
      the finisher, and then only the energy wave does. */
  lemma FinisherExact(a: Action, myKi: int, oppKi: int)
    requires 0 <= myKi && 0 <= oppKi
    ensures Affordable(a, myKi) && BeatsAll(a, oppKi) <==> Finisher(myKi, oppKi) == Some(a)
  {
    AffordableCases(oppKi);
    var replies := AffordableActions(oppKi);
    assert Charge in replies && Block in replies by { assert replies[0] == Charge && replies[1] == Block; }
    if oppKi > 0 {
      assert replies[|replies| - 1] == Teleport;
      assert Teleport in replies;
    }
  }

  method BeatsEvery(a: Action, replies: seq<Action>) returns (all: bool)
    ensures all <==> forall o :: o in replies ==> ImmediateOutcome(a, o) == 1
  {
    for j := 0 to |replies|
      invariant forall k :: 0 <= k < j ==> ImmediateOutcome(a, replies[k]) == 1
    {
      if ImmediateOutcome(a, replies[j]) != 1 {
        return false;
      }
    }
    return true;
  }

  /** Searches my actions in order for one that beats all replies. */
  method GuaranteedFinisher(myKi: int, oppKi: int) returns (r: Option<Action>)
    requires 0 <= myKi && 0 <= oppKi
    ensures r == Finisher(myKi, oppKi)
  {
    hide ImmediateOutcome, AffordableActions, Affordable;
    var mine, replies := AffordableActions(myKi), AffordableActions(oppKi);
    for i := 0 to |mine|
      invariant forall k :: 0 <= k < i ==> !BeatsAll(mine[k], oppKi)
    {
      ActionAt(myKi, i);
      FinisherExact(mine[i], myKi, oppKi);
      var all := BeatsEvery(mine[i], replies);
      if all {
        return Some(mine[i]);
      }
    }
    if Finisher(myKi, oppKi).Some? {
      FinisherExact(EnergyWave, myKi, oppKi);
      PositionOf(EnergyWave, myKi);
    }
    return None;
  }

  /** The mix that finishes for certain. */
  function FinishMix(myKi: int): Vec
    requires myKi >= Cost(EnergyWave)
  {
    Pure(|AffordableActions(myKi)|, Position(EnergyWave, myKi))
  }

  lemma FinishMixFinishes(myKi: int, oppKi: int)
    requires KiRange(myKi) && Finisher(myKi, oppKi).Some?
    ensures MixFor(FinishMix(myKi), myKi) && Finishes(FinishMix(myKi), myKi, oppKi)
  {
    var n, k := |AffordableActions(myKi)|, Position(EnergyWave, myKi);
    PositionOf(EnergyWave, myKi);
    FinisherExact(EnergyWave, myKi, oppKi);
    DotPure(n, k, Const(n, 0.0));
    assert k < n && FinishMix(myKi) == Pure(n, k) && BeatsAll(AffordableActions(myKi)[k], oppKi);
  }

  /** The finisher gives nothing up: where it exists the solved value is already one,
      up to the solver's error. */
  lemma FinisherWorthOne(s: Solver, lam: real, d: real, myKi: int, oppKi: int, turn: int)
    requires KiRange(myKi) && KiRange(oppKi) && turn <= TURN_LIMIT && 0.0 <= lam <= 1.0 && Accurate(s, d)
    requires Finisher(myKi, oppKi).Some?
    ensures 1.0 - d <= Value(s, LamLeaves(lam), myKi, oppKi, turn) <= 1.0
  {
    hide Value, Mix, Accurate;
    AccurateIsSound(s, d);
    ValueRange(s, lam, myKi, oppKi, turn);
    var a := StageMatrix(myKi, oppKi, turn, LamLeaves(lam), Values(s, LamLeaves(lam)));
    var y := StageSolved(s, lam, d, myKi, oppKi, turn);
    var k := Position(EnergyWave, myKi);
    PositionOf(EnergyWave, myKi);
    FinisherExact(EnergyWave, myKi, oppKi);
    WinningRow(a, k, y);
  }

  lemma WinningRow(a: Mat, k: nat, y: Vec)
    requires Shape(a, |a|, |y|) && k < |a| && Sum(y) == 1.0
    requires forall j :: 0 <= j < |y| ==> a[k][j] == 1.0
    ensures MatVec(a, y)[k] == 1.0
  {
    assert a[k] == Const(|y|, 1.0);
    DotComm(a[k], y);
    DotConst(y, 1.0);
  }

  lemma WinningEntry(row: Policy, col: Policy, w: Leaves, myKi: int, oppKi: int, turn: int, h: History, i: nat, j: nat)
    requires Legal(row) && Legal(col) && i < |AffordableActions(myKi)| && j < |AffordableActions(oppKi)|
    requires ImmediateOutcome(AffordableActions(myKi)[i], AffordableActions(oppKi)[j]) == 1
    ensures PlayMatrix(row, col, w, myKi, oppKi, turn, h)[i][j] == w.win
  {
    hide Expected, AffordableActions, ImmediateOutcome;
  }

  /** And taking it realizes the win, whatever is played before or after. */
  lemma FinisherRealizes(row: Policy, col: Policy, w: Leaves, myKi: int, oppKi: int, turn: int, h: History)
    requires Legal(row) && Legal(col) && KiRange(myKi) && KiRange(oppKi) && turn <= TURN_LIMIT
    requires Finisher(myKi, oppKi).Some? && row(h, myKi, oppKi, turn) == FinishMix(myKi)
    ensures Expected(row, col, w, myKi, oppKi, turn, h) == w.win
  {
    hide AffordableActions, Bilinear, Expected, PlayMatrix, FinishMix, Finishes, ImmediateOutcome, Legal;
    var x, y, m := row(h, myKi, oppKi, turn), col(h, oppKi, myKi, turn), PlayMatrix(row, col, w, myKi, oppKi, turn, h);
    FinishMixFinishes(myKi, oppKi);
    MixesAt(col, h, oppKi, myKi, turn);
    ActionAt(myKi, 0) by { AffordableCases(myKi); }
    ActionAt(oppKi, 0) by { AffordableCases(oppKi); }
    forall i, j | 0 <= i < |x| && 0 <= j < |y|
      ensures ImmediateOutcome(AffordableActions(myKi)[i], AffordableActions(oppKi)[j]) == 1 ==> m[i][j] == w.win
    {
      if ImmediateOutcome(AffordableActions(myKi)[i], AffordableActions(oppKi)[j]) == 1 {
        WinningEntry(row, col, w, myKi, oppKi, turn, h, i, j);
      }
    }
    FinishWins(w, myKi, oppKi, m, x, y);
    ExpectedHere(row, col, w, myKi, oppKi, turn, h);
  }

  // ----- the distribution played -----

  /** The pipeline: blend, then noise. All vectors are over the five actions. */
  function Final(gto: Vec, br: Vec, eps: real, ki: int): (r: Vec)
    requires |gto| == |br| == 5
    ensures |r| == 5
  {
    Noised(Blend(gto, br, eps), AffordableActions(ki))
  }

  lemma CoversTwice(z: Vec, y: Vec, x: Vec, p: real, q: real, c: real)
    requires |x| == |y| == |z| && Covers(z, y, p) && Covers(y, x, q) && NonNeg(x)
    requires 0.0 <= p && c <= Times(p, q)
    ensures Covers(z, x, c)
  {
    hide Scale, Times;
    forall i | 0 <= i < |x| ensures z[i] >= Scale(c, x)[i] {
      ScaledAt(p, y, i);
      ScaledAt(q, x, i);
      ScaledAt(c, x, i);
      TwoShares(z[i], y[i], x[i], p, q, c);
    }
  }

  lemma TwoShares(z: real, y: real, x: real, p: real, q: real, c: real)
    requires z >= Times(p, y) && y >= Times(q, x) && x >= 0.0 && 0.0 <= p && c <= Times(p, q)
    ensures z >= Times(c, x)
  {
    MulMono(p, q * x, y);
    MulMono(x, c, p * q);
    assert p * (q * x) == x * (p * q);
  }

  lemma RestrictCovers(v: Vec, g: Vec, c: real, ki: int)
    requires |v| == |g| == 5 && Covers(v, g, c)
    ensures Covers(Restrict(v, ki), Restrict(g, ki), c)
  {
    var rows := AffordableActions(ki);
    forall k | 0 <= k < |rows| ensures Restrict(v, ki)[k] >= Scale(c, Restrict(g, ki))[k] {
      assert v[ActionIndex(rows[k])] >= Scale(c, g)[ActionIndex(rows[k])];
    }
  }

  /** The distribution played is over affordable actions only, has total mass one,
      gives each at least the floor, and keeps the share (1 - eps)(1 - 0.02 n) of
      every entry of the solved mix, n being the number of affordable actions. */
  lemma FinalKeepsShare(gto: Vec, br: Vec, eps: real, ki: int)
    requires 0 <= ki && LegalVector(gto, ki) && LegalVector(br, ki) && 0.0 <= eps <= 1.0
    ensures LegalVector(Final(gto, br, eps, ki), ki)
    ensures forall i :: 0 <= i < 5 && Affordable(ACTION_ORDER[i], ki) ==> Final(gto, br, eps, ki)[i] >= NOISE
    ensures Covers(Final(gto, br, eps, ki), gto, Times(NoiseShare(ki), 1.0 - eps))
  {
    hide Blend, Noised, Covers, NoiseShare, Times;
    var b := Blend(gto, br, eps);
    BlendLegal(gto, br, eps, ki);
    BlendCovers(gto, br, eps);
    NoiseOnLegal(b, ki);
    CoversTwice(Final(gto, br, eps, ki), b, gto, NoiseShare(ki), 1.0 - eps, Times(NoiseShare(ki), 1.0 - eps));
  }

  /** What is played, in numbers: with n affordable actions, each of them has the share
      1 - 0.02 n of its blended probability and 0.02 on top, and nothing else is played. */
  ghost predicate Exploits(dist: Vec, gto: Vec, br: Vec, eps: real, ki: int) {
    && |dist| == |gto| == |br| == 5
    && forall i :: 0 <= i < 5 ==>
         dist[i] == if Affordable(ACTION_ORDER[i], ki)
                    then Times(1.0 - 0.02 * |AffordableActions(ki)| as real,
                               Times(1.0 - eps, gto[i]) + Times(eps, br[i])) + 0.02
                    else 0.0
  }

  /** The pipeline plays exactly that. */
  lemma FinalExploits(gto: Vec, br: Vec, eps: real, ki: int)
    requires 0 <= ki && LegalVector(gto, ki) && LegalVector(br, ki) && 0.0 <= eps <= 1.0
    ensures Exploits(Final(gto, br, eps, ki), gto, br, eps, ki)
  {
    hide Blend, Noised, Times, AffordableActions, Simplex;
    var b := Blend(gto, br, eps);
    BlendLegal(gto, br, eps, ki);
    NoiseOnLegal(b, ki);
    forall i | 0 <= i < 5
      ensures Affordable(ACTION_ORDER[i], ki) ==>
        Final(gto, br, eps, ki)[i] == Times(1.0 - 0.02 * |AffordableActions(ki)| as real,
                                            Times(1.0 - eps, gto[i]) + Times(eps, br[i])) + 0.02
    {
      NoisedAt(b, ki, i);
      BlendAt(gto, br, eps, i);
    }
  }

  lemma FinalIsShifted(gto: Vec, br: Vec, eps: real, ki: int)
    requires 0 <= ki && LegalVector(gto, ki) && LegalVector(br, ki) && 0.0 <= eps <= 1.0
    ensures Restrict(Final(gto, br, eps, ki), ki)
         == Shift(Scale(NoiseShare(ki), Blend(Restrict(gto, ki), Restrict(br, ki), eps)), NOISE)
  {
    hide Blend, Noised, Times, AffordableActions, Simplex, NoiseShare, Final;
    var b := Blend(gto, br, eps);
    BlendLegal(gto, br, eps, ki);
    RestrictBlend(gto, br, eps, ki);
    forall k | 0 <= k < |AffordableActions(ki)|
      ensures Restrict(Final(gto, br, eps, ki), ki)[k] == Scale(NoiseShare(ki), Restrict(b, ki))[k] + NOISE
    {
      var i := ActionIndex(AffordableActions(ki)[k]);
      ActionAt(ki, k);
      SlotOf(AffordableActions(ki)[k]);
      FinalEntry(gto, br, eps, ki, i);
      ScaledAt(NoiseShare(ki), Restrict(b, ki), k);
    }
  }

  lemma FinalEntry(gto: Vec, br: Vec, eps: real, ki: int, i: nat)
    requires 0 <= ki && |gto| == |br| == 5 && LegalVector(Blend(gto, br, eps), ki)
    requires i < 5 && Affordable(ACTION_ORDER[i], ki)
    ensures Final(gto, br, eps, ki)[i] == Times(NoiseShare(ki), Blend(gto, br, eps)[i]) + NOISE
  {
    hide Blend, Noised, Times, AffordableActions, Simplex;
    NoisedAt(Blend(gto, br, eps), ki, i);
  }

  lemma ShiftedEarns(x: Vec, u: Vec, c: real, e: real)
    requires |x| == |u|
    ensures Dot(Shift(Scale(c, x), e), u) == Times(c, Dot(x, u)) + Times(e, Sum(u))
  {
    hide Dot, Sum;
    DotComm(Shift(Scale(c, x), e), u);
    DotShift(u, Scale(c, x), e);
    DotScale(u, c, x);
    DotComm(x, u);
  }

  lemma BlendedWorth(eps: real, p: real, q: real, q': real)
    requires 0.0 <= eps && q >= q'
    ensures Times(1.0 - eps, p) + Times(eps, q) >= Times(1.0 - eps, p) + Times(eps, q')
  {
    MulMono(eps, q', q);
  }

  /** What playing it earns against the modelled opponent. Of its earnings the share
      1 - 0.02 n is the blend of what the solved mix earns and of what the best reply
      earns, which is within the tie tolerance of what any mix x could earn; the rest is
      0.02 of the earnings of each affordable action. */
  lemma FinalAgainstModel(gto: Vec, probs: Vec, eps: real, myKi: int, oppKi: int, turn: int, lam: real,
                          next: ValueFn, x: Vec)
    requires 0 <= myKi && 0 <= oppKi && MixFor(probs, oppKi) && LegalVector(gto, myKi) && 0.0 <= eps <= 1.0
    requires MixFor(x, myKi)
    ensures var u, a := Earnings(probs, myKi, oppKi, turn, lam, next),
      StageMatrix(myKi, oppKi, turn, LamLeaves(lam), next);
      && u != []
      && LegalVector(Spread(BestMix(u), myKi), myKi)
      && Bilinear(Restrict(Final(gto, Spread(BestMix(u), myKi), eps, myKi), myKi), a, probs)
         >= Times(NoiseShare(myKi), Times(1.0 - eps, Bilinear(Restrict(gto, myKi), a, probs))
                                    + Times(eps, Bilinear(x, a, probs) - TIE))
            + Times(NOISE, Sum(MatVec(a, probs)))
  {
    hide Dot, BestMix, Restrict, Spread, Blend, Times, Final, NoiseShare, Sum, AffordableActions, Max, StageMatrix;
    ActionAt(myKi, 0) by { AffordableCases(myKi); }
    var u, solved := Earnings(probs, myKi, oppKi, turn, lam, next), Restrict(gto, myKi);
    var b, c := BestMix(u), NoiseShare(myKi);
    RestrictSimplex(gto, myKi);
    BestMixOptimal(u, x);
    SpreadLegal(b, myKi);
    RestrictSpread(b, myKi);
    FinalIsShifted(gto, Spread(b, myKi), eps, myKi);
    ShiftedEarns(Blend(solved, b, eps), u, c, NOISE);
    BlendEarns(solved, b, u, eps);
    NoiseShareRange(myKi);
    BlendedWorth(eps, Dot(solved, u), Dot(b, u), Dot(x, u) - TIE);
    TimesMore(c, Times(1.0 - eps, Dot(solved, u)) + Times(eps, Dot(x, u) - TIE), Dot(Blend(solved, b, eps), u));
  }

  lemma TimesMore(c: real, p: real, q: real)
    requires 0.0 <= c && p <= q
    ensures Times(c, p) <= Times(c, q)
  {
    MulMono(c, p, q);
  }

  /** The mix over affordable actions that is played at a state. */
  ghost function RuntimeMix(s: Solver, lam: real, br: Vec, eps: real, own: int, other: int, t: int): Vec
    requires Sound(s) && KiRange(own) && MixFor(br, own)
  {
    if Finisher(own, other).Some? then FinishMix(own)
    else Restrict(Final(StoredMix(s, LamLeaves(lam), own, ClampKi(other), ClampTurn(t)), Spread(br, own), eps, own),
                  own)
  }

  /** Playing this way all round, for an arbitrary reply br and weighting eps. */
  ghost function RuntimePolicy(s: Solver, lam: real, br: Policy, eps: Weighting): Policy
    requires Sound(s) && Legal(br)
  {
    (h, own, other, t) =>
      if KiRange(own) then RuntimeMix(s, lam, br(h, own, other, t), eps(h, own, other, t), own, other, t) else []
  }

  /** What each situation leaves of the solved mix: (1 - 0.02 n) (1 - eps). */
  function RuntimeShare(eps: Weighting): Share {
    (h, a, b, t) => Times(NoiseShare(a), 1.0 - eps(h, a, b, t))
  }

  lemma RuntimeMixKeeps(s: Solver, lam: real, br: Vec, eps: real, own: int, other: int, t: int)
    requires Sound(s) && KiRange(own) && MixFor(br, own) && 0.0 <= eps <= 1.0
    ensures MixFor(RuntimeMix(s, lam, br, eps, own, other, t), own)
    ensures KiRange(other) && 1 <= t <= TURN_LIMIT ==>
      var x := Mix(s, LamLeaves(lam), own, other, t);
      && |x| == |AffordableActions(own)|
      && (Covers(RuntimeMix(s, lam, br, eps, own, other, t), x, Times(NoiseShare(own), 1.0 - eps))
          || Finishes(RuntimeMix(s, lam, br, eps, own, other, t), own, other))
  {
    hide Mix, Final, Covers, NoiseShare, Times, Finishes, FinishMix, Spread, Restrict;
    if Finisher(own, other).Some? {
      FinishMixFinishes(own, other);
      MixLegal(s, LamLeaves(lam), own, other, t);
    } else {
      var x := Mix(s, LamLeaves(lam), own, ClampKi(other), ClampTurn(t));
      var gto := StoredMix(s, LamLeaves(lam), own, ClampKi(other), ClampTurn(t));
      MixLegal(s, LamLeaves(lam), own, ClampKi(other), ClampTurn(t));
      SpreadLegal(br, own);
      FinalKeepsShare(gto, Spread(br, own), eps, own);
      RestrictSimplex(Final(gto, Spread(br, own), eps, own), own);
      RestrictCovers(Final(gto, Spread(br, own), eps, own), gto, Times(NoiseShare(own), 1.0 - eps), own);
      RestrictSpread(x, own);
    }
  }

  lemma RuntimePolicyLegal(s: Solver, lam: real, br: Policy, eps: Weighting)
    requires Sound(s) && Legal(br) && UnitWeights(eps)
    ensures Legal(RuntimePolicy(s, lam, br, eps))
  {
    hide RuntimeMix;
    var row := RuntimePolicy(s, lam, br, eps);
    forall h: History, own, other, t | KiRange(own) ensures MixFor(row(h, own, other, t), own) {
      assert MixFor(br(h, own, other, t), own);
      assert UnitWeight(eps, h, own, other, t);
      RuntimeMixKeeps(s, lam, br(h, own, other, t), eps(h, own, other, t), own, other, t);
    }
  }

  /** So wherever some affordable action beats every legal reply, playing this way is
      worth a win, for every reply and weighting and against every opponent. */
  lemma CertainFinishWins(s: Solver, lam: real, br: Policy, eps: Weighting, col: Policy, w: Leaves,
                          myKi: int, oppKi: int, turn: int, h: History, a: Action)
    requires Sound(s) && Legal(br) && Legal(col) && UnitWeights(eps)
    requires KiRange(myKi) && KiRange(oppKi) && turn <= TURN_LIMIT && Affordable(a, myKi) && BeatsAll(a, oppKi)
    ensures Legal(RuntimePolicy(s, lam, br, eps))
    ensures Expected(RuntimePolicy(s, lam, br, eps), col, w, myKi, oppKi, turn, h) == w.win
  {
    hide Expected, FinishMix, BeatsAll, AffordableActions, Simplex;
    FinisherExact(a, myKi, oppKi);
    RuntimePolicyLegal(s, lam, br, eps);
    assert MixFor(br(h, myKi, oppKi, turn), myKi);
    FinisherRealizes(RuntimePolicy(s, lam, br, eps), col, w, myKi, oppKi, turn, h);
  }

  lemma RuntimeKeeps(s: Solver, lam: real, br: Policy, eps: Weighting)
    requires Sound(s) && Legal(br) && UnitWeights(eps)
    ensures Legal(RuntimePolicy(s, lam, br, eps))
    ensures KeepsShare(RuntimePolicy(s, lam, br, eps), s, lam, RuntimeShare(eps))
  {
    hide RuntimeMix, Mix, Covers, Finishes, NoiseShare, Times;
    RuntimePolicyLegal(s, lam, br, eps);
    var row := RuntimePolicy(s, lam, br, eps);
    forall h: History, a, b, t | KiRange(a) && KiRange(b) && 1 <= t <= TURN_LIMIT
      ensures KeepsShareAt(row, s, lam, RuntimeShare(eps), h, a, b, t)
    {
      assert MixFor(br(h, a, b, t), a);
      assert UnitWeight(eps, h, a, b, t);
      RuntimeMixKeeps(s, lam, br(h, a, b, t), eps(h, a, b, t), a, b, t);
      RuntimeShareRange(eps(h, a, b, t), a);
    }
  }

  lemma RuntimeShareRange(eps: real, ki: int)
    requires 0 <= ki && 0.0 <= eps <= 1.0
    ensures Times(0.9, 1.0 - eps) <= Times(NoiseShare(ki), 1.0 - eps)
    ensures 0.0 <= Times(NoiseShare(ki), 1.0 - eps) <= 1.0
  {
    hide NoiseShare;
    NoiseShareRange(ki);
    TimesBoth(0.9, NoiseShare(ki), 1.0 - eps, 1.0 - eps);
    TimesUnit(NoiseShare(ki), 1.0 - eps);
  }

  /** The exploitation bound for whole rounds. Blending in any reply with any weight,
      adding the noise and finishing where possible, at every remaining turn, still
      earns the solved value less the solver's error, of a stake reduced to any share k
      that the factors (1 - eps)(1 - 0.02 n) of the remaining turns sustain, against
      every history-dependent opponent. */
  lemma ExploitationBound(s: Solver, lam: real, d: real, br: Policy, eps: Weighting, k: Share,
                          col: Policy, w: Leaves, myKi: int, oppKi: int, turn: int, h: History)
    requires Sound(s) && Accurate(s, d) && Proper(w, lam) && Legal(br) && Legal(col) && UnitWeights(eps)
    requires Sustained(RuntimePolicy(s, lam, br, eps), k, RuntimeShare(eps))
    requires KiRange(myKi) && KiRange(oppKi) && 1 <= turn <= TURN_LIMIT
    ensures Legal(RuntimePolicy(s, lam, br, eps))
    ensures Expected(RuntimePolicy(s, lam, br, eps), col, w, myKi, oppKi, turn, h)
         >= Discounted(w, k(h, myKi, oppKi, turn),
                       Value(s, LamLeaves(lam), myKi, oppKi, turn) - (TURN_LIMIT + 1 - turn) as real * d)
  {
    hide Value, Expected, Accurate, RuntimePolicy, KeepsShare, Sustained, Discounted, RuntimeShare;
    RuntimeKeeps(s, lam, br, eps);
    RoundBound(RuntimePolicy(s, lam, br, eps), col, w, s, lam, d, RuntimeShare(eps), k, myKi, oppKi, turn, h);
  }

  /** Never more than the cap of the turn. */
  ghost predicate Capped(eps: Weighting, cap: int -> real) {
    forall h, own, other, t :: CappedAt(eps, cap, h, own, other, t)
  }

  ghost predicate CappedAt(eps: Weighting, cap: int -> real, h: History, own: int, other: int, t: int) {
    0.0 <= eps(h, own, other, t) <= cap(t) <= 1.0
  }

  /** The least share under a cap: five affordable actions and the full weight. */
  function CappedShare(cap: int -> real): int -> real {
    t => Times(0.9, 1.0 - cap(t))
  }

  lemma CappedShares(eps: Weighting, cap: int -> real)
    requires Capped(eps, cap)
    ensures Shares(CappedShare(cap))
  {
    forall t ensures 0.0 <= CappedShare(cap)(t) <= 1.0 {
      assert CappedAt(eps, cap, [], 0, 0, t);
      TimesUnit(0.9, 1.0 - cap(t));
    }
  }

  lemma CappedFactor(eps: real, cap: real, ki: int, ahead: real)
    requires 0 <= ki && 0.0 <= eps <= cap <= 1.0 && 0.0 <= ahead
    ensures Times(0.9, 1.0 - cap) <= Times(NoiseShare(ki), 1.0 - eps)
    ensures Times(Times(0.9, 1.0 - cap), ahead) <= Times(Times(NoiseShare(ki), 1.0 - eps), ahead)
  {
    hide NoiseShare, Times;
    NoiseShareRange(ki);
    TimesBoth(0.9, NoiseShare(ki), 1.0 - cap, 1.0 - eps);
    TimesUnit(0.9, 1.0 - cap);
    TimesBoth(Times(0.9, 1.0 - cap), Times(NoiseShare(ki), 1.0 - eps), ahead, ahead);
  }

  /** So the product of 0.9 (1 - cap) over the remaining turns is always sustained. */
  lemma CapSustained(row: Policy, eps: Weighting, cap: int -> real)
    requires Capped(eps, cap)
    ensures Sustained(row, KeptPerTurn(CappedShare(cap)), RuntimeShare(eps))
  {
    hide Finishes, Times, AffordableActions, NoiseShare;
    CappedShares(eps, cap);
    var c := CappedShare(cap);
    var k := KeptPerTurn(c);
    forall h: History, a, b, t | KiRange(a) && KiRange(b) && 1 <= t <= TURN_LIMIT
      ensures SustainedAt(row, k, RuntimeShare(eps), h, a, b, t)
    {
      KeptRange(c, t);
      KeptRange(c, t + 1);
      assert CappedAt(eps, cap, h, a, b, t);
      CappedFactor(eps(h, a, b, t), cap(t), a, Kept(c, t + 1));
      forall i, j | 0 <= i < |AffordableActions(a)| && 0 <= j < |AffordableActions(b)|
        ensures k(h, a, b, t) <= Times(RuntimeShare(eps)(h, a, b, t), Ahead(k, h, a, b, t, i, j))
      {
        TimesOne(RuntimeShare(eps)(h, a, b, t));
      }
    }
  }

  // ----- the agent -----

  /** The agent's past turns as the engine records them, the opponent in the first chair. */
  function TurnsOf(h: History): (r: seq<TurnResult>)
    ensures |r| == |h|
  {
    if h == [] then []
    else
      var past, now := TurnsOf(h[..|h| - 1]), h[|h| - 1];
      past + [ResolveTurn(|h|, now.1, now.0, KiAtEnd(past, P1), KiAtEnd(past, P2))]
  }

  function KiAtEnd(turns: seq<TurnResult>, who: Winner): int {
    if turns == [] then 0 else AfterOf(turns[|turns| - 1], who)
  }

  function MovesOf(turns: seq<TurnResult>): History {
    if turns == [] then []
    else MovesOf(turns[..|turns| - 1]) + [(turns[|turns| - 1].p2Action, turns[|turns| - 1].p1Action)]
  }

  /** A recorded round can be replayed from its actions alone. */
  lemma {:induction false} ReplayRound(turns: seq<TurnResult>, p1Ki: int, p2Ki: int)
    requires Chain(turns, p1Ki, p2Ki)
    ensures |MovesOf(turns)| == |turns| && TurnsOf(MovesOf(turns)) == turns
    ensures KiAtEnd(turns, P1) == p1Ki && KiAtEnd(turns, P2) == p2Ki
  {
    hide ResolveTurn, Affordable, TurnsOf;
    if turns == [] {
      NoTurns();
    } else {
      var t, past := turns[|turns| - 1], turns[..|turns| - 1];
      ReplayRound(past, t.p1Before, t.p2Before);
      assert MovesOf(turns) == MovesOf(past) + [(t.p2Action, t.p1Action)];
      OneMoreTurn(MovesOf(past), t.p2Action, t.p1Action);
      assert turns == past + [t];
    }
  }

  lemma NoTurns()
    ensures TurnsOf([]) == []
  {}

  lemma OneMoreTurn(h: History, me: Action, opp: Action)
    ensures var past := TurnsOf(h);
      TurnsOf(h + [(me, opp)]) == past + [ResolveTurn(|h| + 1, opp, me, KiAtEnd(past, P1), KiAtEnd(past, P2))]
  {
    assert (h + [(me, opp)])[..|h|] == h;
  }

  /** How predictable a modelled distribution looks: any measure in [0, 1]. */
  type BiasMeasure = (Vec, int) -> real

  ghost predicate BiasOk(bias: BiasMeasure) {
    forall x, ki :: 0.0 <= bias(x, ki) <= 1.0
  }

  /** The best reply to the modelled opponent. */
  function AgentReply(s: Solver, lam: real): Policy {
    (h, own, other, t) => Reply(s, lam, TurnsOf(h), own, ClampKi(other), t)
  }

  function Reply(s: Solver, lam: real, turns: seq<TurnResult>, own: int, other: int, t: int): Vec
    requires 0 <= other
  {
    var u := Earnings(Model(turns, other), own, other, t, lam, Values(s, LamLeaves(lam)));
    if u == [] then [] else BestMix(u)
  }

  /** The adaptive weight; it depends on the score and on the round so far. */
  function AgentWeight(mine: int, theirs: int, bias: BiasMeasure): Weighting {
    (h, own, other, t) =>
      if |h| == t - 1 then EpsFor(|h|, mine, theirs, bias(Model(TurnsOf(h), ClampKi(other)), ClampKi(other))) else 0.0
  }

  function WeightCap(mine: int, theirs: int): int -> real {
    t => EpsCap(t, mine, theirs)
  }

  lemma AgentReplyLegal(s: Solver, lam: real)
    ensures Legal(AgentReply(s, lam))
  {
    hide Earnings, BestMix, Model, Values;
    forall h: History, own, other, t | KiRange(own) ensures MixFor(AgentReply(s, lam)(h, own, other, t), own) {
      ActionAt(own, 0) by { AffordableCases(own); }
      var u := Earnings(Model(TurnsOf(h), ClampKi(other)), own, ClampKi(other), t, lam, Values(s, LamLeaves(lam)));
      BestMixShape(u);
    }
  }

  /** One action that does badly pulls down the average of payoffs of at most one. */
  lemma WorstCounts(r: Vec, p: Vec, j: nat)
    requires |r| == |p| && Simplex(p) && j < |r| && forall i :: 0 <= i < |r| ==> r[i] <= 1.0
    ensures Dot(r, p) <= 1.0 - Times(p[j], 1.0 - r[j])
  {
    hide Dot, Sum;
    var n := |r|;
    var z := Shift(Scale(r[j] - 1.0, Pure(n, j)), 1.0);
    assert forall i :: 0 <= i < n ==> r[i] <= z[i];
    DotComm(r, p);
    DotMono(p, r, z);
    MixShift(p, Scale(r[j] - 1.0, Pure(n, j)), 1.0);
    DotScale(p, r[j] - 1.0, Pure(n, j));
    DotComm(p, Pure(n, j));
    DotPure(n, j, p);
    assert (r[j] - 1.0) * p[j] == -(p[j] * (1.0 - r[j]));
  }

  lemma ModelAtLeast(turns: seq<TurnResult>, ki: int, j: nat)
    requires 0 <= ki && j < |AffordableActions(ki)|
    ensures Model(turns, ki)[j] >= 0.06
  {
    hide Model;
    ModelFloor(turns, ki);
    AffordableCases(ki);
  }

  /** What the solved mix earns against any distribution the best reply to it earns too. */
  lemma ReplyEarnsValue(s: Solver, lam: real, d: real, probs: Vec, myKi: int, oppKi: int, turn: int)
    requires KiRange(myKi) && KiRange(oppKi) && turn <= TURN_LIMIT && 0.0 <= lam <= 1.0 && Accurate(s, d) && Sound(s)
    requires MixFor(probs, oppKi)
    ensures var u := Earnings(probs, myKi, oppKi, turn, lam, Values(s, LamLeaves(lam)));
      u != [] && Max(u) >= Value(s, LamLeaves(lam), myKi, oppKi, turn) - d
  {
    hide Value, Mix, Accurate, StageMatrix, Max, Dot;
    var a := StageMatrix(myKi, oppKi, turn, LamLeaves(lam), Values(s, LamLeaves(lam)));
    var x, u := Mix(s, LamLeaves(lam), myKi, oppKi, turn), MatVec(a, probs);
    var y := StageSolved(s, lam, d, myKi, oppKi, turn);
    GuaranteeAgainstMix(x, a, probs, Value(s, LamLeaves(lam), myKi, oppKi, turn) - d);
    BestMixOptimal(u, x);
  }

  /** What the agent earns against the opponent it models, whatever the history: of its
      earnings the share 1 - 0.02 n is a blend of the solved value, up to the solver's
      error, and of what any mix x could earn, up to the tie tolerance. */
  lemma AgentAgainstModel(s: Solver, lam: real, d: real, turns: seq<TurnResult>, eps: real,
                          myKi: int, oppKi: int, turn: int, x: Vec)
    requires KiRange(myKi) && KiRange(oppKi) && turn <= TURN_LIMIT && 0.0 <= lam <= 1.0 && Accurate(s, d) && Sound(s)
    requires 0.0 <= eps <= 1.0 && MixFor(x, myKi)
    ensures var a := StageMatrix(myKi, oppKi, turn, LamLeaves(lam), Values(s, LamLeaves(lam)));
      var probs := Model(turns, oppKi);
      var gto, br := StoredMix(s, LamLeaves(lam), myKi, oppKi, turn), Reply(s, lam, turns, myKi, oppKi, turn);
      && |br| == |AffordableActions(myKi)|
      && Bilinear(Restrict(Final(gto, Spread(br, myKi), eps, myKi), myKi), a, probs)
         >= Times(NoiseShare(myKi), Times(1.0 - eps, Value(s, LamLeaves(lam), myKi, oppKi, turn) - d)
                                    + Times(eps, Bilinear(x, a, probs) - TIE))
  {
    hide Value, Mix, Accurate, StageMatrix, Max, Dot, Sum, Model, BestMix, Final, Restrict, Spread, Times, NoiseShare,
      AffordableActions, Simplex;
    var probs, v := Model(turns, oppKi), Value(s, LamLeaves(lam), myKi, oppKi, turn);
    var solved := Mix(s, LamLeaves(lam), myKi, oppKi, turn);
    var a := StageMatrix(myKi, oppKi, turn, LamLeaves(lam), Values(s, LamLeaves(lam)));
    var u := MatVec(a, probs);
    var gto := StoredMix(s, LamLeaves(lam), myKi, oppKi, turn);
    ModelIsDistribution(turns, oppKi);
    var y := StageSolved(s, lam, d, myKi, oppKi, turn);
    GuaranteeAgainstMix(solved, a, probs, v - d);
    RestrictSpread(solved, myKi);
    FinalAgainstModel(gto, probs, eps, myKi, oppKi, turn, lam, Values(s, LamLeaves(lam)), x);
    EarningsNonNeg(s, lam, probs, myKi, oppKi, turn);
    TimesMore(1.0 - eps, v - d, Dot(solved, u));
    NoiseShareRange(myKi);
    TimesMore(NoiseShare(myKi), Times(1.0 - eps, v - d) + Times(eps, Dot(x, u) - TIE),
              Times(1.0 - eps, Dot(solved, u)) + Times(eps, Dot(x, u) - TIE));
  }

  lemma EarningsNonNeg(s: Solver, lam: real, probs: Vec, myKi: int, oppKi: int, turn: int)
    requires KiRange(myKi) && KiRange(oppKi) && turn <= TURN_LIMIT && 0.0 <= lam <= 1.0 && Sound(s)
    requires MixFor(probs, oppKi)
    ensures Times(NOISE, Sum(Earnings(probs, myKi, oppKi, turn, lam, Values(s, LamLeaves(lam))))) >= 0.0
  {
    hide Value, Dot, Sum, AffordableActions, StagePayoff;
    if turn < TURN_LIMIT {
      forall a, b | KiRange(a) && KiRange(b) ensures 0.0 <= Values(s, LamLeaves(lam))(a, b, turn + 1) <= 1.0 {
        ValueRange(s, lam, a, b, turn + 1);
      }
    }
    StageRange(myKi, oppKi, turn, lam, Values(s, LamLeaves(lam)));
    var a := StageMatrix(myKi, oppKi, turn, LamLeaves(lam), Values(s, LamLeaves(lam)));
    var u := MatVec(a, probs);
    forall i | 0 <= i < |u| ensures u[i] >= 0.0 {
      DotComm(a[i], probs);
      SimplexAverage(probs, a[i], 0.0, 1.0);
    }
    SumNonNeg(u);
    MulNonNeg(NOISE, Sum(u));
  }

  /** The agent's own replies are safe where the position is nearly won. Whatever the
      history, an action that the best reply to the model plays concedes, against every
      single reply, at most what the position lacks to a win, the solver's error and
      the tie tolerance, divided by the 0.06 that the model leaves every action. */
  lemma ReplySafeWhenWon(s: Solver, lam: real, d: real, turns: seq<TurnResult>, myKi: int, oppKi: int, turn: int,
                         me: Action, opp: Action)
    requires KiRange(myKi) && KiRange(oppKi) && turn <= TURN_LIMIT && 0.0 <= lam <= 1.0 && Accurate(s, d) && Sound(s)
    requires Affordable(me, myKi) && Affordable(opp, oppKi)
    requires |Reply(s, lam, turns, myKi, oppKi, turn)| == |AffordableActions(myKi)|
    requires Position(me, myKi) < |AffordableActions(myKi)|
    requires Reply(s, lam, turns, myKi, oppKi, turn)[Position(me, myKi)] > 0.0
    ensures Times(0.06, 1.0 - StagePayoff(me, opp, myKi, oppKi, turn, LamLeaves(lam), Values(s, LamLeaves(lam))))
         <= (1.0 - Value(s, LamLeaves(lam), myKi, oppKi, turn)) + d + TIE
  {
    hide Value, Accurate, Dot, Max, Sum, Model, AffordableActions, StagePayoff, Times;
    var probs, i, j := Model(turns, oppKi), Position(me, myKi), Position(opp, oppKi);
    ModelIsDistribution(turns, oppKi);
    PositionOf(me, myKi);
    PositionOf(opp, oppKi);
    ReplyEarnsValue(s, lam, d, probs, myKi, oppKi, turn);
    var u := Earnings(probs, myKi, oppKi, turn, lam, Values(s, LamLeaves(lam)));
    BestMixShape(u);
    assert u[i] >= Max(u) - TIE;
    StageRow(s, lam, probs, myKi, oppKi, turn, me, opp);
    ModelAtLeast(turns, oppKi, j);
    var payoff := StagePayoff(me, opp, myKi, oppKi, turn, LamLeaves(lam), Values(s, LamLeaves(lam)));
    TimesBoth(0.06, probs[j], 1.0 - payoff, 1.0 - payoff);
  }

  lemma StageRow(s: Solver, lam: real, probs: Vec, myKi: int, oppKi: int, turn: int, me: Action, opp: Action)
    requires KiRange(myKi) && KiRange(oppKi) && turn <= TURN_LIMIT && 0.0 <= lam <= 1.0 && Sound(s)
    requires MixFor(probs, oppKi) && Affordable(me, myKi) && Affordable(opp, oppKi)
    ensures Position(me, myKi) < |AffordableActions(myKi)| && Position(opp, oppKi) < |AffordableActions(oppKi)|
    ensures var payoff := StagePayoff(me, opp, myKi, oppKi, turn, LamLeaves(lam), Values(s, LamLeaves(lam)));
      && 0.0 <= payoff <= 1.0
      && Earnings(probs, myKi, oppKi, turn, lam, Values(s, LamLeaves(lam)))[Position(me, myKi)]
         <= 1.0 - Times(probs[Position(opp, oppKi)], 1.0 - payoff)
  {
    hide Value, Dot, Sum, AffordableActions, StagePayoff, Times;
    PositionOf(me, myKi);
    PositionOf(opp, oppKi);
    if turn < TURN_LIMIT {
      forall a, b | KiRange(a) && KiRange(b) ensures 0.0 <= Values(s, LamLeaves(lam))(a, b, turn + 1) <= 1.0 {
        ValueRange(s, lam, a, b, turn + 1);
      }
    }
    StageRange(myKi, oppKi, turn, lam, Values(s, LamLeaves(lam)));
    var a := StageMatrix(myKi, oppKi, turn, LamLeaves(lam), Values(s, LamLeaves(lam)));
    WorstCounts(a[Position(me, myKi)], probs, Position(opp, oppKi));
  }

  lemma AgentWeightCapped(mine: int, theirs: int, bias: BiasMeasure)
    requires BiasOk(bias)
    ensures Capped(AgentWeight(mine, theirs, bias), WeightCap(mine, theirs))
  {
    var eps, cap := AgentWeight(mine, theirs, bias), WeightCap(mine, theirs);
    hide AgentWeight, WeightCap;
    forall h: History, own, other, t ensures CappedAt(eps, cap, h, own, other, t) {
      WeightBelowCap(mine, theirs, bias, h, own, other, t);
    }
  }

  lemma WeightBelowCap(mine: int, theirs: int, bias: BiasMeasure, h: History, own: int, other: int, t: int)
    requires BiasOk(bias)
    ensures 0.0 <= AgentWeight(mine, theirs, bias)(h, own, other, t) <= WeightCap(mine, theirs)(t) <= 1.0
  {
    hide EpsFor, Model;
    EpsCapValues(t, mine, theirs);
    if |h| == t - 1 {
      var b := bias(Model(TurnsOf(h), ClampKi(other)), ClampKi(other));
      assert 0.0 <= b <= 1.0;
      EpsMonotone(|h|, |h|, mine, theirs, b, 1.0);
      EpsIsWeight(|h|, mine, theirs, b);
    }
  }

  lemma EpsIsWeight(turns: nat, mine: int, theirs: int, bias: real)
    ensures 0.0 <= EpsFor(turns, mine, theirs, bias) <= EPS_MAX
  {}

  lemma CapIsUnit(eps: Weighting, cap: int -> real)
    requires Capped(eps, cap)
    ensures UnitWeights(eps)
  {
    forall h: History, own, other, t ensures UnitWeight(eps, h, own, other, t) {
      assert CappedAt(eps, cap, h, own, other, t);
    }
  }

  /** The agent as it plays, with its own replies and its adaptive weights, whatever
      the predictability measure: any share that its own factors (1 - eps)(1 - 0.02 n)
      sustain is kept, against every opponent. */
  lemma AgentRoundBound(s: Solver, lam: real, d: real, mine: int, theirs: int, bias: BiasMeasure, k: Share,
                        col: Policy, w: Leaves, myKi: int, oppKi: int, turn: int, h: History)
    requires Sound(s) && Accurate(s, d) && Proper(w, lam) && Legal(col) && BiasOk(bias)
    requires KiRange(myKi) && KiRange(oppKi) && 1 <= turn <= TURN_LIMIT
    requires Legal(AgentReply(s, lam))
    requires var eps := AgentWeight(mine, theirs, bias);
      Sustained(RuntimePolicy(s, lam, AgentReply(s, lam), eps), k, RuntimeShare(eps))
    ensures Legal(RuntimePolicy(s, lam, AgentReply(s, lam), AgentWeight(mine, theirs, bias)))
    ensures Expected(RuntimePolicy(s, lam, AgentReply(s, lam), AgentWeight(mine, theirs, bias)), col, w, myKi, oppKi,
                     turn, h)
         >= Discounted(w, k(h, myKi, oppKi, turn),
                       Value(s, LamLeaves(lam), myKi, oppKi, turn) - (TURN_LIMIT + 1 - turn) as real * d)
  {
    hide Value, Expected, Accurate, RuntimePolicy, Discounted, AgentReply, AgentWeight, Sustained;
    AgentWeightCapped(mine, theirs, bias);
    CapIsUnit(AgentWeight(mine, theirs, bias), WeightCap(mine, theirs));
    ExploitationBound(s, lam, d, AgentReply(s, lam), AgentWeight(mine, theirs, bias), k, col, w, myKi, oppKi, turn, h);
  }

  /** In particular the product over the remaining turns of 0.9 (1 - cap), where the cap
      is at most 0.15 on the first turn and 0.85 later. */
  lemma AgentCapBound(s: Solver, lam: real, d: real, mine: int, theirs: int, bias: BiasMeasure,
                      col: Policy, w: Leaves, myKi: int, oppKi: int, turn: int, h: History)
    requires Sound(s) && Accurate(s, d) && Proper(w, lam) && Legal(col) && BiasOk(bias)
    requires KiRange(myKi) && KiRange(oppKi) && 1 <= turn <= TURN_LIMIT
    ensures Legal(AgentReply(s, lam))
      && Legal(RuntimePolicy(s, lam, AgentReply(s, lam), AgentWeight(mine, theirs, bias)))
    ensures Expected(RuntimePolicy(s, lam, AgentReply(s, lam), AgentWeight(mine, theirs, bias)), col, w, myKi, oppKi,
                     turn, h)
         >= Discounted(w, Kept(CappedShare(WeightCap(mine, theirs)), turn),
                       Value(s, LamLeaves(lam), myKi, oppKi, turn) - (TURN_LIMIT + 1 - turn) as real * d)
  {
    hide Value, Expected, Accurate, RuntimePolicy, Discounted, Kept, AgentReply, AgentWeight, Sustained;
    AgentReplyLegal(s, lam);
    AgentWeightCapped(mine, theirs, bias);
    var br, eps, cap := AgentReply(s, lam), AgentWeight(mine, theirs, bias), WeightCap(mine, theirs);
    CapIsUnit(eps, cap);
    CapSustained(RuntimePolicy(s, lam, br, eps), eps, cap);
    AgentRoundBound(s, lam, d, mine, theirs, bias, KeptPerTurn(CappedShare(cap)), col, w, myKi, oppKi, turn, h);
  }
}
