/** Predicting the opponent's next action from the turns of the round so far. */
module OpponentModel {
  import opened Wrappers
  import opened GameRules
  import opened EngineInvariants
  import opened Vectors
  import opened MatrixGame
  import opened StageGame
  import opened RoundGuarantee

  const WINDOW := 10
  const DECAY := 0.8
  const TRUST := 0.7

  /** Recency weight of the n-th newest sample. */
  function Decay(n: nat): (w: real)
    ensures w > 0.0
  {
    if n == 0 then 1.0 else DECAY * Decay(n - 1)
  }

  /** Weighted count of an action among samples listed newest first. */
  function Frequency(samples: seq<Action>, a: Action): (f: real)
    ensures f >= 0.0
  {
    if samples == [] then 0.0
    else
      var n := |samples| - 1;
      Frequency(samples[..n], a) + (if samples[n] == a then Decay(n) else 0.0)
  }

  function Mass(samples: seq<Action>): (w: real)
    ensures w >= 0.0 && (samples != [] ==> w > 0.0)
  {
    if samples == [] then 0.0 else Mass(samples[..|samples| - 1]) + Decay(|samples| - 1)
  }

  function Prior(ki: int): Vec {
    var k := |AffordableActions(ki)|;
    Const(k, if k == 0 then 0.0 else 1.0 / k as real)
  }

  function Frequencies(samples: seq<Action>, ki: int): (f: Vec)
    ensures |f| == |AffordableActions(ki)| && NonNeg(f)
  {
    var actions := AffordableActions(ki);
    seq(|actions|, i requires 0 <= i < |actions| => Frequency(samples, actions[i]))
  }

  /** Relative frequencies over the affordable actions; the prior without samples. */
  function Signal(samples: seq<Action>, ki: int): (f: Vec)
    ensures |f| == |AffordableActions(ki)|
  {
    if Mass(samples) <= 0.0 then Prior(ki) else Scale(1.0 / Mass(samples), Frequencies(samples, ki))
  }

  /** The opponent's actions, newest first. */
  function NewestFirst(history: seq<TurnResult>): seq<Action> {
    if history == [] then [] else [history[|history| - 1].p1Action] + NewestFirst(history[..|history| - 1])
  }

  function LastTurns(history: seq<TurnResult>): seq<TurnResult> {
    if |history| <= WINDOW then history else history[|history| - WINDOW..]
  }

  /** The turns at which the opponent had the given ki. */
  function AtKi(history: seq<TurnResult>, ki: int): seq<TurnResult> {
    if history == [] then []
    else
      var t := history[|history| - 1];
      AtKi(history[..|history| - 1], ki) + (if t.p1Before == ki then [t] else [])
  }

  /** How far the same-ki signal is trusted: fully from the second sample on. */
  function Confidence(samples: nat): real {
    if samples >= 2 then 1.0 else samples as real / 2.0
  }

  lemma FullTrust(samples: nat)
    ensures Confidence(samples) == 1.0 <==> samples >= 2
  {}

  function Observed(history: seq<TurnResult>, ki: int): (o: Vec)
    ensures |o| == |AffordableActions(ki)|
  {
    var marginal := Signal(NewestFirst(LastTurns(history)), ki);
    var same := NewestFirst(AtKi(history, ki));
    if same == [] then marginal
    else Add(Scale(Confidence(|same|), Signal(same, ki)), Scale(1.0 - Confidence(|same|), marginal))
  }

  /** The observed frequencies mixed with the uniform prior, before rescaling. */
  function Weights(history: seq<TurnResult>, ki: int): (o: Vec)
    ensures |o| == |AffordableActions(ki)|
  {
    Add(Scale(TRUST, Observed(history, ki)), Scale(1.0 - TRUST, Prior(ki)))
  }

  /** The modelled distribution of the opponent's next action. */
  function Model(history: seq<TurnResult>, ki: int): (o: Vec)
    requires 0 <= ki
    ensures |o| == |AffordableActions(ki)|
  {
    if history == [] then Prior(ki)
    else
      var w := Weights(history, ki);
      WeightsMass(history, ki);
      Scale(1.0 / Sum(w), w)
  }

  // ----- how much mass a signal carries -----

  lemma PriorMix(ki: int)
    requires 0 <= ki
    ensures MixFor(Prior(ki), ki)
  {
    var k := |AffordableActions(ki)|;
    AffordableCases(ki);
    SumConst(k, 1.0 / k as real);
  }

  /** The unit of mass a sample contributes, lost if the action is unaffordable now. */
  function Unit(a: Action, ki: int): (u: Vec)
    requires 0 <= ki
    ensures |u| == |AffordableActions(ki)|
  {
    if Affordable(a, ki) then Pure(|AffordableActions(ki)|, Position(a, ki)) else Const(|AffordableActions(ki)|, 0.0)
  }

  lemma UnitSum(a: Action, ki: int)
    requires 0 <= ki
    ensures Sum(Unit(a, ki)) == if Affordable(a, ki) then 1.0 else 0.0
  {
    var k := |AffordableActions(ki)|;
    if Affordable(a, ki) {
      PositionOf(a, ki);
      DotPure(k, Position(a, ki), Const(k, 0.0));
    } else {
      SumConst(k, 0.0);
    }
  }

  lemma UnitAt(d: real, a: Action, ki: int, i: nat)
    requires 0 <= ki && i < |AffordableActions(ki)|
    ensures Scale(d, Unit(a, ki))[i] == if AffordableActions(ki)[i] == a then d else 0.0
  {
    ActionAt(ki, i);
    if Affordable(a, ki) { PositionOf(a, ki); }
  }

  lemma FrequenciesStep(samples: seq<Action>, ki: int)
    requires 0 <= ki && samples != []
    ensures var n := |samples| - 1;
      Frequencies(samples, ki) == Add(Frequencies(samples[..n], ki), Scale(Decay(n), Unit(samples[n], ki)))
  {
    hide Decay, Unit, Scale;
    var n, actions := |samples| - 1, AffordableActions(ki);
    var sum := Add(Frequencies(samples[..n], ki), Scale(Decay(n), Unit(samples[n], ki)));
    forall i | 0 <= i < |actions| ensures Frequencies(samples, ki)[i] == sum[i] {
      UnitAt(Decay(n), samples[n], ki, i);
    }
  }

  ghost predicate AllAffordable(samples: seq<Action>, ki: int) {
    forall a :: a in samples ==> Affordable(a, ki)
  }

  lemma AllAffordableSnoc(samples: seq<Action>, ki: int)
    requires samples != []
    ensures var n := |samples| - 1;
      AllAffordable(samples, ki) <==> AllAffordable(samples[..n], ki) && Affordable(samples[n], ki)
  {
    var n := |samples| - 1;
    assert samples[n] in samples && forall a :: a in samples <==> a in samples[..n] || a == samples[n];
  }

  /** The affordable actions collect at most all of the mass, and all of it exactly
      when every sample is affordable now. */
  lemma {:induction false} FrequencyMass(samples: seq<Action>, ki: int)
    requires 0 <= ki
    ensures Sum(Frequencies(samples, ki)) <= Mass(samples)
    ensures Sum(Frequencies(samples, ki)) == Mass(samples) <==> AllAffordable(samples, ki)
  {
    if samples == [] {
      assert Frequencies(samples, ki) == Const(|AffordableActions(ki)|, 0.0);
      SumConst(|AffordableActions(ki)|, 0.0);
    } else {
      hide AllAffordable;
      var n := |samples| - 1;
      FrequencyMass(samples[..n], ki);
      FrequenciesStep(samples, ki);
      SumAdd(Frequencies(samples[..n], ki), Scale(Decay(n), Unit(samples[n], ki)));
      SumScale(Decay(n), Unit(samples[n], ki));
      UnitSum(samples[n], ki);
      AllAffordableSnoc(samples, ki);
    }
  }

  /** A signal is non-negative and carries at most unit mass; it is a distribution
      exactly when every sampled action is still affordable. */
  lemma SignalMass(samples: seq<Action>, ki: int)
    requires 0 <= ki
    ensures NonNeg(Signal(samples, ki)) && 0.0 <= Sum(Signal(samples, ki)) <= 1.0
    ensures Sum(Signal(samples, ki)) == 1.0 <==> AllAffordable(samples, ki)
  {
    hide Frequency, Frequencies, AffordableActions, Scale;
    if Mass(samples) <= 0.0 {
      PriorMix(ki);
    } else {
      hide Mass, AllAffordable;
      var f, w := Frequencies(samples, ki), Mass(samples);
      FrequencyMass(samples, ki);
      SumScale(1.0 / w, f);
      SumNonNeg(f);
      ScaleNonNeg(1.0 / w, f);
      Portion(Sum(f), w);
    }
  }

  lemma Portion(p: real, w: real)
    requires 0.0 <= p <= w && w > 0.0
    ensures 0.0 <= 1.0 / w * p <= 1.0 && (p == w <==> 1.0 / w * p == 1.0)
  {
    assert 1.0 / w * p == p / w;
    assert p / w * w == p;
  }

  // ----- the model is a distribution -----

  lemma Convex(c: real, x: Vec, y: Vec)
    requires |x| == |y| && 0.0 <= c <= 1.0 && NonNeg(x) && NonNeg(y)
    ensures NonNeg(Add(Scale(c, x), Scale(1.0 - c, y)))
    ensures Sum(Add(Scale(c, x), Scale(1.0 - c, y))) == Times(c, Sum(x)) + Times(1.0 - c, Sum(y))
  {
    hide Scale, Times, Sum;
    ScaleNonNeg(c, x);
    ScaleNonNeg(1.0 - c, y);
    SumAdd(Scale(c, x), Scale(1.0 - c, y));
    SumScaled(c, x);
    SumScaled(1.0 - c, y);
  }

  lemma SumScaled(c: real, x: Vec)
    ensures Sum(Scale(c, x)) == Times(c, Sum(x))
  {
    SumScale(c, x);
  }

  lemma ConvexRange(c: real, p: real, q: real)
    requires 0.0 <= c <= 1.0 && 0.0 <= p <= 1.0 && 0.0 <= q <= 1.0
    ensures 0.0 <= Times(c, p) + Times(1.0 - c, q) <= 1.0
  {
    hide Times;
    TimesUnit(c, p);
    TimesUnit(1.0 - c, q);
  }

  lemma ObservedMass(history: seq<TurnResult>, ki: int)
    requires 0 <= ki
    ensures NonNeg(Observed(history, ki)) && 0.0 <= Sum(Observed(history, ki)) <= 1.0
  {
    hide Signal, Scale, Add, Sum, Times;
    var marginal := Signal(NewestFirst(LastTurns(history)), ki);
    var same := NewestFirst(AtKi(history, ki));
    SignalMass(NewestFirst(LastTurns(history)), ki);
    if same != [] {
      SignalMass(same, ki);
      Convex(Confidence(|same|), Signal(same, ki), marginal);
      ConvexRange(Confidence(|same|), Sum(Signal(same, ki)), Sum(marginal));
    }
  }

  lemma WeightsMass(history: seq<TurnResult>, ki: int)
    requires 0 <= ki
    ensures 0.3 <= Sum(Weights(history, ki)) <= 1.0
    ensures NonNeg(Weights(history, ki))
    ensures forall i :: 0 <= i < |Prior(ki)| ==> Weights(history, ki)[i] >= 0.3 * Prior(ki)[i]
  {
    ObservedMass(history, ki);
    PriorMix(ki);
    hide Observed, Sum, Prior;
    Convex(TRUST, Observed(history, ki), Prior(ki));
  }

  /** For every history the model is a probability distribution over the affordable
      actions, and no affordable action gets less than 0.3 of its uniform share. */
  lemma ModelIsDistribution(history: seq<TurnResult>, ki: int)
    requires 0 <= ki
    ensures MixFor(Model(history, ki), ki)
    ensures forall i :: 0 <= i < |Prior(ki)| ==> Model(history, ki)[i] >= 0.3 * Prior(ki)[i]
  {
    PriorMix(ki);
    if history != [] {
      hide Scale, Weights, Sum, Prior;
      WeightsMass(history, ki);
      Rescaled(Weights(history, ki));
    }
  }

  /** The same floor in numbers: 0.3 shared by the k affordable actions. */
  lemma ModelFloor(history: seq<TurnResult>, ki: int)
    requires 0 <= ki
    ensures forall i :: 0 <= i < |Model(history, ki)| ==> Model(history, ki)[i] >= 0.3 / |AffordableActions(ki)| as real
  {
    hide Model, AffordableActions, Simplex;
    ModelIsDistribution(history, ki);
    ActionAt(ki, 0) by { AffordableCases(ki); }
    PartOfShare(0.3, |AffordableActions(ki)| as real);
  }

  lemma PartOfShare(part: real, k: real)
    requires k > 0.0
    ensures part * (1.0 / k) == part / k
  {}

  lemma Rescaled(w: Vec)
    requires NonNeg(w) && 0.3 <= Sum(w) <= 1.0
    ensures Simplex(Scale(1.0 / Sum(w), w))
    ensures forall i :: 0 <= i < |w| ==> Scale(1.0 / Sum(w), w)[i] >= w[i]
  {
    hide Scale, Sum;
    var total := Sum(w);
    SumScale(1.0 / total, w);
    ScaleNonNeg(1.0 / total, w);
    Portion(total, total);
    forall i | 0 <= i < |w| ensures Scale(1.0 / total, w)[i] >= w[i] {
      Enlarged(total, w, i);
    }
  }

  lemma Enlarged(total: real, w: Vec, i: nat)
    requires 0.0 < total <= 1.0 && i < |w| && w[i] >= 0.0
    ensures Scale(1.0 / total, w)[i] >= w[i]
  {
    assert 1.0 / total >= 1.0;
    MulMono(w[i], 1.0, 1.0 / total);
  }

  // ----- histories produced by the engine -----

  lemma {:induction false} SameKiAffordable(h: seq<TurnResult>, p1Ki: int, p2Ki: int, ki: int)
    requires Chain(h, p1Ki, p2Ki)
    ensures AllAffordable(NewestFirst(AtKi(h, ki)), ki)
  {
    if h != [] {
      var n := |h| - 1;
      SameKiAffordable(h[..n], h[n].p1Before, h[n].p2Before, ki);
      var s := AtKi(h[..n], ki);
      if h[n].p1Before == ki {
        assert AtKi(h, ki) == s + [h[n]] && (s + [h[n]])[..|s|] == s;
      } else {
        assert AtKi(h, ki) == s;
      }
    }
  }

  /** On a history recorded by the engine every past action at the same ki is still
      affordable, so the same-ki signal loses no mass: it is itself a distribution. */
  lemma SameKiSignalComplete(h: seq<TurnResult>, p1Ki: int, p2Ki: int)
    requires Chain(h, p1Ki, p2Ki)
    ensures MixFor(Signal(NewestFirst(AtKi(h, p1Ki)), p1Ki), p1Ki)
  {
    ChainRange(h, p1Ki, p2Ki);
    SameKiAffordable(h, p1Ki, p2Ki, p1Ki);
    SignalMass(NewestFirst(AtKi(h, p1Ki)), p1Ki);
  }

  lemma {:induction false} NewestFirstMembers(h: seq<TurnResult>, a: Action)
    ensures a in NewestFirst(h) <==> exists i :: 0 <= i < |h| && h[i].p1Action == a
  {
    if h != [] {
      var n := |h| - 1;
      NewestFirstMembers(h[..n], a);
      assert forall i :: 0 <= i < n ==> h[..n][i] == h[i];
    }
  }

  /** The windowed signal is a distribution exactly when every action of the last ten
      turns can still be paid for. */
  lemma WindowSignalComplete(h: seq<TurnResult>, ki: int)
    requires 0 <= ki
    ensures Sum(Signal(NewestFirst(LastTurns(h)), ki)) == 1.0 <==>
      forall i :: 0 <= i < |LastTurns(h)| ==> Affordable(LastTurns(h)[i].p1Action, ki)
  {
    hide Signal, Sum;
    var recent := LastTurns(h);
    SignalMass(NewestFirst(recent), ki);
    if forall i :: 0 <= i < |recent| ==> Affordable(recent[i].p1Action, ki) {
      forall a | a in NewestFirst(recent) ensures Affordable(a, ki) { NewestFirstMembers(recent, a); }
    } else {
      var i :| 0 <= i < |recent| && !Affordable(recent[i].p1Action, ki);
      NewestFirstMembers(recent, recent[i].p1Action);
    }
  }

  /** So, unlike the same-ki signal, it can lose mass on a history recorded by the
      engine: after charging and attacking, the attack is in the window but can no
      longer be paid for. */
  lemma WindowSignalLosesMass()
    ensures var h := [ResolveTurn(1, Charge, Charge, 0, 0), ResolveTurn(2, Attack, Block, 1, 1)];
      Chain(h, 0, 1) && Sum(Signal(NewestFirst(LastTurns(h)), 0)) < 1.0
  {
    hide Signal, Sum;
    var t1, t2 := ResolveTurn(1, Charge, Charge, 0, 0), ResolveTurn(2, Attack, Block, 1, 1);
    var h := [t1, t2];
    assert h[..1] == [t1] && [t1][..0] == [];
    assert Chain([], 0, 0) && Chain([t1], 1, 1);
    assert LastTurns(h) == h && h[1].p1Action == Attack;
    WindowSignalComplete(h, 0);
    SignalMass(NewestFirst(LastTurns(h)), 0);
  }

  // ----- the accumulation loops -----

  function Get(freq: map<Action, real>, a: Action): real {
    if a in freq then freq[a] else 0.0
  }

  /** The dictionary holds the frequencies of the samples so far. */
  ghost predicate Counted(freq: map<Action, real>, samples: seq<Action>, ki: int) {
    forall a :: Affordable(a, ki) ==> Get(freq, a) == Frequency(samples, a)
  }

  lemma CountOne(freq: map<Action, real>, samples: seq<Action>, ki: int, a: Action, w: real)
    requires Counted(freq, samples, ki) && w == Decay(|samples|)
    ensures Mass(samples + [a]) == Mass(samples) + w
    ensures Counted(if Affordable(a, ki) then freq[a := Get(freq, a) + w] else freq, samples + [a], ki)
  {
    assert (samples + [a])[..|samples|] == samples;
  }

  lemma {:induction false} OlderSample(t: TurnResult, rest: seq<TurnResult>)
    ensures NewestFirst([t] + rest) == NewestFirst(rest) + [t.p1Action]
  {
    var h := [t] + rest;
    if rest == [] {
      assert h == [t] && [t][..0] == [];
    } else {
      assert h[..|h| - 1] == [t] + rest[..|rest| - 1];
      OlderSample(t, rest[..|rest| - 1]);
    }
  }

  lemma {:induction false} OlderAtKi(t: TurnResult, rest: seq<TurnResult>, ki: int)
    ensures AtKi([t] + rest, ki) == (if t.p1Before == ki then [t] else []) + AtKi(rest, ki)
  {
    var h := [t] + rest;
    if rest == [] {
      assert h == [t] && [t][..0] == [];
    } else {
      assert h[..|h| - 1] == [t] + rest[..|rest| - 1];
      OlderAtKi(t, rest[..|rest| - 1], ki);
    }
  }

  lemma {:induction false} NewestFirstLength(h: seq<TurnResult>)
    ensures |NewestFirst(h)| == |h|
  {
    if h != [] { NewestFirstLength(h[..|h| - 1]); }
  }

  /** The distribution a dictionary of counts stands for. */
  method Normalized(freq: map<Action, real>, mass: real, ki: int, ghost samples: seq<Action>) returns (f: Vec)
    requires 0 <= ki && Counted(freq, samples, ki) && mass == Mass(samples)
    ensures f == Signal(samples, ki)
  {
    hide Frequency, Mass, Scale;
    if mass <= 0.0 {
      return Prior(ki);
    }
    var actions := AffordableActions(ki);
    var counts := seq(|actions|, i requires 0 <= i < |actions| => Get(freq, actions[i]));
    forall i | 0 <= i < |actions| ensures counts[i] == Frequencies(samples, ki)[i] {
      ActionAt(ki, i);
    }
    assert counts == Frequencies(samples, ki);
    f := Scale(1.0 / mass, counts);
  }

  /** First pass: the last turns, newest first. */
  method CountRecent(recent: seq<TurnResult>, ki: int) returns (freq: map<Action, real>, mass: real)
    ensures mass == Mass(NewestFirst(recent)) && Counted(freq, NewestFirst(recent), ki)
  {
    hide Decay, Mass, Frequency;
    EmptyCount(ki);
    freq, mass := map[], 0.0;
    var i := |recent|;
    while i > 0
      invariant 0 <= i <= |recent|
      invariant mass == Mass(NewestFirst(recent[i..])) && Counted(freq, NewestFirst(recent[i..]), ki)
    {
      i := i - 1;
      var a := recent[i].p1Action;
      var w := Decay(|recent| - 1 - i);
      NewestFirstLength(recent[i + 1..]);
      CountOne(freq, NewestFirst(recent[i + 1..]), ki, a, w);
      OlderSample(recent[i], recent[i + 1..]);
      assert recent[i..] == [recent[i]] + recent[i + 1..];
      if Affordable(a, ki) {
        freq := freq[a := Get(freq, a) + w];
      }
      mass := mass + w;
    }
    assert recent[0..] == recent;
  }

  /** Second pass: every turn the opponent played at the present ki, newest first. */
  method CountSameKi(history: seq<TurnResult>, ki: int) returns (freq: map<Action, real>, mass: real, n: nat)
    ensures n == |NewestFirst(AtKi(history, ki))|
    ensures mass == Mass(NewestFirst(AtKi(history, ki))) && Counted(freq, NewestFirst(AtKi(history, ki)), ki)
  {
    hide Decay, Mass, Frequency, NewestFirst, AtKi, Counted;
    EmptyCount(ki);
    freq, mass, n := map[], 0.0, 0;
    var i := |history|;
    assert history[i..] == [];
    while i > 0
      invariant 0 <= i <= |history|
      invariant n == |NewestFirst(AtKi(history[i..], ki))|
      invariant mass == Mass(NewestFirst(AtKi(history[i..], ki)))
      invariant Counted(freq, NewestFirst(AtKi(history[i..], ki)), ki)
    {
      i := i - 1;
      var t := history[i];
      ghost var newer := AtKi(history[i + 1..], ki);
      assert history[i..] == [t] + history[i + 1..];
      OlderAtKi(t, history[i + 1..], ki);
      if t.p1Before != ki {
        assert AtKi(history[i..], ki) == newer;
        continue;
      }
      OlderSample(t, newer);
      var w := Decay(n);
      CountOne(freq, NewestFirst(newer), ki, t.p1Action, w);
      if Affordable(t.p1Action, ki) {
        freq := freq[t.p1Action := Get(freq, t.p1Action) + w];
      }
      mass := mass + w;
      n := n + 1;
    }
    assert history[0..] == history;
  }

  /** Combines the two signals and the prior into one distribution. */
  method ModelOpponent(history: seq<TurnResult>, oppKi: int) returns (probs: Vec)
    requires 0 <= oppKi
    ensures probs == Model(history, oppKi)
    ensures MixFor(probs, oppKi)
    ensures forall i :: 0 <= i < |probs| ==> probs[i] >= 0.3 / |AffordableActions(oppKi)| as real
  {
    hide Signal, Mass, Frequency, Counted, Scale, Add, Sum, NewestFirst, AtKi;
    ModelIsDistribution(history, oppKi);
    ModelFloor(history, oppKi);
    if history == [] {
      return Prior(oppKi);
    }
    var recent := LastTurns(history);
    var freq, mass := CountRecent(recent, oppKi);
    var marginal := Normalized(freq, mass, oppKi, NewestFirst(recent));
    var same, sameMass, n := CountSameKi(history, oppKi);
    var observed := marginal;
    if n >= 1 && sameMass > 0.0 {
      var conditional := Normalized(same, sameMass, oppKi, NewestFirst(AtKi(history, oppKi)));
      var confidence := if n >= 2 then 1.0 else n as real / 2.0;
      observed := Add(Scale(confidence, conditional), Scale(1.0 - confidence, marginal));
    }
    assert observed == Observed(history, oppKi);
    probs := Add(Scale(TRUST, observed), Scale(1.0 - TRUST, Prior(oppKi)));
    WeightsMass(history, oppKi);
    probs := Scale(1.0 / Sum(probs), probs);
  }

  // ----- the model in numbers -----

  predicate Counts(t: TurnResult, at: Option<int>) {
    at == None || t.p1Before == at.value
  }

  /** How many of the last n turns count. */
  function Seen(h: seq<TurnResult>, at: Option<int>, n: nat): nat
    requires n <= |h|
  {
    if n == 0 then 0 else Seen(h, at, n - 1) + (if Counts(h[|h| - n], at) then 1 else 0)
  }

  /** Their recency weights: 0.8 to the number of newer turns that count. */
  function AgedMass(h: seq<TurnResult>, at: Option<int>, n: nat): (w: real)
    requires n <= |h|
  {
    if n == 0 then 0.0
    else AgedMass(h, at, n - 1) + (if Counts(h[|h| - n], at) then Power(0.8, Seen(h, at, n - 1)) else 0.0)
  }

  /** The weights of those at which the opponent played the action. */
  function AgedCount(h: seq<TurnResult>, at: Option<int>, n: nat, a: Action): real
    requires n <= |h|
  {
    if n == 0 then 0.0
    else
      var t := h[|h| - n];
      AgedCount(h, at, n - 1, a)
      + (if Counts(t, at) && t.p1Action == a then Power(0.8, Seen(h, at, n - 1)) else 0.0)
  }

  function AgedShare(h: seq<TurnResult>, at: Option<int>, n: nat, a: Action): real
    requires n <= |h|
  {
    if AgedMass(h, at, n) == 0.0 then 0.0 else 1.0 / AgedMass(h, at, n) * AgedCount(h, at, n, a)
  }

  /** What is observed of an action: its share of the last ten turns; of all turns at the
      same ki if there are two; and half of each if there is one. */
  function ObservedShare(h: seq<TurnResult>, ki: int, a: Action): real {
    var recent := AgedShare(h, None, if |h| < 10 then |h| else 10, a);
    var same := AgedShare(h, Some(ki), |h|, a);
    match Seen(h, Some(ki), |h|)
    case 0 => recent
    case 1 => 0.5 * same + 0.5 * recent
    case _ => same
  }

  lemma {:induction false} DecayIsPower(n: nat)
    ensures Decay(n) == Power(0.8, n)
  {
    if n > 0 { DecayIsPower(n - 1); }
  }

  lemma FrequencySnoc(samples: seq<Action>, x: Action, a: Action)
    ensures Frequency(samples + [x], a) == Frequency(samples, a) + (if x == a then Decay(|samples|) else 0.0)
    ensures Mass(samples + [x]) == Mass(samples) + Decay(|samples|)
  {
    assert (samples + [x])[..|samples|] == samples;
  }

  /** The turns of a suffix that count. */
  function Sampled(h: seq<TurnResult>, at: Option<int>): seq<TurnResult> {
    if at == None then h else AtKi(h, at.value)
  }

  lemma OlderSampled(t: TurnResult, rest: seq<TurnResult>, at: Option<int>)
    ensures Sampled([t] + rest, at) == (if Counts(t, at) then [t] else []) + Sampled(rest, at)
  {
    if at.Some? { OlderAtKi(t, rest, at.value); }
  }

  /** The recursive counts from the newest sample on are these sums. */
  lemma {:induction false} CountsAged(h: seq<TurnResult>, at: Option<int>, n: nat, a: Action)
    requires n <= |h|
    ensures var samples := NewestFirst(Sampled(h[|h| - n..], at));
      && |samples| == Seen(h, at, n) && Mass(samples) == AgedMass(h, at, n)
      && Frequency(samples, a) == AgedCount(h, at, n, a)
  {
    hide NewestFirst, Sampled, Frequency, Mass, Decay, Power, Counts;
    if n == 0 {
      assert h[|h|..] == [];
      NothingSampled(at, a);
    } else {
      var t, rest := h[|h| - n], h[|h| - (n - 1)..];
      assert h[|h| - n..] == [t] + rest;
      CountsAged(h, at, n - 1, a);
      OlderSampled(t, rest, at);
      if Counts(t, at) {
        OlderSample(t, Sampled(rest, at));
        FrequencySnoc(NewestFirst(Sampled(rest, at)), t.p1Action, a);
        DecayIsPower(Seen(h, at, n - 1));
      } else {
        assert [] + Sampled(rest, at) == Sampled(rest, at);
      }
    }
  }

  lemma NothingSampled(at: Option<int>, a: Action)
    ensures NewestFirst(Sampled([], at)) == [] && Mass([]) == 0.0 && Frequency([], a) == 0.0
  {}

  lemma SignalAged(h: seq<TurnResult>, at: Option<int>, n: nat, ki: int, i: nat)
    requires n <= |h| && 0 <= ki && i < |AffordableActions(ki)| && Seen(h, at, n) > 0
    ensures Signal(NewestFirst(Sampled(h[|h| - n..], at)), ki)[i] == AgedShare(h, at, n, AffordableActions(ki)[i])
  {
    hide NewestFirst, Sampled, Frequency, Mass, AgedMass, AgedCount, Seen, AffordableActions;
    CountsAged(h, at, n, AffordableActions(ki)[i]);
  }

  lemma {:induction false} AllSeen(h: seq<TurnResult>, n: nat)
    requires n <= |h|
    ensures Seen(h, None, n) == n
  {
    if n > 0 { AllSeen(h, n - 1); }
  }

  lemma ObservedAged(h: seq<TurnResult>, ki: int, i: nat)
    requires h != [] && 0 <= ki && i < |AffordableActions(ki)|
    ensures Observed(h, ki)[i] == ObservedShare(h, ki, AffordableActions(ki)[i])
  {
    hide NewestFirst, Signal, AgedShare, Seen, AffordableActions, AtKi, Scale;
    var n: nat := if |h| < 10 then |h| else 10;
    var same := NewestFirst(AtKi(h, ki));
    AllSeen(h, n);
    assert h[|h| - n..] == LastTurns(h);
    SignalAged(h, None, n, ki, i);
    assert h[|h| - |h|..] == h;
    CountsAged(h, Some(ki), |h|, AffordableActions(ki)[i]);
    if same != [] {
      SignalAged(h, Some(ki), |h|, ki, i);
      Mixed(Confidence(|same|), Signal(same, ki), Signal(NewestFirst(LastTurns(h)), ki), i);
    }
  }

  lemma Mixed(c: real, x: Vec, y: Vec, i: nat)
    requires i < |x| == |y|
    ensures Add(Scale(c, x), Scale(1.0 - c, y))[i] == c * x[i] + (1.0 - c) * y[i]
  {}

  /** The observed shares mixed with the uniform prior. */
  function Likelihoods(h: seq<TurnResult>, ki: int): (w: Vec)
    ensures |w| == |AffordableActions(ki)|
  {
    var actions := AffordableActions(ki);
    seq(|actions|, i requires 0 <= i < |actions| => 0.7 * ObservedShare(h, ki, actions[i]) + 0.3 / |actions| as real)
  }

  /** The model of a round with at least one turn: seven tenths of the observed share and
      three tenths of the uniform share of each affordable action, rescaled to a
      distribution. Before the first turn it is uniform. */
  lemma ModelInNumbers(h: seq<TurnResult>, ki: int)
    requires 0 <= ki
    ensures h == [] ==> forall i :: 0 <= i < |Model(h, ki)| ==> Model(h, ki)[i] == 1.0 / |AffordableActions(ki)| as real
    ensures h != [] ==>
      && Sum(Likelihoods(h, ki)) >= 0.3
      && Model(h, ki) == Scale(1.0 / Sum(Likelihoods(h, ki)), Likelihoods(h, ki))
  {
    hide Observed, ObservedShare, AffordableActions, Sum, Likelihoods;
    ActionAt(ki, 0) by { AffordableCases(ki); }
    if h != [] {
      WeightsAged(h, ki);
      WeightsMass(h, ki);
    }
  }

  lemma WeightsAged(h: seq<TurnResult>, ki: int)
    requires h != [] && 0 <= ki
    ensures Weights(h, ki) == Likelihoods(h, ki)
  {
    hide Observed, ObservedShare, AffordableActions, Sum;
    ActionAt(ki, 0) by { AffordableCases(ki); }
    forall i | 0 <= i < |AffordableActions(ki)| ensures Weights(h, ki)[i] == Likelihoods(h, ki)[i] {
      ObservedAged(h, ki, i);
      Mixed(TRUST, Observed(h, ki), Prior(ki), i);
    }
  }

  lemma {:induction false} OlderUnseen(t: TurnResult, h: seq<TurnResult>, at: Option<int>, n: nat, a: Action)
    requires n <= |h|
    ensures Seen([t] + h, at, n) == Seen(h, at, n) && AgedMass([t] + h, at, n) == AgedMass(h, at, n)
    ensures AgedCount([t] + h, at, n, a) == AgedCount(h, at, n, a)
  {
    hide Power, Counts;
    if n > 0 {
      OlderUnseen(t, h, at, n - 1, a);
      assert ([t] + h)[|[t] + h| - n] == h[|h| - n];
    }
  }

  /** Older than ten turns and played at another ki, a turn is forgotten. */
  lemma OldTurnForgotten(t: TurnResult, h: seq<TurnResult>, ki: int)
    requires |h| >= 10 && t.p1Before != ki && 0 <= ki
    ensures Model([t] + h, ki) == Model(h, ki)
  {
    hide Model, Power, AffordableActions, Sum, Scale, Seen, AgedMass, AgedCount;
    var longer := [t] + h;
    forall a ensures ObservedShare(longer, ki, a) == ObservedShare(h, ki, a) {
      OlderUnseen(t, h, None, 10, a);
      OlderUnseen(t, h, Some(ki), |h|, a);
      SkipsOther(t, h, ki, a);
    }
    assert Likelihoods(longer, ki) == Likelihoods(h, ki);
    ModelInNumbers(longer, ki);
    ModelInNumbers(h, ki);
  }

  lemma SkipsOther(t: TurnResult, h: seq<TurnResult>, ki: int, a: Action)
    requires t.p1Before != ki
    ensures var longer := [t] + h;
      && Seen(longer, Some(ki), |longer|) == Seen(longer, Some(ki), |h|)
      && AgedMass(longer, Some(ki), |longer|) == AgedMass(longer, Some(ki), |h|)
      && AgedCount(longer, Some(ki), |longer|, a) == AgedCount(longer, Some(ki), |h|, a)
  {
    hide Power;
  }

  lemma EmptyCount(ki: int)
    ensures Mass(NewestFirst([])) == 0.0 && Counted(map[], NewestFirst([]), ki)
    ensures AtKi([], ki) == [] && NewestFirst([]) == []
  {}
}
