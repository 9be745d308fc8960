/** The full strategy: one round table per match score, for the rounded draw weight of
    that score, and its lookup at run time. */
module Strategies {
  import opened Wrappers
  import opened GameRules
  import opened Vectors
  import opened ZeroSum
  import opened StageGame
  import opened RoundSolver
  import opened MatchSolver

  /** How the tables are built: the stage solver, and the rounding of draw weights. */
  datatype Build = Build(solver: Solver, round: real -> real)

  /** Rounding moves a weight by at most u, keeps it a weight, and treats both players alike. */
  ghost predicate RoundsWithin(round: real -> real, u: real) {
    && u >= 0.0
    && forall x :: 0.0 <= x <= 1.0 ==> RoundedOk(round, x, u)
  }

  ghost predicate RoundedOk(round: real -> real, x: real, u: real) {
    0.0 <= round(x) <= 1.0 && -u <= round(x) - x <= u && round(1.0 - x) == 1.0 - round(x)
  }

  ghost predicate SoundBuild(b: Build, u: real) {
    Sound(b.solver) && RoundsWithin(b.round, u)
  }

  const MILLION := 1000000

  /** The nearest whole number, ties to the even one. */
  function Nearest(x: real): int {
    var n := x.Floor;
    var rest := x - n as real;
    if rest < 0.5 || (rest == 0.5 && n % 2 == 0) then n else n + 1
  }

  /** Rounding to six decimals, ties to even. */
  function RoundSix(x: real): real {
    Nearest(x * MILLION as real) as real / MILLION as real
  }

  lemma NearestIsNear(x: real)
    ensures -0.5 <= Nearest(x) as real - x <= 0.5
    ensures 0.0 <= x <= MILLION as real ==> 0 <= Nearest(x) <= MILLION
  {}

  /** The result has six decimals and no number with six decimals is nearer; of two that
      are equally near it is the even one. */
  lemma SixDecimals(x: real, n: int)
    ensures RoundSix(x) * 1000000.0 == Nearest(x * 1000000.0) as real
    ensures n != Nearest(x * 1000000.0) ==>
      var mine, other := Distance(RoundSix(x), x), Distance(n as real / 1000000.0, x);
      mine < other || (mine == other && Nearest(x * 1000000.0) % 2 == 0)
  {
    var y, k := x * 1000000.0, Nearest(x * 1000000.0);
    NearestIsNear(y);
    InMillionths(k, y);
    InMillionths(n, y);
    if n != k { NearestIsNearest(y, n); }
  }

  function Distance(a: real, b: real): real {
    if a <= b then b - a else a - b
  }

  lemma NearestIsNearest(y: real, n: int)
    requires n != Nearest(y)
    ensures var mine, other := Distance(Nearest(y) as real, y), Distance(n as real, y);
      mine < other || (mine == other && Nearest(y) % 2 == 0)
  {}

  lemma InMillionths(n: int, y: real)
    ensures Distance(n as real / 1000000.0, y / 1000000.0) == Distance(n as real, y) / 1000000.0
  {}

  /** Reflecting at an even number commutes with it: the ties swap parity twice. */
  lemma NearestReflected(x: real, m: int)
    requires m % 2 == 0
    ensures Nearest(m as real - x) == m - Nearest(x)
  {
    var n := x.Floor;
    if x == n as real {
      assert (m as real - x).Floor == m - n;
    } else {
      assert (m as real - x).Floor == m - n - 1;
    }
  }

  /** Rounding to six decimals moves a weight by at most half a millionth, and rounds
      the weights of the two players to weights that still add up to one. */
  lemma SixRounds()
    ensures RoundsWithin(RoundSix, 0.0000005)
  {
    forall x | 0.0 <= x <= 1.0 ensures RoundedOk(RoundSix, x, 0.0000005) {
      NearestIsNear(x * MILLION as real);
      NearestReflected(x * MILLION as real, MILLION);
    }
  }

  /** Tables for the draw weights as they are, without rounding. */
  function Exactly(s: Solver): Build {
    Build(s, x => x)
  }

  lemma ExactlySound(s: Solver)
    requires Sound(s)
    ensures SoundBuild(Exactly(s), 0.0)
  {
    forall x | 0.0 <= x <= 1.0 ensures RoundedOk(Exactly(s).round, x, 0.0) {}
  }

  /** What the match induction is told about rounds: the start value of the table for
      the rounded weight. */
  function RoundValue(b: Build): real -> real {
    lam => RoundStart(b.solver, b.round(lam))
  }

  lemma RoundValueIsOracle(b: Build, u: real)
    requires SoundBuild(b, u)
    ensures RoundOracle(RoundValue(b))
  {
    hide RoundStart;
    forall x | 0.0 <= x <= 1.0
      ensures 0.0 <= RoundValue(b)(x) <= 1.0 && RoundValue(b)(x) + RoundValue(b)(1.0 - x) == 1.0
    {
      assert RoundedOk(b.round, x, u);
      RoundStartSymmetric(b.solver, b.round(x));
    }
  }

  /** The draw weight of the table in use at a score. */
  function TableWeight(b: Build, k: Score): real
    requires Terminal(k) == None
  {
    b.round(DrawWeight(RoundValue(b), k))
  }

  // ----- building -----

  datatype RoundTable = RoundTable(v: array3<real>, sigma: array3<Vec>)

  /** Weight and table key by score, and the tables by key. */
  datatype Strategy = Strategy(weights: map<Score, real>, keyOf: map<Score, real>, tables: map<real, RoundTable>)

  /** Both arrays of a round table hold the solved values and mixes. */
  ghost predicate TableFilled(v: array3<real>, sigma: array3<Vec>, s: Solver, lam: real)
    requires Sound(s)
    reads v, sigma
  {
    && TableSized(v) && TableSized(sigma)
    && forall a, b, i :: KiRange(a) && KiRange(b) && 0 <= i < TURN_LIMIT ==>
         v[a, b, i] == Value(s, LamLeaves(lam), a, b, i + 1)
           && sigma[a, b, i] == StoredMix(s, LamLeaves(lam), a, b, i + 1)
  }

  ghost function Arrays(tables: map<real, RoundTable>): set<object> {
    (set x | x in tables :: tables[x].v) + (set x | x in tables :: tables[x].sigma)
  }

  /** Every table is the solved round for its key. */
  ghost predicate TablesFilled(tables: map<real, RoundTable>, s: Solver)
    requires Sound(s)
    reads Arrays(tables)
  {
    forall x :: x in tables ==> TableFilled(tables[x].v, tables[x].sigma, s, x)
  }

  /** Every score before a round has its weight, its key, and the table of its weight. */
  ghost predicate Complete(st: Strategy, b: Build) {
    && (forall k :: k in st.keyOf ==> st.keyOf[k] in st.tables)
    && forall k :: PreRound(k) ==> EntryOf(st, b, k)
  }

  ghost predicate EntryOf(st: Strategy, b: Build, k: Score) {
    && Terminal(k) == None && k in st.weights && k in st.keyOf && st.keyOf[k] in st.tables
    && st.weights[k] == st.keyOf[k] == b.round(DrawWeight(RoundValue(b), k))
  }

  /** The cached table of a weight, solved if it is not there yet. */
  method WithTable(tables: map<real, RoundTable>, rounded: real, s: Solver) returns (more: map<real, RoundTable>)
    requires Sound(s) && TablesFilled(tables, s)
    ensures TablesFilled(more, s) && more.Keys == tables.Keys + {rounded}
    ensures forall x :: x in tables ==> more[x] == tables[x]
  {
    hide Value, StoredMix;
    if rounded in tables {
      return tables;
    }
    var v, sigma := SolveRoundTable(rounded, s);
    assert TableFilled(v, sigma, s, rounded);
    more := tables[rounded := RoundTable(v, sigma)];
  }

  /** Every table is some score's. */
  ghost predicate NoSpareTable(st: Strategy) {
    forall x :: x in st.tables ==> exists k :: k in st.keyOf && st.keyOf[k] == x
  }

  /** Enters one score. */
  method AddScore(st: Strategy, k: Score, b: Build, lam: real) returns (more: Strategy)
    requires Sound(b.solver) && TablesFilled(st.tables, b.solver) && NoSpareTable(st) && k !in st.keyOf
    requires Terminal(k) == None && lam == DrawWeight(RoundValue(b), k)
    ensures TablesFilled(more.tables, b.solver) && NoSpareTable(more)
    ensures EntryOf(more, b, k) && more.keyOf.Keys == st.keyOf.Keys + {k}
    ensures forall j :: j != k && EntryOf(st, b, j) ==> EntryOf(more, b, j)
  {
    hide DrawWeight, RoundValue, TablesFilled;
    var rounded := b.round(lam);
    var tables := WithTable(st.tables, rounded, b.solver);
    more := Strategy(st.weights[k := rounded], st.keyOf[k := rounded], tables);
    forall x | x in more.tables ensures exists j :: j in more.keyOf && more.keyOf[j] == x {
      if x == rounded {
        assert more.keyOf[k] == x;
      } else {
        var j :| j in st.keyOf && st.keyOf[j] == x;
        assert more.keyOf[j] == x;
      }
    }
  }

  /** The draw weights of all scores before a round. */
  method AllWeights(b: Build) returns (lambdas: map<Score, real>)
    ensures forall k :: k in lambdas <==> PreRound(k)
    ensures forall k :: PreRound(k) ==> Terminal(k) == None && lambdas[k] == DrawWeight(RoundValue(b), k)
  {
    hide DrawWeight, RoundValue;
    var induction := new MatchInduction(RoundValue(b));
    induction.Run();
    lambdas := induction.lambdas;
    forall k | PreRound(k) ensures Terminal(k) == None { PreRoundNotOver(k); }
  }

  /** Runs the match induction, then solves one table per distinct rounded weight. */
  method BuildFullStrategy(b: Build) returns (st: Strategy)
    requires Sound(b.solver)
    ensures Complete(st, b) && TablesFilled(st.tables, b.solver) && NoSpareTable(st)
    ensures forall k :: k in st.keyOf <==> PreRound(k)
  {
    hide Value, Worth, DrawWeight, StoredMix, RoundValue, TablesFilled, EntryOf;
    var lambdas := AllWeights(b);
    var scores := ReachableScores();
    st := Strategy(map[], map[], map[]);
    NoTables(b.solver);
    for i := 0 to |scores|
      invariant forall j :: 0 <= j < i ==> EntryOf(st, b, scores[j])
      invariant st.keyOf.Keys == set k | k in scores[..i]
      invariant TablesFilled(st.tables, b.solver) && NoSpareTable(st)
    {
      var k := scores[i];
      assert PreRound(k);
      PreRoundNotOver(k);
      assert scores[..i + 1] == scores[..i] + [k];
      st := AddScore(st, k, b, lambdas[k]);
    }
    AllEntered(st, b, scores);
  }

  lemma AllEntered(st: Strategy, b: Build, scores: seq<Score>)
    requires forall j :: 0 <= j < |scores| ==> EntryOf(st, b, scores[j])
    requires st.keyOf.Keys == set k | k in scores[..|scores|]
    requires forall k :: k in scores <==> PreRound(k)
    ensures Complete(st, b) && forall k :: k in st.keyOf <==> PreRound(k)
  {
    assert scores[..|scores|] == scores;
    forall k | PreRound(k) ensures EntryOf(st, b, k) { assert k in scores; }
    forall k | k in st.keyOf ensures st.keyOf[k] in st.tables { assert k in scores; }
  }

  lemma NoTables(s: Solver)
    requires Sound(s)
    ensures TablesFilled(map[], s)
  {}

  lemma PreRoundNotOver(k: Score)
    requires PreRound(k)
    ensures Terminal(k) == None
  {}

  // ----- lookup -----

  const DEFAULT_SCORE := Score(0, 0, 0)

  lemma DefaultEntry(st: Strategy, b: Build)
    requires Complete(st, b)
    ensures EntryOf(st, b, DEFAULT_SCORE)
  {
    assert PreRound(DEFAULT_SCORE);
  }

  /** The table and the weight of a score; those of the opening score for an unknown one. */
  method TableFor(st: Strategy, k: Score, ghost b: Build) returns (table: RoundTable, lam: real)
    requires Complete(st, b)
    ensures var known := if PreRound(k) then k else Score(0, 0, 0);
      PreRound(k) || (k !in st.keyOf && k !in st.weights) ==>
        EntryOf(st, b, known) && lam == TableWeight(b, known) && table == st.tables[lam]
  {
    DefaultEntry(st, b);
    if PreRound(k) { assert EntryOf(st, b, k); }
    table := st.tables[if k in st.keyOf then st.keyOf[k] else st.keyOf[DEFAULT_SCORE]];
    lam := if k in st.weights then st.weights[k] else st.weights[DEFAULT_SCORE];
  }
}
