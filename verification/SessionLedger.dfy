/** Bookkeeping of submissions: which pair each accepted submission ended up in, and
    which pairs were played as turns. */
module SessionLedger {
  import opened Wrappers
  import opened GameRules
  import opened MatchEngine
  import opened EngineInvariants
  import opened Store
  import opened SessionProtocol
  import opened SessionCaptures

  /** An accepted submission, with the number of turns played when it was accepted. */
  datatype Slip = Slip(id: nat, action: Action, stamp: nat)

  /** A pair handed to a resolver waits; it is played as a turn, or lost because the
      engine does not accept it. It is dropped if its worker went home on the error of
      an earlier attempt. */
  datatype Fate = Waiting | Played | Lost | Dropped

  datatype Pair = Pair(first: Slip, second: Slip, fate: Fate)

  /** A pair that a worker resolves although its commit took none: what an earlier, lost
      attempt of the worker had seen. */
  datatype Stale = Stale(p1: Action, p2: Action, waiting: bool)

  /** Where a turn came from. */
  datatype Origin = OfPair(index: nat) | OfStale(index: nat)

  datatype Ledger = Ledger(
    session: Session, slot1: Option<Slip>, slot2: Option<Slip>,
    accepted: nat, overwritten: nat, taken: seq<Pair>, stale: seq<Stale>, played: seq<Origin>)

  /** A commit by a worker. A submission comes with the reports of its lost attempts,
      whatever they were; a resolver plays the pair it holds. */
  datatype Commit =
    | Submits(pid: Player, action: Action, lost: seq<Submitted>)
    | Plays(pair: nat)
    | PlaysStale(index: nat)
    | Other(op: Op)

  function Opened(player1: Player, player2: Player): Ledger {
    Ledger(NewSession(player1, player2), None, None, 0, 0, [], [], [])
  }

  function Count(slot: Option<Slip>): nat {
    if slot.Some? then 1 else 0
  }

  /** What the worker resolves after a submission with these lost attempts. */
  function HandedOver(l: Ledger, pid: Player, a: Action, lost: seq<Submitted>): Option<(Action, Action)> {
    Resolves(lost + [Received(l.session, pid, a)])
  }

  function AfterSubmission(l: Ledger, pid: Player, a: Action, lost: seq<Submitted>): Ledger {
    var s := Mutate(Submit(pid, a), l.session).value;
    var slip := Slip(l.accepted, a, |l.played|);
    var handed := HandedOver(l, pid, a, lost);
    match Received(l.session, pid, a)
    case Stored(_) =>
      var stale := if handed.Some? then l.stale + [Stale(handed.value.0, handed.value.1, true)] else l.stale;
      if pid == l.session.player1
      then l.(session := s, slot1 := Some(slip), accepted := l.accepted + 1,
              overwritten := l.overwritten + Count(l.slot1), stale := stale)
      else l.(session := s, slot2 := Some(slip), accepted := l.accepted + 1,
              overwritten := l.overwritten + Count(l.slot2), stale := stale)
    case PairTaken(_, _, _) =>
      var other := if pid == l.session.player1 then l.slot2 else l.slot1;
      if other == None then l
      else
        var fate := if handed.Some? then Waiting else Dropped;
        var pair := if pid == l.session.player1 then Pair(slip, other.value, fate) else Pair(other.value, slip, fate);
        l.(session := s, slot1 := None, slot2 := None, accepted := l.accepted + 1, taken := l.taken + [pair])
    case _ => l.(session := s)
  }

  function AfterResolution(l: Ledger, k: nat): Ledger {
    if k >= |l.taken| || l.taken[k].fate != Waiting then l
    else
      var p := l.taken[k];
      match Mutate(Resolve(p.first.action, p.second.action), l.session)
      case Ok(s) => l.(session := s, taken := l.taken[k := p.(fate := Played)], played := l.played + [OfPair(k)])
      case Err(_) => l.(taken := l.taken[k := p.(fate := Lost)])
  }

  function AfterStale(l: Ledger, k: nat): Ledger {
    if k >= |l.stale| || !l.stale[k].waiting then l
    else
      var p := l.stale[k];
      match Mutate(Resolve(p.p1, p.p2), l.session)
      case Ok(s) => l.(session := s, stale := l.stale[k := p.(waiting := false)], played := l.played + [OfStale(k)])
      case Err(_) => l.(stale := l.stale[k := p.(waiting := false)])
  }

  function After(l: Ledger, c: Commit): Ledger {
    match c
    case Submits(pid, a, lost) => AfterSubmission(l, pid, a, lost)
    case Plays(k) => AfterResolution(l, k)
    case PlaysStale(k) => AfterStale(l, k)
    case Other(op) =>
      if op.Submit? || op.Resolve? then l
      else
        match Mutate(op, l.session)
        case Ok(s) => l.(session := s)
        case Err(_) => l
  }

  function Book(player1: Player, player2: Player, commits: seq<Commit>): Ledger {
    if commits == [] then Opened(player1, player2)
    else After(Book(player1, player2, commits[..|commits| - 1]), commits[|commits| - 1])
  }

  // ----- the invariant -----

  ghost predicate SlotOf(slot: Option<Slip>, pending: Option<Action>) {
    pending == if slot.Some? then Some(slot.value.action) else None
  }

  /** The slip differs from both in this pair. */
  ghost predicate Apart(slip: Slip, p: Pair) {
    slip.id != p.first.id && slip.id != p.second.id
  }

  ghost predicate SlotApart(slot: Option<Slip>, taken: seq<Pair>, accepted: nat) {
    slot.Some? ==> slot.value.id < accepted && forall i :: 0 <= i < |taken| ==> Apart(slot.value, taken[i])
  }

  /** No submission is in two places. */
  ghost predicate AllApart(taken: seq<Pair>, slot1: Option<Slip>, slot2: Option<Slip>, accepted: nat) {
    && (forall i :: 0 <= i < |taken| ==>
          taken[i].first.id < accepted && taken[i].second.id < accepted && taken[i].first.id != taken[i].second.id)
    && (forall i, j :: 0 <= i < j < |taken| ==> Apart(taken[i].first, taken[j]) && Apart(taken[i].second, taken[j]))
    && SlotApart(slot1, taken, accepted) && SlotApart(slot2, taken, accepted)
  }

  ghost predicate TurnOf(t: Origin, taken: seq<Pair>, stale: seq<Stale>) {
    match t
    case OfPair(k) => k < |taken| && taken[k].fate == Played
    case OfStale(k) => k < |stale| && !stale[k].waiting
  }

  ghost predicate PlayedOnce(l: Ledger) {
    && (forall i :: 0 <= i < |l.played| ==> TurnOf(l.played[i], l.taken, l.stale))
    && Distinct(l.played)
  }

  function Move(t: Origin, taken: seq<Pair>, stale: seq<Stale>): (Action, Action) {
    match t
    case OfPair(k) => if k < |taken| then (taken[k].first.action, taken[k].second.action) else (Charge, Charge)
    case OfStale(k) => if k < |stale| then (stale[k].p1, stale[k].p2) else (Charge, Charge)
  }

  /** The actions of the turns played, in order. */
  function Moves(l: Ledger): (r: seq<(Action, Action)>)
    ensures |r| == |l.played|
  {
    seq(|l.played|, i requires 0 <= i < |l.played| => Move(l.played[i], l.taken, l.stale))
  }

  /** The stored match is the engine's run over these moves, unless it was abandoned. */
  ghost predicate IsRunOf(gs: GameState, moves: seq<(Action, Action)>) {
    var run := Play(StartMatch(), moves);
    gs == run || gs == run.(status := Abandoned)
  }

  /** A slip accepted at the present turn can still be paid for. */
  ghost predicate Current(slip: Slip, ki: int, turns: nat, live: bool) {
    slip.stamp <= turns && (slip.stamp == turns && live ==> Affordable(slip.action, ki))
  }

  function KiOf(gs: GameState, who: Winner): int {
    if gs.current == None then 0 else if who == P1 then gs.current.value.p1Ki else gs.current.value.p2Ki
  }

  /** Nothing that was paid for can become too expensive without a turn being played. */
  ghost predicate AllCurrent(l: Ledger) {
    var gs, turns, live := l.session.game, |l.played|, l.session.game.status == InProgress;
    && (l.slot1.Some? ==> Current(l.slot1.value, KiOf(gs, P1), turns, live))
    && (l.slot2.Some? ==> Current(l.slot2.value, KiOf(gs, P2), turns, live))
    && forall i :: 0 <= i < |l.taken| ==> PairCurrent(l.taken[i], gs, turns, live)
  }

  ghost predicate PairCurrent(p: Pair, gs: GameState, turns: nat, live: bool) {
    Current(p.first, KiOf(gs, P1), turns, live) && Current(p.second, KiOf(gs, P2), turns, live)
  }

  ghost predicate LedgerOk(l: Ledger) {
    && SessionOk(l.session)
    && SlotOf(l.slot1, l.session.p1Action) && SlotOf(l.slot2, l.session.p2Action)
    && l.accepted == 2 * |l.taken| + Count(l.slot1) + Count(l.slot2) + l.overwritten
    && AllApart(l.taken, l.slot1, l.slot2, l.accepted) && PlayedOnce(l)
    && TotalTurns(l.session.game) == |l.played|
    && IsRunOf(l.session.game, Moves(l))
    && (l.session.player1 != l.session.player2 ==> AllCurrent(l))
  }

  // ----- every commit keeps it -----

  /** A pair made of a pending and a fresh slip is apart from all others. */
  lemma NewPairApart(taken: seq<Pair>, slot1: Option<Slip>, slot2: Option<Slip>, accepted: nat, pair: Pair,
                     pending: Slip)
    requires AllApart(taken, slot1, slot2, accepted) && (slot1 == Some(pending) || slot2 == Some(pending))
    requires (pair.first == pending && pair.second.id == accepted)
      || (pair.second == pending && pair.first.id == accepted)
    ensures AllApart(taken + [pair], None, None, accepted + 1)
  {}

  lemma NewSlotApart(taken: seq<Pair>, slot1: Option<Slip>, slot2: Option<Slip>, accepted: nat, slip: Slip)
    requires AllApart(taken, slot1, slot2, accepted) && slip.id == accepted
    ensures AllApart(taken, Some(slip), slot2, accepted + 1) && AllApart(taken, slot1, Some(slip), accepted + 1)
  {}

  /** Settling a pair's fate touches nobody's slips. */
  lemma FateApart(taken: seq<Pair>, slot1: Option<Slip>, slot2: Option<Slip>, accepted: nat, k: nat, fate: Fate)
    requires AllApart(taken, slot1, slot2, accepted) && k < |taken|
    ensures AllApart(taken[k := taken[k].(fate := fate)], slot1, slot2, accepted)
  {}

  /** Longer lists with the same actions, and no fate undone, keep the turns played. */
  lemma SameMoves(l: Ledger, l': Ledger)
    requires PlayedOnce(l) && l'.played == l.played
    requires |l'.taken| >= |l.taken| && |l'.stale| >= |l.stale|
    requires forall i :: 0 <= i < |l.taken| ==>
      l'.taken[i].first == l.taken[i].first && l'.taken[i].second == l.taken[i].second
      && (l.taken[i].fate == Played ==> l'.taken[i].fate == Played)
    requires forall i :: 0 <= i < |l.stale| ==>
      l'.stale[i].p1 == l.stale[i].p1 && l'.stale[i].p2 == l.stale[i].p2 && (l'.stale[i].waiting ==> l.stale[i].waiting)
    ensures PlayedOnce(l') && Moves(l') == Moves(l)
  {
    forall i | 0 <= i < |l.played| ensures TurnOf(l'.played[i], l'.taken, l'.stale) {
      assert TurnOf(l.played[i], l.taken, l.stale);
    }
    forall i | 0 <= i < |l.played| ensures Moves(l')[i] == Moves(l)[i] {
      assert TurnOf(l.played[i], l.taken, l.stale);
    }
  }

  /** The same when one more turn is played. */
  lemma OneMoreMove(l: Ledger, l': Ledger, t: Origin)
    requires PlayedOnce(l) && l'.played == l.played + [t] && |l'.taken| == |l.taken| && |l'.stale| == |l.stale|
    requires TurnOf(t, l'.taken, l'.stale) && !TurnOf(t, l.taken, l.stale)
    requires forall i :: 0 <= i < |l.taken| ==>
      l'.taken[i].first == l.taken[i].first && l'.taken[i].second == l.taken[i].second
      && (l.taken[i].fate == Played ==> l'.taken[i].fate == Played)
    requires forall i :: 0 <= i < |l.stale| ==>
      l'.stale[i].p1 == l.stale[i].p1 && l'.stale[i].p2 == l.stale[i].p2 && (l'.stale[i].waiting ==> l.stale[i].waiting)
    ensures PlayedOnce(l') && Moves(l') == Moves(l) + [Move(t, l.taken, l.stale)]
  {
    var prefix := l'.(played := l.played);
    SameMoves(l, prefix);
    assert Move(t, l'.taken, l'.stale) == Move(t, l.taken, l.stale);
    assert Moves(l') == Moves(prefix) + [Move(t, l'.taken, l'.stale)];
    forall i | 0 <= i < |l'.played| ensures TurnOf(l'.played[i], l'.taken, l'.stale) {
      if i < |l.played| { assert TurnOf(prefix.played[i], l'.taken, l'.stale); }
    }
    forall i, j | 0 <= i < j < |l'.played| ensures l'.played[i] != l'.played[j] {
      if j == |l.played| { assert TurnOf(l.played[i], l.taken, l.stale); }
    }
  }

  lemma PlayOne(moves: seq<(Action, Action)>, m: (Action, Action), gs: GameState)
    requires IsRunOf(gs, moves) && SubmitTurn(gs, m.0, m.1).Ok?
    ensures IsRunOf(SubmitTurn(gs, m.0, m.1).value.state, moves + [m])
  {
    assert (moves + [m])[..|moves|] == moves;
  }

  /** What was accepted just now is affordable now. */
  lemma AcceptedNow(s: Session, pid: Player, a: Action)
    requires SessionOk(s) && s.player1 != s.player2
    requires Received(s, pid, a).Stored? || Received(s, pid, a).PairTaken?
    ensures pid == s.player1 ==> Affordable(a, KiOf(s.game, P1))
    ensures pid != s.player1 ==> pid == s.player2 && Affordable(a, KiOf(s.game, P2))
  {}

  /** After one more turn every slip is a turn behind. */
  lemma AllBehind(l: Ledger, l': Ledger)
    requires AllCurrent(l) && |l'.played| == |l.played| + 1 && l'.slot1 == l.slot1 && l'.slot2 == l.slot2
    requires |l'.taken| == |l.taken| && forall i :: 0 <= i < |l.taken| ==>
      l'.taken[i].first == l.taken[i].first && l'.taken[i].second == l.taken[i].second
    ensures AllCurrent(l')
  {
    forall i | 0 <= i < |l'.taken|
      ensures PairCurrent(l'.taken[i], l'.session.game, |l'.played|, l'.session.game.status == InProgress)
    {
      assert PairCurrent(l.taken[i], l.session.game, |l.played|, l.session.game.status == InProgress);
    }
  }

  /** Without a turn, and with the match at most ended, every slip stays current. */
  lemma StillCurrent(l: Ledger, l': Ledger)
    requires AllCurrent(l) && |l'.played| == |l.played| && l'.slot1 == l.slot1 && l'.slot2 == l.slot2
    requires |l'.taken| == |l.taken| && forall i :: 0 <= i < |l.taken| ==>
      l'.taken[i].first == l.taken[i].first && l'.taken[i].second == l.taken[i].second
    requires l'.session.game.current == l.session.game.current
    requires l'.session.game.status == InProgress ==> l.session.game.status == InProgress
    ensures AllCurrent(l')
  {
    forall i | 0 <= i < |l'.taken|
      ensures PairCurrent(l'.taken[i], l'.session.game, |l'.played|, l'.session.game.status == InProgress)
    {
      assert PairCurrent(l.taken[i], l.session.game, |l.played|, l.session.game.status == InProgress);
    }
  }

  lemma SubmissionCurrent(l: Ledger, pid: Player, a: Action, lost: seq<Submitted>)
    requires LedgerOk(l) && l.session.player1 != l.session.player2
    ensures AllCurrent(AfterSubmission(l, pid, a, lost))
  {
    hide Play, TotalTurns, Valid, IsRunOf, AllApart, PlayedOnce, Moves, Distinct, HandedOver;
    var l' := AfterSubmission(l, pid, a, lost);
    if Received(l.session, pid, a).Stored? || Received(l.session, pid, a).PairTaken? {
      AcceptedNow(l.session, pid, a);
    }
    forall i | 0 <= i < |l'.taken|
      ensures PairCurrent(l'.taken[i], l'.session.game, |l'.played|, l'.session.game.status == InProgress)
    {
      if i < |l.taken| {
        assert PairCurrent(l.taken[i], l.session.game, |l.played|, l.session.game.status == InProgress);
      }
    }
  }

  lemma SubmissionApart(l: Ledger, pid: Player, a: Action, lost: seq<Submitted>)
    requires LedgerOk(l)
    ensures var l' := AfterSubmission(l, pid, a, lost); AllApart(l'.taken, l'.slot1, l'.slot2, l'.accepted)
  {
    hide Play, TotalTurns, Valid, IsRunOf, AllApart, PlayedOnce, Moves, Distinct, AllCurrent, HandedOver;
    var l' := AfterSubmission(l, pid, a, lost);
    match Received(l.session, pid, a)
    case Stored(_) => NewSlotApart(l.taken, l.slot1, l.slot2, l.accepted, Slip(l.accepted, a, |l.played|));
    case PairTaken(_, _, _) =>
      var pair := l'.taken[|l.taken|];
      NewPairApart(l.taken, l.slot1, l.slot2, l.accepted, pair,
                   if pid == l.session.player1 then pair.second else pair.first);
    case _ =>
  }

  lemma SubmissionKeeps(l: Ledger, pid: Player, a: Action, lost: seq<Submitted>)
    requires LedgerOk(l)
    ensures LedgerOk(AfterSubmission(l, pid, a, lost))
  {
    hide Play, TotalTurns, Valid, IsRunOf, AllApart, PlayedOnce, Moves, Distinct, AllCurrent, HandedOver;
    CommitKeeps(Submit(pid, a), l.session);
    var l' := AfterSubmission(l, pid, a, lost);
    SubmissionApart(l, pid, a, lost);
    SameMoves(l, l');
    if l.session.player1 != l.session.player2 { SubmissionCurrent(l, pid, a, lost); }
  }

  /** Playing a pair of actions, from a taken or from a stale pair. */
  lemma ResolutionKeeps(l: Ledger, k: nat)
    requires LedgerOk(l)
    ensures LedgerOk(AfterResolution(l, k))
  {
    hide Play, TotalTurns, Valid, IsRunOf, SubmitTurn, AllApart, PlayedOnce, Moves, Distinct, AllCurrent;
    if k < |l.taken| && l.taken[k].fate == Waiting {
      var l', p := AfterResolution(l, k), l.taken[k];
      var m := (p.first.action, p.second.action);
      FateApart(l.taken, l.slot1, l.slot2, l.accepted, k, l'.taken[k].fate);
      if SubmitTurn(l.session.game, m.0, m.1).Ok? {
        CommitKeeps(Resolve(m.0, m.1), l.session);
        OneMoreMove(l, l', OfPair(k));
        PlayOne(Moves(l), m, l.session.game);
        if l.session.player1 != l.session.player2 { AllBehind(l, l'); }
      } else {
        SameMoves(l, l');
        if l.session.player1 != l.session.player2 { StillCurrent(l, l'); }
      }
    }
  }

  lemma StaleKeeps(l: Ledger, k: nat)
    requires LedgerOk(l)
    ensures LedgerOk(AfterStale(l, k))
  {
    hide Play, TotalTurns, Valid, IsRunOf, SubmitTurn, AllApart, PlayedOnce, Moves, Distinct, AllCurrent;
    if k < |l.stale| && l.stale[k].waiting {
      var l', p := AfterStale(l, k), l.stale[k];
      if SubmitTurn(l.session.game, p.p1, p.p2).Ok? {
        CommitKeeps(Resolve(p.p1, p.p2), l.session);
        OneMoreMove(l, l', OfStale(k));
        PlayOne(Moves(l), (p.p1, p.p2), l.session.game);
        if l.session.player1 != l.session.player2 { AllBehind(l, l'); }
      } else {
        SameMoves(l, l');
        if l.session.player1 != l.session.player2 { StillCurrent(l, l'); }
      }
    }
  }

  lemma OtherKeeps(l: Ledger, op: Op)
    requires LedgerOk(l)
    ensures LedgerOk(After(l, Other(op)))
  {
    hide Play, TotalTurns, Valid, AllApart, PlayedOnce, Moves, Distinct, AllCurrent;
    if !op.Submit? && !op.Resolve? && Mutate(op, l.session).Ok? {
      var l' := After(l, Other(op));
      CommitKeeps(op, l.session);
      SameMoves(l, l');
      if l.session.player1 != l.session.player2 { StillCurrent(l, l'); }
    }
  }

  lemma {:induction false} EveryBook(player1: Player, player2: Player, commits: seq<Commit>)
    ensures LedgerOk(Book(player1, player2, commits))
    ensures Book(player1, player2, commits).session.player1 == player1
    ensures Book(player1, player2, commits).session.player2 == player2
  {
    hide LedgerOk, AfterSubmission, AfterResolution, AfterStale, Mutate;
    if commits == [] {
      OpenedOk(player1, player2);
    } else {
      var l := Book(player1, player2, commits[..|commits| - 1]);
      EveryBook(player1, player2, commits[..|commits| - 1]);
      SamePlayers(l, commits[|commits| - 1]);
      match commits[|commits| - 1]
      case Submits(pid, a, lost) => SubmissionKeeps(l, pid, a, lost);
      case Plays(k) => ResolutionKeeps(l, k);
      case PlaysStale(k) => StaleKeeps(l, k);
      case Other(op) => OtherKeeps(l, op);
    }
  }

  lemma OpenedOk(player1: Player, player2: Player)
    ensures LedgerOk(Opened(player1, player2))
  {
    assert Moves(Opened(player1, player2)) == [];
  }

  lemma SamePlayers(l: Ledger, c: Commit)
    ensures After(l, c).session.player1 == l.session.player1 && After(l, c).session.player2 == l.session.player2
  {
    hide SubmitTurn, HandedOver;
  }

  // ----- turns and submissions -----

  /** On every run, no accepted submission is in two pairs that were played: the
      submissions behind any two such turns are four different ones. */
  lemma FeedsOneTurn(player1: Player, player2: Player, commits: seq<Commit>, i: nat, j: nat)
    requires var l := Book(player1, player2, commits); i < j < |l.played| && l.played[i].OfPair? && l.played[j].OfPair?
    ensures var l := Book(player1, player2, commits);
      && l.played[i].index < |l.taken| && l.played[j].index < |l.taken|
      && var p, q := l.taken[l.played[i].index], l.taken[l.played[j].index];
      && p.first.id != p.second.id && q.first.id != q.second.id
      && Apart(p.first, q) && Apart(p.second, q)
  {
    hide Book;
    EveryBook(player1, player2, commits);
    var l := Book(player1, player2, commits);
    assert l.played[i] != l.played[j];
    assert TurnOf(l.played[i], l.taken, l.stale) && TurnOf(l.played[j], l.taken, l.stale);
  }

  function PairTurns(played: seq<Origin>): nat {
    if played == [] then 0 else PairTurns(played[..|played| - 1]) + (if played[|played| - 1].OfPair? then 1 else 0)
  }

  function StaleTurns(played: seq<Origin>): nat {
    if played == [] then 0 else StaleTurns(played[..|played| - 1]) + (if played[|played| - 1].OfStale? then 1 else 0)
  }

  /** Distinct indices below n are at most n many. */
  lemma {:induction false} FewerThan(xs: seq<nat>, n: nat)
    requires (forall i :: 0 <= i < |xs| ==> xs[i] < n) && Distinct(xs)
    ensures |xs| <= n
  {
    if xs != [] {
      assert xs[0] < n;
      if k: nat :| k < |xs| && xs[k] == n - 1 {
        var ys := xs[..k] + xs[k + 1..];
        FewerThan(ys, n - 1);
      } else {
        FewerThan(xs, n - 1);
      }
    }
  }

  /** The indices of the turns of one kind. */
  function Indices(played: seq<Origin>, pairs: bool): seq<nat> {
    if played == [] then []
    else
      var n := |played| - 1;
      Indices(played[..n], pairs) + (if played[n].OfPair? == pairs then [played[n].index] else [])
  }

  lemma DistinctSnoc(xs: seq<nat>, x: nat)
    requires Distinct(xs) && x !in xs
    ensures Distinct(xs + [x])
  {}

  lemma {:induction false} IndicesOf(played: seq<Origin>, pairs: bool)
    requires Distinct(played)
    ensures |Indices(played, pairs)| == if pairs then PairTurns(played) else StaleTurns(played)
    ensures Distinct(Indices(played, pairs))
    ensures forall k :: k in Indices(played, pairs) ==>
      exists i :: 0 <= i < |played| && played[i].OfPair? == pairs && played[i].index == k
  {
    if played != [] {
      var n := |played| - 1;
      IndicesOf(played[..n], pairs);
      forall i | 0 <= i < n && played[i].OfPair? == played[n].OfPair? ensures played[i].index != played[n].index {
        assert played[i] != played[n];
      }
      assert forall i :: 0 <= i < n ==> played[..n][i] == played[i];
      if played[n].OfPair? == pairs {
        forall k | k in Indices(played[..n], pairs) ensures k != played[n].index {
          var i :| 0 <= i < n && played[..n][i].OfPair? == pairs && played[..n][i].index == k;
          assert played[i].OfPair? == played[n].OfPair?;
        }
        DistinctSnoc(Indices(played[..n], pairs), played[n].index);
      }
    }
  }

  lemma {:induction false} TurnsSplit(played: seq<Origin>)
    ensures PairTurns(played) + StaleTurns(played) == |played|
    ensures StaleTurns(played) == 0 <==> forall i :: 0 <= i < |played| ==> played[i].OfPair?
  {
    if played != [] {
      TurnsSplit(played[..|played| - 1]);
      assert forall i :: 0 <= i < |played| - 1 ==> played[..|played| - 1][i] == played[i];
    }
  }

  /** Every accepted submission is accounted for: it is in a pair, pending, or was
      overwritten by its own player. The turns played are those of the pairs played and
      of the stale pairs played, each at most once; without stale turns they never
      exceed the pairs taken. */
  lemma SubmissionsConserved(player1: Player, player2: Player, commits: seq<Commit>)
    ensures var l := Book(player1, player2, commits);
      && l.accepted == 2 * |l.taken| + Count(l.slot1) + Count(l.slot2) + l.overwritten
      && Count(l.slot1) + Count(l.slot2) <= 1
      && TotalTurns(l.session.game) == PairTurns(l.played) + StaleTurns(l.played)
      && PairTurns(l.played) <= |l.taken| && StaleTurns(l.played) <= |l.stale|
      && (StaleTurns(l.played) == 0 <==> forall i :: 0 <= i < |l.played| ==> l.played[i].OfPair?)
  {
    hide Book;
    EveryBook(player1, player2, commits);
    BookConserved(Book(player1, player2, commits));
  }

  lemma BookConserved(l: Ledger)
    requires LedgerOk(l)
    ensures Count(l.slot1) + Count(l.slot2) <= 1
    ensures TotalTurns(l.session.game) == PairTurns(l.played) + StaleTurns(l.played)
    ensures PairTurns(l.played) <= |l.taken| && StaleTurns(l.played) <= |l.stale|
    ensures StaleTurns(l.played) == 0 <==> forall i :: 0 <= i < |l.played| ==> l.played[i].OfPair?
  {
    hide Valid, IsRunOf, AllApart, AllCurrent, TotalTurns, PairTurns, StaleTurns, Indices;
    TurnsSplit(l.played);
    IndicesOf(l.played, true);
    IndicesOf(l.played, false);
    forall k | k in Indices(l.played, true) ensures k < |l.taken| {
      var i :| 0 <= i < |l.played| && l.played[i].OfPair? && l.played[i].index == k;
      assert TurnOf(l.played[i], l.taken, l.stale);
    }
    forall k | k in Indices(l.played, false) ensures k < |l.stale| {
      var i :| 0 <= i < |l.played| && !l.played[i].OfPair? && l.played[i].index == k;
      assert TurnOf(l.played[i], l.taken, l.stale);
    }
    assert forall i :: 0 <= i < |Indices(l.played, true)| ==> Indices(l.played, true)[i] in Indices(l.played, true);
    assert forall i :: 0 <= i < |Indices(l.played, false)| ==> Indices(l.played, false)[i] in Indices(l.played, false);
    FewerThan(Indices(l.played, true), |l.taken|);
    FewerThan(Indices(l.played, false), |l.stale|);
  }

  /** And the stored match is the engine's own run over exactly the turns played, in
      the order played, except that it may have been abandoned. */
  lemma StoredMatchIsEngineRun(player1: Player, player2: Player, commits: seq<Commit>)
    ensures var l := Book(player1, player2, commits); PlayedOnce(l) && IsRunOf(l.session.game, Moves(l))
  {
    hide Book;
    EveryBook(player1, player2, commits);
  }

  // ----- when the worker hands over what it took -----

  /** The submission's worker resolves exactly the pair its commit took. */
  ghost predicate HandsOver(l: Ledger, c: Commit) {
    c.Submits? ==> HandedOver(l, c.pid, c.action, c.lost) == TakenBy(Received(l.session, c.pid, c.action))
  }

  ghost predicate Clean(l: Ledger) {
    l.stale == [] && forall i :: 0 <= i < |l.taken| ==> l.taken[i].fate != Dropped
  }

  lemma RejectedHandsNothing(lost: seq<Submitted>, r: Submitted)
    ensures Rejection(r) ==> Resolves(lost + [r]) == None
    ensures r.PairTaken? ==> Resolves(lost + [r]) == None || Resolves(lost + [r]) == TakenBy(r)
  {
    assert (lost + [r])[..|lost|] == lost;
  }

  lemma CleanStep(l: Ledger, c: Commit)
    requires LedgerOk(l)
    ensures Clean(After(l, c)) <==> Clean(l) && HandsOver(l, c)
  {
    hide Valid, IsRunOf, AllApart, AllCurrent, TotalTurns, SubmitTurn, PlayedOnce, Resolves, CapturedAfter;
    var l' := After(l, c);
    match c
    case Submits(pid, a, lost) =>
      RejectedHandsNothing(lost, Received(l.session, pid, a));
      forall i | 0 <= i < |l.taken| ensures l'.taken[i] == l.taken[i] {}
      if Received(l.session, pid, a).PairTaken? {
        assert l'.taken[|l.taken|].fate == Dropped <==> HandedOver(l, pid, a, lost) == None;
      }
    case Plays(k) =>
      forall i | 0 <= i < |l.taken| ensures l'.taken[i].fate == Dropped <==> l.taken[i].fate == Dropped {}
    case PlaysStale(k) =>
    case Other(op) =>
  }

  /** Every submission of the run handed over what its commit took. */
  ghost predicate AllHandOver(player1: Player, player2: Player, commits: seq<Commit>) {
    commits != [] ==>
      var n := |commits| - 1;
      AllHandOver(player1, player2, commits[..n]) && HandsOver(Book(player1, player2, commits[..n]), commits[n])
  }

  /** No pair is stale and none is dropped if and only if every submission of the run
      handed over what its commit took; then every turn played is a pair of two accepted
      submissions of its own, and turns never exceed pairs taken. */
  lemma CleanExactlyWhen(player1: Player, player2: Player, commits: seq<Commit>)
    ensures Clean(Book(player1, player2, commits)) <==> AllHandOver(player1, player2, commits)
    ensures var l := Book(player1, player2, commits);
      Clean(l) ==> TotalTurns(l.session.game) <= |l.taken| && forall i :: 0 <= i < |l.played| ==> l.played[i].OfPair?
  {
    hide HandsOver, TotalTurns, LedgerOk, After, StaleTurns, PairTurns, AllHandOver, Book;
    SubmissionsConserved(player1, player2, commits);
    CleanSoFar(player1, player2, commits);
  }

  lemma {:induction false} CleanSoFar(player1: Player, player2: Player, commits: seq<Commit>)
    ensures Clean(Book(player1, player2, commits)) <==> AllHandOver(player1, player2, commits)
  {
    hide HandsOver, Clean, LedgerOk, After;
    if commits == [] {
      OpenedClean(player1, player2);
    } else {
      var n := |commits| - 1;
      CleanSoFar(player1, player2, commits[..n]);
      EveryBook(player1, player2, commits[..n]);
      CleanStep(Book(player1, player2, commits[..n]), commits[n]);
    }
  }

  lemma OpenedClean(player1: Player, player2: Player)
    ensures Clean(Opened(player1, player2))
  {}

  // ----- when a taken pair is played -----

  /** A waiting pair is played if and only if the match is in progress and both of its
      actions can be paid for when it is resolved. */
  lemma PlayedExactlyWhen(l: Ledger, k: nat)
    requires LedgerOk(l) && k < |l.taken| && l.taken[k].fate == Waiting
    ensures |After(l, Plays(k)).taken| == |l.taken|
    ensures var gs, p := l.session.game, l.taken[k];
      After(l, Plays(k)).taken[k].fate == Played <==>
        gs.status == InProgress && Affordable(p.first.action, KiOf(gs, P1)) && Affordable(p.second.action, KiOf(gs, P2))
  {
    hide IsRunOf, AllApart, AllCurrent, TotalTurns, PlayedOnce, Moves, Distinct, CountWins, Chain;
  }

  /** What a worker can rely on, on every run: a pair it holds is lost only if the match
      has ended, or a turn was played after the earlier of its two submissions was
      accepted. */
  lemma LostOnlyAfterTurn(player1: Player, player2: Player, commits: seq<Commit>, k: nat)
    requires player1 != player2
    requires var l := Book(player1, player2, commits); k < |l.taken| && l.taken[k].fate == Waiting
    ensures var l := Book(player1, player2, commits);
      var p := l.taken[k];
      && |After(l, Plays(k)).taken| == |l.taken|
      && p.first.stamp <= |l.played| && p.second.stamp <= |l.played|
      && (After(l, Plays(k)).taken[k].fate == Lost ==>
            l.session.game.status != InProgress || p.first.stamp < |l.played| || p.second.stamp < |l.played|)
  {
    hide Book, After, LedgerOk;
    EveryBook(player1, player2, commits);
    var l := Book(player1, player2, commits);
    PlayedExactlyWhen(l, k);
    CurrentPair(l, k);
  }

  lemma CurrentPair(l: Ledger, k: nat)
    requires LedgerOk(l) && l.session.player1 != l.session.player2 && k < |l.taken|
    ensures var gs, p := l.session.game, l.taken[k];
      && p.first.stamp <= |l.played| && p.second.stamp <= |l.played|
      && (gs.status == InProgress && p.first.stamp == |l.played| ==> Affordable(p.first.action, KiOf(gs, P1)))
      && (gs.status == InProgress && p.second.stamp == |l.played| ==> Affordable(p.second.action, KiOf(gs, P2)))
  {
    hide IsRunOf, AllApart, TotalTurns, PlayedOnce, Valid;
    assert PairCurrent(l.taken[k], l.session.game, |l.played|, l.session.game.status == InProgress);
  }

  // ----- runs on which something goes wrong -----

  lemma BookSnoc(player1: Player, player2: Player, commits: seq<Commit>, c: Commit)
    ensures Book(player1, player2, commits + [c]) == After(Book(player1, player2, commits), c)
  {
    assert (commits + [c])[..|commits|] == commits;
  }

  lemma Extended(player1: Player, player2: Player, run: seq<Commit>, c: Commit) returns (longer: seq<Commit>)
    ensures Book(player1, player2, longer) == After(Book(player1, player2, run), c)
  {
    longer := run + [c];
    BookSnoc(player1, player2, run, c);
  }

  lemma OpeningBook(player1: Player, player2: Player)
    ensures Book(player1, player2, []) == Opened(player1, player2)
  {}

  /** Such a loss does happen: after a turn of charging, the first player attacks, and
      attacks again before that pair is played; the second attack can no longer be paid
      for when its turn comes. */
  lemma PairCanBeLost(player1: Player, player2: Player) returns (run: seq<Commit>)
    requires player1 != player2
    ensures var l := Book(player1, player2, run);
      |l.taken| == 3 && l.taken[2].fate == Lost && |l.played| == 2
  {
    OpeningBook(player1, player2);
    hide Book, After, Resting;
    run := Extended(player1, player2, [], Submits(player1, Charge, []));
    run := Extended(player1, player2, run, Submits(player2, Charge, []));
    run := Extended(player1, player2, run, Plays(0));
    ChargingTurn(Opened(player1, player2));
    ghost var l3 := Book(player1, player2, run);
    run := Extended(player1, player2, run, Submits(player1, Attack, []));
    run := Extended(player1, player2, run, Submits(player2, Block, []));
    run := Extended(player1, player2, run, Submits(player1, Attack, []));
    run := Extended(player1, player2, run, Plays(1));
    AttackingTurn(l3);
    ghost var l7 := Book(player1, player2, run);
    run := Extended(player1, player2, run, Submits(player2, Charge, []));
    run := Extended(player1, player2, run, Plays(2));
    UnpaidTurn(l7);
  }

  lemma NothingLost(r: Submitted)
    ensures Resolves([] + [r]) == TakenBy(r)
  {
    assert [] + [r] == [r];
    ResolvesWhatItTook([r]);
  }

  /** Nothing pending, the match in progress, and this much ki on both sides. */
  ghost predicate Resting(l: Ledger, ki: int) {
    && l.slot1 == None && l.slot2 == None && l.session.p1Action == None && l.session.p2Action == None
    && l.session.game.status == InProgress && l.session.game.current.Some?
    && var r := l.session.game.current.value; r.p1Ki == ki && r.p2Ki == ki && r.turnNumber == |l.played|
  }

  lemma ChargesStored(l: Ledger)
    requires l == Opened(l.session.player1, l.session.player2) && l.session.player1 != l.session.player2
    ensures var l2 := AfterSubmission(AfterSubmission(l, l.session.player1, Charge, []), l.session.player2, Charge, []);
      && l2 == l.(accepted := 2, taken := [Pair(Slip(0, Charge, 0), Slip(1, Charge, 0), Waiting)])
  {
    hide Resolves;
    var l1 := AfterSubmission(l, l.session.player1, Charge, []);
    NothingLost(Received(l.session, l.session.player1, Charge));
    NothingLost(Received(l1.session, l.session.player2, Charge));
    assert l1.slot1 == Some(Slip(0, Charge, 0)) && l1.session == l.session.(p1Action := Some(Charge)) && l1.taken == [];
  }

  lemma FirstTurn()
    ensures var r := SubmitTurn(StartMatch(), Charge, Charge);
      r.Ok? && r.value.state.status == InProgress && r.value.state.current.Some?
        && var c := r.value.state.current.value; c.p1Ki == c.p2Ki == c.turnNumber == 1
  {}

  /** The stages of that run. */
  lemma ChargingTurn(l: Ledger)
    requires l == Opened(l.session.player1, l.session.player2) && l.session.player1 != l.session.player2
    ensures var l1 := After(l, Submits(l.session.player1, Charge, []));
      var l3 := After(After(l1, Submits(l.session.player2, Charge, [])), Plays(0));
      && Resting(l3, 1) && |l3.taken| == |l3.played| == 1
      && l3.session.player1 == l.session.player1 && l3.session.player2 == l.session.player2
  {
    hide AfterSubmission;
    ChargesStored(l);
    var l1 := After(l, Submits(l.session.player1, Charge, []));
    var l2 := After(l1, Submits(l.session.player2, Charge, []));
    assert l2.taken[0].fate == Waiting && l2.session.game == StartMatch();
    hide SubmitTurn;
    FirstTurn();
  }

  lemma AttackingTurn(l: Ledger)
    requires Resting(l, 1) && |l.taken| == |l.played| == 1 && l.session.player1 != l.session.player2
    ensures var l4 := After(l, Submits(l.session.player1, Attack, []));
      var l6 := After(After(l4, Submits(l.session.player2, Block, [])), Submits(l.session.player1, Attack, []));
      var l7 := After(l6, Plays(1));
      && l7.slot1.Some? && l7.slot1.value.action == Attack && l7.session.p1Action == Some(Attack)
        && l7.session.p2Action == None
      && l7.session.game.current.Some? && KiOf(l7.session.game, P1) == 0 && KiOf(l7.session.game, P2) == 1
      && l7.session.game.status == InProgress && |l7.taken| == |l7.played| == 2
      && l7.session.player1 == l.session.player1 && l7.session.player2 == l.session.player2
  {
    hide Resolves;
    var l4 := After(l, Submits(l.session.player1, Attack, []));
    NothingLost(Received(l.session, l.session.player1, Attack));
    NothingLost(Received(l4.session, l.session.player2, Block));
    var l5 := After(l4, Submits(l.session.player2, Block, []));
    assert l5.taken == l.taken + [Pair(Slip(l.accepted, Attack, 1), Slip(l.accepted + 1, Block, 1), Waiting)];
    NothingLost(Received(l5.session, l.session.player1, Attack));
    var l6 := After(l5, Submits(l.session.player1, Attack, []));
    assert l6.taken == l5.taken && l6.session.game == l.session.game;
  }

  lemma UnpaidTurn(l: Ledger)
    requires l.slot1.Some? && l.slot1.value.action == Attack
    requires l.session.p1Action == Some(Attack) && l.session.p2Action == None && l.session.game.current.Some?
    requires KiOf(l.session.game, P1) == 0 && KiOf(l.session.game, P2) == 1
    requires l.session.game.status == InProgress && |l.taken| == |l.played| == 2
    requires l.session.player1 != l.session.player2
    ensures var l9 := After(After(l, Submits(l.session.player2, Charge, [])), Plays(2));
      |l9.taken| == 3 && l9.taken[2].fate == Lost && |l9.played| == 2
  {
    hide Resolves;
    NothingLost(Received(l.session, l.session.player2, Charge));
    var l8 := After(l, Submits(l.session.player2, Charge, []));
    assert l8.taken == l.taken + [Pair(l.slot1.value, Slip(l.accepted, Charge, 2), Waiting)];
  }

  /** And a stale capture can be played: two turns come of one pair of submissions. The
      second worker's lost attempt had seen the pair that the first worker took. */
  lemma StaleTurnPlayed(player1: Player, player2: Player) returns (run: seq<Commit>)
    requires player1 != player2
    ensures var l := Book(player1, player2, run);
      && |l.taken| == 1 && TotalTurns(l.session.game) == |l.played| == 2
      && Moves(l) == [(Charge, Charge), (Charge, Charge)]
  {
    OpeningBook(player1, player2);
    EveryBookTurns(player1, player2);
    hide Book, After, Resting, Moves;
    run := Extended(player1, player2, [], Submits(player1, Charge, []));
    run := Extended(player1, player2, run, Submits(player2, Charge, []));
    run := Extended(player1, player2, run, Submits(player2, Charge, [PairTaken(1, Charge, Charge)]));
    run := Extended(player1, player2, run, Plays(0));
    run := Extended(player1, player2, run, PlaysStale(0));
    TwoTurnsOfOnePair(Opened(player1, player2));
    EveryBook(player1, player2, run);
  }

  lemma EveryBookTurns(player1: Player, player2: Player)
    ensures TotalTurns(Opened(player1, player2).session.game) == 0
  {}

  lemma TwoTurnsOfOnePair(l: Ledger)
    requires l == Opened(l.session.player1, l.session.player2) && l.session.player1 != l.session.player2
    ensures var l2 := After(After(l, Submits(l.session.player1, Charge, [])), Submits(l.session.player2, Charge, []));
      var l3 := After(l2, Submits(l.session.player2, Charge, [PairTaken(1, Charge, Charge)]));
      var l5 := After(After(l3, Plays(0)), PlaysStale(0));
      |l5.taken| == 1 && |l5.played| == 2 && Moves(l5) == [(Charge, Charge), (Charge, Charge)]
  {
    ChargesStored(l);
    var l2 := After(After(l, Submits(l.session.player1, Charge, [])), Submits(l.session.player2, Charge, []));
    StaleStored(l2);
    var l3 := After(l2, Submits(l.session.player2, Charge, [PairTaken(1, Charge, Charge)]));
    hide AfterSubmission, SubmitTurn;
    FirstTurn();
    var l4 := After(l3, Plays(0));
    assert l4.played == [OfPair(0)] && l4.stale == l3.stale;
    SecondTurn(l4.session.game);
  }

  lemma StaleStored(l: Ledger)
    requires l.session == NewSession(l.session.player1, l.session.player2) && l.session.player1 != l.session.player2
    requires l.stale == []
    ensures var l3 := AfterSubmission(l, l.session.player2, Charge, [PairTaken(1, Charge, Charge)]);
      l3.stale == [Stale(Charge, Charge, true)] && l3.taken == l.taken && l3.played == l.played
        && l3.session.game == l.session.game
  {
    var r := Received(l.session, l.session.player2, Charge);
    assert r == Stored(1);
    assert [PairTaken(1, Charge, Charge)] + [r] == [PairTaken(1, Charge, Charge), r];
    TwoReports([PairTaken(1, Charge, Charge), r]);
  }

  lemma SecondTurn(gs: GameState)
    requires gs.status == InProgress && gs.current.Some? && gs.current.value.p1Ki >= 0 && gs.current.value.p2Ki >= 0
    ensures SubmitTurn(gs, Charge, Charge).Ok?
  {}

  // ----- the ledger and the store -----

  /** The write of a pair of actions that the engine accepts; one it refuses leaves none. */
  function ResolveWrite(l: Ledger, p1: Action, p2: Action, id: nat): seq<Write<Session>> {
    if Mutate(Resolve(p1, p2), l.session).Ok? then [Apply(id, MutatorOf(Resolve(p1, p2)))] else []
  }

  /** The write a commit leaves in the log. */
  function WriteOf(l: Ledger, c: Commit, id: nat): seq<Write<Session>> {
    match c
    case Submits(pid, a, _) => [Apply(id, MutatorOf(Submit(pid, a)))]
    case Plays(k) =>
      if k < |l.taken| && l.taken[k].fate == Waiting
      then ResolveWrite(l, l.taken[k].first.action, l.taken[k].second.action, id) else []
    case PlaysStale(k) =>
      if k < |l.stale| && l.stale[k].waiting then ResolveWrite(l, l.stale[k].p1, l.stale[k].p2, id) else []
    case Other(op) =>
      if op.Submit? || op.Resolve? || Mutate(op, l.session).Err? then [] else [Apply(id, MutatorOf(op))]
  }

  function LogOf(player1: Player, player2: Player, commits: seq<Commit>): seq<Write<Session>> {
    if commits == [] then [Put(NewSession(player1, player2))]
    else
      var before := commits[..|commits| - 1];
      LogOf(player1, player2, before) + WriteOf(Book(player1, player2, before), commits[|commits| - 1], |commits|)
  }

  lemma CommitFollows(l: Ledger, c: Commit, id: nat)
    requires LedgerOk(l)
    ensures var w := WriteOf(l, c, id);
      if w == [] then After(l, c).session == l.session
      else |w| == 1 && Replay(Some(l.session), w[0]) == Some(After(l, c).session)
  {
    hide SubmitTurn, IsRunOf, TotalTurns, Valid, AllApart, PlayedOnce, AllCurrent, HandedOver;
  }

  /** The ledger's session is what the store holds after those commits. */
  lemma {:induction false} LedgerFollowsStore(player1: Player, player2: Player, commits: seq<Commit>)
    ensures Fold(LogOf(player1, player2, commits)) == Some(Book(player1, player2, commits).session)
  {
    hide LedgerOk, WriteOf, After, Replay;
    if commits == [] {
      OpeningLog(player1, player2);
    } else {
      var before := commits[..|commits| - 1];
      var log, l, c := LogOf(player1, player2, before), Book(player1, player2, before), commits[|commits| - 1];
      LedgerFollowsStore(player1, player2, before);
      EveryBook(player1, player2, before);
      CommitFollows(l, c, |commits|);
      var w := WriteOf(l, c, |commits|);
      if w == [] {
        assert log + w == log;
      } else {
        FoldSnoc(log, w[0]);
        assert w == [w[0]];
      }
    }
  }

  lemma OpeningLog(player1: Player, player2: Player)
    ensures Fold([Put(NewSession(player1, player2))]) == Some(NewSession(player1, player2))
  {
    assert [Put(NewSession(player1, player2))][..0] == [];
  }
}
