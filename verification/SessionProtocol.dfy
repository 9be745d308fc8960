/** One stored two-player session and the six mutators that workers commit to it. */
module SessionProtocol {
  import opened Wrappers
  import opened GameRules
  import opened MatchEngine
  import opened EngineInvariants
  import opened Store

  type Player = string

  datatype Session = Session(
    game: GameState, player1: Player, player2: Player,
    connected: seq<Player>, started: bool,
    p1Action: Option<Action>, p2Action: Option<Action>)

  function NewSession(player1: Player, player2: Player): Session {
    Session(StartMatch(), player1, player2, [], false, None, None)
  }

  predicate IsPlayer(s: Session, pid: Player) {
    pid == s.player1 || pid == s.player2
  }

  function MarkConnected(connected: seq<Player>, pid: Player): seq<Player> {
    if pid in connected then connected else connected + [pid]
  }

  function Without(connected: seq<Player>, pid: Player): seq<Player> {
    if connected == [] then []
    else
      var rest := Without(connected[..|connected| - 1], pid);
      if connected[|connected| - 1] == pid then rest else rest + [connected[|connected| - 1]]
  }

  /** What a submission turns out to be. A refused one is still committed, unchanged. */
  datatype Submitted =
    | MatchOver | NoRound | TooExpensive | Stranger
    | Stored(turn: int)
    | PairTaken(turn: int, p1: Action, p2: Action)

  function Received(s: Session, pid: Player, a: Action): Submitted {
    if s.game.status != InProgress then MatchOver
    else if s.game.current == None then NoRound
    else
      var r := s.game.current.value;
      if !Affordable(a, if pid == s.player2 then r.p2Ki else r.p1Ki) then TooExpensive
      else if pid == s.player1 then
        if s.p2Action.Some? then PairTaken(r.turnNumber + 1, a, s.p2Action.value) else Stored(r.turnNumber + 1)
      else if pid == s.player2 then
        if s.p1Action.Some? then PairTaken(r.turnNumber + 1, s.p1Action.value, a) else Stored(r.turnNumber + 1)
      else Stranger
  }

  /** The six mutators. */
  datatype Op =
    | Connect(pid: Player)
    | Start
    | Submit(pid: Player, action: Action)
    | Resolve(p1: Action, p2: Action)
    | Disconnect(pid: Player)
    | Abandon

  function Mutate(op: Op, s: Session): Result<Session, Refusal> {
    match op
    case Connect(pid) =>
      if IsPlayer(s, pid) then Ok(s.(connected := MarkConnected(s.connected, pid))) else Err(Refusal)
    case Start =>
      Ok(if !s.started && |s.connected| >= 2 then s.(started := true) else s)
    case Submit(pid, a) =>
      Ok(match Received(s, pid, a)
         case Stored(_) => if pid == s.player1 then s.(p1Action := Some(a)) else s.(p2Action := Some(a))
         case PairTaken(_, _, _) => s.(p1Action := None, p2Action := None)
         case _ => s)
    case Resolve(p1, p2) =>
      (match SubmitTurn(s.game, p1, p2)
       case Ok(sub) => Ok(s.(game := sub.state))
       case Err(_) => Err(Refusal))
    case Disconnect(pid) => Ok(s.(connected := Without(s.connected, pid)))
    case Abandon => Ok(s.(game := s.game.(status := Abandoned)))
  }

  // ----- what one commit keeps -----

  ghost predicate SessionOk(s: Session) {
    && Valid(s.game)
    && !(s.p1Action.Some? && s.p2Action.Some?)
    && Distinct(s.connected) && forall pid :: pid in s.connected ==> IsPlayer(s, pid)
  }

  lemma {:induction false} WithoutOk(connected: seq<Player>, pid: Player)
    requires Distinct(connected)
    ensures Distinct(Without(connected, pid))
    ensures forall q :: q in Without(connected, pid) <==> q in connected && q != pid
  {
    if connected != [] {
      var n := |connected| - 1;
      WithoutOk(connected[..n], pid);
      assert connected[n] !in connected[..n];
      assert forall q :: q in connected <==> q in connected[..n] || q == connected[n];
    }
  }

  /** Nobody else is removed, and the order stays. */
  lemma WithoutOne(before: seq<Player>, after: seq<Player>, pid: Player)
    requires pid !in before && pid !in after
    ensures Without(before + [pid] + after, pid) == before + after
    ensures Without(before, pid) == before
  {
    NothingToRemove(before, pid);
    RemovedLater(before + [pid], after, pid);
    assert (before + [pid])[..|before|] == before;
  }

  lemma {:induction false} NothingToRemove(connected: seq<Player>, pid: Player)
    requires pid !in connected
    ensures Without(connected, pid) == connected
  {
    if connected != [] {
      NothingToRemove(connected[..|connected| - 1], pid);
    }
  }

  lemma {:induction false} RemovedLater(before: seq<Player>, after: seq<Player>, pid: Player)
    requires pid !in after
    ensures Without(before + after, pid) == Without(before, pid) + after
  {
    if after == [] {
      assert before + after == before;
    } else {
      var n := |after| - 1;
      RemovedLater(before, after[..n], pid);
      assert (before + after)[..|before + after| - 1] == before + after[..n];
      assert after == after[..n] + [after[n]];
    }
  }

  /** Both of the two players, who are then different people. */
  ghost predicate BothConnected(s: Session) {
    s.player1 in s.connected && s.player2 in s.connected && s.player1 != s.player2
  }

  lemma TwoMeansBoth(s: Session)
    requires SessionOk(s) && |s.connected| >= 2
    ensures BothConnected(s)
  {
    assert s.connected[0] != s.connected[1];
    assert s.connected[0] in s.connected && s.connected[1] in s.connected;
  }

  /** How far the match has come: completed rounds, then turns of the current one. */
  function Turn(gs: GameState): int {
    if gs.current.Some? then gs.current.value.turnNumber else 0
  }

  ghost predicate NotBefore(t: GameState, s: GameState) {
    |s.results| < |t.results| || (|s.results| == |t.results| && Turn(s) <= Turn(t))
  }

  /** What later states may have changed: the players are the same, the start and the
      end of the match are final, booked rounds stay as booked, and nothing is undone. */
  ghost predicate Later(s: Session, t: Session) {
    && t.player1 == s.player1 && t.player2 == s.player2
    && (s.started ==> t.started)
    && (t.game.status == InProgress ==> s.game.status == InProgress)
    && s.game.results <= t.game.results && NotBefore(t.game, s.game)
    && TotalTurns(s.game) <= TotalTurns(t.game)
  }

  lemma ResolveAdvances(gs: GameState, p1: Action, p2: Action)
    requires Valid(gs) && SubmitTurn(gs, p1, p2).Ok?
    ensures var next := SubmitTurn(gs, p1, p2).value.state;
      && Valid(next) && gs.status == InProgress && next.status != Abandoned
      && gs.results <= next.results && NotBefore(next, gs) && !NotBefore(gs, next)
      && TotalTurns(next) == TotalTurns(gs) + 1
  {
    SubmitKeepsValid(gs, p1, p2);
  }

  /** The session stays well formed and only moves forward. The match is started by the
      start mutator alone and only with both players connected, it is abandoned by the
      forfeit alone and completed by a resolution alone, and only a resolution moves
      the game, by exactly one turn. */
  ghost predicate CommitOk(op: Op, s: Session, t: Session) {
    && SessionOk(t) && Later(s, t)
    && (!s.started && t.started ==> op == Start && BothConnected(s) && BothConnected(t))
    && TotalTurns(t.game) == TotalTurns(s.game) + (if op.Resolve? then 1 else 0)
    && (t.game.status == Abandoned && s.game.status != Abandoned ==> op == Abandon)
    && (op == Abandon ==> t.game.status == Abandoned)
    && (t.game.status == Completed && s.game.status != Completed ==> op.Resolve? && s.game.status == InProgress)
  }

  /** Whatever leaves the game alone and keeps the rest in order is in order. */
  lemma SameGame(op: Op, s: Session, t: Session)
    requires SessionOk(s) && t.game == s.game && t.player1 == s.player1 && t.player2 == s.player2
    requires !op.Resolve? && op != Abandon
    requires !(t.p1Action.Some? && t.p2Action.Some?) && Distinct(t.connected)
    requires forall pid :: pid in t.connected ==> IsPlayer(s, pid)
    requires s.started ==> t.started
    requires !s.started && t.started ==> op == Start && BothConnected(s) && t.connected == s.connected
    ensures CommitOk(op, s, t)
  {
    hide Valid, TotalTurns, Distinct;
  }

  /** Every commit of every mutator meets it. */
  lemma CommitKeeps(op: Op, s: Session)
    requires SessionOk(s) && Mutate(op, s).Ok?
    ensures CommitOk(op, s, Mutate(op, s).value)
  {
    hide Valid, TotalTurns, SubmitTurn, CommitOk;
    var t := Mutate(op, s).value;
    match op
    case Connect(pid) => SameGame(op, s, t);
    case Start =>
      if |s.connected| >= 2 { TwoMeansBoth(s); }
      SameGame(op, s, t);
    case Submit(pid, a) => SameGame(op, s, t);
    case Resolve(p1, p2) => ResolveOk(s, p1, p2);
    case Disconnect(pid) =>
      WithoutOk(s.connected, pid);
      SameGame(op, s, t);
    case Abandon => AbandonOk(s);
  }

  lemma ResolveOk(s: Session, p1: Action, p2: Action)
    requires SessionOk(s) && Mutate(Resolve(p1, p2), s).Ok?
    ensures CommitOk(Resolve(p1, p2), s, Mutate(Resolve(p1, p2), s).value)
  {
    hide Valid, TotalTurns, SubmitTurn, Distinct;
    ResolveAdvances(s.game, p1, p2);
  }

  lemma AbandonOk(s: Session)
    requires SessionOk(s)
    ensures CommitOk(Abandon, s, Mutate(Abandon, s).value)
  {
    hide Distinct;
    ForfeitKeepsValid(s.game, P1);
  }

  /** Connecting makes a player present, disconnecting makes them absent, and neither
      touches anybody else. */
  lemma Presence(s: Session, pid: Player, q: Player)
    requires SessionOk(s)
    ensures IsPlayer(s, pid) ==> (q in Mutate(Connect(pid), s).value.connected <==> q in s.connected || q == pid)
    ensures q in Mutate(Disconnect(pid), s).value.connected <==> q in s.connected && q != pid
  {
    WithoutOk(s.connected, pid);
  }

  // ----- sessions in the store -----

  /** An operation as the store runs it. */
  function MutatorOf(op: Op): Mutator<Session> {
    s => Mutate(op, s)
  }

  ghost predicate SessionMutator(m: Mutator<Session>) {
    exists op :: m == MutatorOf(op)
  }

  /** Workers only save fresh sessions and only update through the six mutators. They
      may interleave at will, retry, crash, and delete the session. */
  ghost predicate SessionEvent(e: Event<Session>) {
    match e
    case Save(s) => exists p1, p2 :: s == NewSession(p1, p2)
    case Begin(m, _, _) => SessionMutator(m)
    case _ => true
  }

  ghost predicate SessionEvents(events: seq<Event<Session>>) {
    forall i :: 0 <= i < |events| ==> SessionEvent(events[i])
  }

  ghost predicate SessionWrite(w: Write<Session>) {
    match w
    case Put(s) => exists p1, p2 :: s == NewSession(p1, p2)
    case Remove => true
    case Apply(_, m) => SessionMutator(m)
  }

  ghost predicate OnlySessionWrites(st: System<Session>) {
    && (forall i :: 0 <= i < |st.log| ==> SessionWrite(st.log[i]))
    && forall id :: 0 <= id < |st.calls| ==> SessionMutator(st.calls[id].mutator)
  }

  lemma EventWritesSessions(st: System<Session>, e: Event<Session>)
    requires OnlySessionWrites(st) && SessionEvent(e)
    ensures OnlySessionWrites(Next(st, e))
  {
    hide SessionMutator;
  }

  lemma {:induction false} RunsWriteSessions(events: seq<Event<Session>>)
    requires SessionEvents(events)
    ensures OnlySessionWrites(Run(events))
  {
    hide OnlySessionWrites, SessionEvent, Next;
    if events == [] {
      NoWritesYet();
    } else {
      var before, e := events[..|events| - 1], events[|events| - 1];
      RunsWriteSessions(before);
      EventWritesSessions(Run(before), e);
    }
  }

  lemma NoWritesYet()
    ensures OnlySessionWrites(Init<Session>())
  {}

  lemma {:induction false} FoldOk(log: seq<Write<Session>>)
    requires forall i :: 0 <= i < |log| ==> SessionWrite(log[i])
    ensures Fold(log).Some? ==> SessionOk(Fold(log).value)
  {
    if log != [] {
      FoldOk(log[..|log| - 1]);
      FoldStep(log);
    }
  }

  /** The last write of a log, seen as a commit to the session before it. */
  lemma FoldStep(log: seq<Write<Session>>)
    requires log != [] && SessionWrite(log[|log| - 1])
    requires var before := Fold(log[..|log| - 1]); before.Some? ==> SessionOk(before.value)
    ensures Fold(log).Some? ==> SessionOk(Fold(log).value)
    ensures var before, w := Fold(log[..|log| - 1]), log[|log| - 1];
      w.Apply? && Fold(log).Some? ==>
        (before.Some? && Later(before.value, Fold(log).value)
         && (!before.value.started && Fold(log).value.started ==> BothConnected(Fold(log).value)))
  {
    var before, w := Fold(log[..|log| - 1]), log[|log| - 1];
    match w
    case Put(s) => assert NewRound([]).history == [];
    case Remove =>
    case Apply(_, m) =>
      if Fold(log).Some? {
        var op :| m == MutatorOf(op);
        CommitKeeps(op, before.value);
      }
  }

  /** At every moment of every run of the store, whatever the interleaving, the stored
      session is well formed: never two pending actions, connected players without
      duplicates and among the two, and a valid match. */
  lemma EveryStoredSession(events: seq<Event<Session>>, i: nat)
    requires SessionEvents(events) && i <= |Run(events).log|
    ensures Fold(Run(events).log[..i]).Some? ==> SessionOk(Fold(Run(events).log[..i]).value)
    ensures Run(events).value.Some? ==> SessionOk(Run(events).value.value)
  {
    Store.EveryRun(events);
    RunsWriteSessions(events);
    FoldOk(Run(events).log[..i]);
    FoldOk(Run(events).log);
  }

  /** A forfeit, which does not look at the status it overwrites. */
  ghost predicate IsForfeit(w: Write<Session>) {
    w.Apply? && w.mutator == MutatorOf(Abandon)
  }

  lemma FinishedStep(log: seq<Write<Session>>)
    requires log != [] && log[|log| - 1].Apply? && SessionWrite(log[|log| - 1]) && Fold(log).Some?
    requires var before := Fold(log[..|log| - 1]);
      before.Some? ==> SessionOk(before.value) && before.value.game.status != InProgress
    ensures Fold(log[..|log| - 1]).Some?
    ensures Fold(log).value.game.status
         == if IsForfeit(log[|log| - 1]) then Abandoned else Fold(log[..|log| - 1]).value.game.status
  {
    hide Mutate, SessionOk;
    var before, m := Fold(log[..|log| - 1]), log[|log| - 1].mutator;
    var op :| m == MutatorOf(op);
    CommitKeeps(op, before.value);
    if IsForfeit(log[|log| - 1]) {
      CommitKeeps(Abandon, before.value);
      assert m(before.value) == MutatorOf(Abandon)(before.value);
    } else {
      assert op != Abandon;
    }
  }

  lemma {:induction false} FinishedInLog(log: seq<Write<Session>>, i: nat, j: nat)
    requires forall k :: 0 <= k < |log| ==> SessionWrite(log[k])
    requires i <= j <= |log| && OnlyUpdates(log, i, j) && Fold(log[..j]).Some? && Fold(log[..i]).Some?
    requires Fold(log[..i]).value.game.status != InProgress
    ensures Fold(log[..j]).value.game.status
         == if exists k :: i <= k < j && IsForfeit(log[k]) then Abandoned else Fold(log[..i]).value.game.status
  {
    hide Fold, SessionOk, SessionWrite, IsForfeit;
    if i < j {
      var now := log[..j];
      assert now[..|now| - 1] == log[..j - 1];
      LogMovesForward(log, i, j);
      LogMovesForward(log, j - 1, j);
      FinishedInLog(log, i, j - 1);
      FoldOk(log[..j - 1]);
      FinishedStep(now);
    } else {
      assert log[..i] == log[..j];
    }
  }

  /** What becomes of a finished match on any run: at a later moment it has its status
      still, a completed match its Completed, exactly if no forfeit was committed in
      between. The forfeit timer looks at the status before its write and not in it, so
      a forfeit can overwrite a completed match. */
  lemma FinishedExactlyWhen(events: seq<Event<Session>>, i: nat, j: nat)
    requires SessionEvents(events) && i <= j <= |Run(events).log| && OnlyUpdates(Run(events).log, i, j)
    requires Fold(Run(events).log[..i]).Some? && Fold(Run(events).log[..j]).Some?
    requires Fold(Run(events).log[..i]).value.game.status == Completed
    ensures var log := Run(events).log;
      && (Fold(log[..j]).value.game.status == Completed <==> !exists k :: i <= k < j && IsForfeit(log[k]))
      && (Fold(log[..j]).value.game.status == Abandoned <==> exists k :: i <= k < j && IsForfeit(log[k]))
  {
    hide Fold, IsForfeit, Next;
    RunsWriteSessions(events);
    FinishedInLog(Run(events).log, i, j);
  }

  /** And it can: any run that leaves a completed match stored goes on to one that leaves it
      abandoned. */
  lemma FinishedCanBeAbandoned(events: seq<Event<Session>>, v: Session) returns (longer: seq<Event<Session>>)
    requires SessionEvents(events) && Run(events).value == Some(v) && v.game.status == Completed
    ensures events <= longer && SessionEvents(longer)
    ensures Run(longer).value.Some? && Run(longer).value.value.game == v.game.(status := Abandoned)
  {
    hide Run, ReadsOf, Inv, CallOk;
    var id;
    longer, id := Called(events, MutatorOf(Abandon), Reloads, 5);
    longer := Alone(longer, id, v, v.(game := v.game.(status := Abandoned)));
    assert SessionMutator(MutatorOf(Abandon));
  }

  /** No save and no deletion in between. */
  ghost predicate OnlyUpdates(log: seq<Write<Session>>, i: nat, j: nat)
    requires i <= j <= |log|
  {
    forall k :: i <= k < j ==> log[k].Apply?
  }

  /** Commit k sets started, with both players connected. */
  ghost predicate StartsAt(log: seq<Write<Session>>, k: nat) {
    && 0 < k <= |log| && Fold(log[..k - 1]).Some? && Fold(log[..k]).Some?
    && !Fold(log[..k - 1]).value.started && Fold(log[..k]).value.started && BothConnected(Fold(log[..k]).value)
  }

  lemma LaterItself(s: Session)
    ensures Later(s, s)
  {}

  lemma LaterTransitive(s: Session, t: Session, u: Session)
    requires Later(s, t) && Later(t, u)
    ensures Later(s, u)
  {}

  lemma {:induction false} LogMovesForward(log: seq<Write<Session>>, i: nat, j: nat)
    requires forall k :: 0 <= k < |log| ==> SessionWrite(log[k])
    requires i <= j <= |log| && OnlyUpdates(log, i, j) && Fold(log[..j]).Some?
    ensures Fold(log[..i]).Some? && Later(Fold(log[..i]).value, Fold(log[..j]).value)
    ensures !Fold(log[..i]).value.started && Fold(log[..j]).value.started ==>
      exists k :: i < k <= j && StartsAt(log, k)
  {
    hide Fold, SessionOk, Later, BothConnected, SessionWrite;
    if i < j {
      var now := log[..j];
      assert now[..|now| - 1] == log[..j - 1];
      FoldOk(log[..j - 1]);
      FoldStep(now);
      LogMovesForward(log, i, j - 1);
      if !Fold(log[..j - 1]).value.started && Fold(log[..j]).value.started {
        assert StartsAt(log, j);
      }
      LaterTransitive(Fold(log[..i]).value, Fold(log[..j - 1]).value, Fold(log[..j]).value);
    } else {
      assert log[..i] == log[..j];
      LaterItself(Fold(log[..i]).value);
    }
  }

  /** Between any two moments of any run between which the session is only updated, it
      moves forward: started stays started and becomes so only with both players
      connected, a finished match never returns to play, booked rounds stay, and
      (completed rounds, turn) never goes back. */
  lemma StoredMovesForward(events: seq<Event<Session>>, i: nat, j: nat)
    requires SessionEvents(events) && i <= j <= |Run(events).log| && OnlyUpdates(Run(events).log, i, j)
    requires Fold(Run(events).log[..j]).Some?
    ensures var log := Run(events).log;
      && Fold(log[..i]).Some? && Later(Fold(log[..i]).value, Fold(log[..j]).value)
      && (!Fold(log[..i]).value.started && Fold(log[..j]).value.started ==>
          exists k :: i < k <= j && StartsAt(log, k))
  {
    RunsWriteSessions(events);
    LogMovesForward(Run(events).log, i, j);
  }

  lemma StartsOnceInLog(log: seq<Write<Session>>, i: nat, j: nat)
    requires forall k :: 0 <= k < |log| ==> SessionWrite(log[k])
    requires 0 < i < j <= |log| && OnlyUpdates(log, i - 1, j) && StartsAt(log, i)
    ensures !StartsAt(log, j)
  {
    hide Fold, SessionOk, BothConnected, SessionWrite;
    if StartsAt(log, j) {
      LogMovesForward(log, i, j - 1);
    }
  }

  /** Although several calls may report the start, at most one commit makes it. */
  lemma StartedOnce(events: seq<Event<Session>>, i: nat, j: nat)
    requires SessionEvents(events)
    requires var log := Run(events).log;
      && 0 < i <= j <= |log| && OnlyUpdates(log, i - 1, j) && StartsAt(log, i) && StartsAt(log, j)
    ensures i == j
  {
    hide Fold, StartsAt, Next;
    RunsWriteSessions(events);
    if i < j {
      StartsOnceInLog(Run(events).log, i, j);
    }
  }
}
