/** The variables that a call's mutator assigns for its caller. They outlive an attempt
    whose write was lost, and the next attempt does not reset them. */
module SessionCaptures {
  import opened Wrappers
  import opened GameRules
  import opened MatchEngine
  import opened EngineInvariants
  import opened Store
  import opened SessionProtocol

  // ----- submissions -----

  datatype Captured = Captured(rejected: bool, pair: Option<(Action, Action)>)

  function Assign(c: Captured, r: Submitted): Captured {
    match r
    case Stored(_) => c
    case PairTaken(_, p1, p2) => c.(pair := Some((p1, p2)))
    case _ => c.(rejected := true)
  }

  /** After attempts with these reports, the last of which was committed. */
  function CapturedAfter(reports: seq<Submitted>): Captured {
    if reports == [] then Captured(false, None)
    else Assign(CapturedAfter(reports[..|reports| - 1]), reports[|reports| - 1])
  }

  /** The pair the worker goes on to resolve. */
  function Resolves(reports: seq<Submitted>): Option<(Action, Action)> {
    var c := CapturedAfter(reports);
    if c.rejected then None else c.pair
  }

  /** The pair the committed attempt took. */
  function TakenBy(r: Submitted): Option<(Action, Action)> {
    if r.PairTaken? then Some((r.p1, r.p2)) else None
  }

  predicate Rejection(r: Submitted) {
    !r.Stored? && !r.PairTaken?
  }

  lemma {:induction false} CapturedFlags(reports: seq<Submitted>)
    ensures CapturedAfter(reports).rejected <==> exists i :: 0 <= i < |reports| && Rejection(reports[i])
    ensures CapturedAfter(reports).pair.Some? <==> exists i :: 0 <= i < |reports| && reports[i].PairTaken?
  {
    if reports != [] {
      CapturedFlags(reports[..|reports| - 1]);
      assert forall i :: 0 <= i < |reports| - 1 ==> reports[..|reports| - 1][i] == reports[i];
    }
  }

  /** The worker resolves exactly the pair its commit took if and only if: when the
      commit took one, no attempt was rejected; when it took none, no lost attempt had
      seen one, or some attempt was rejected. In particular always at the first attempt. */
  lemma ResolvesWhatItTook(reports: seq<Submitted>)
    requires reports != []
    ensures var last := reports[|reports| - 1];
      Resolves(reports) == TakenBy(last) <==>
        (if last.PairTaken? then forall i :: 0 <= i < |reports| ==> !Rejection(reports[i])
         else (exists i :: 0 <= i < |reports| && Rejection(reports[i]))
              || forall i :: 0 <= i < |reports| ==> !reports[i].PairTaken?)
    ensures |reports| == 1 ==> Resolves(reports) == TakenBy(reports[0])
  {
    CapturedFlags(reports);
  }

  /** What a submission reported at each session its mutator was run on. */
  function ReportsOf(read: seq<Session>, pid: Player, a: Action): (r: seq<Submitted>)
    ensures |r| == |read|
  {
    seq(|read|, i requires 0 <= i < |read| => Received(read[i], pid, a))
  }

  /** On every run of the store the last report of a committed submission is about the
      very session it committed to. */
  lemma LastReportCommitted(events: seq<Event<Session>>, id: nat, pid: Player, a: Action)
    requires id < |Run(events).calls|
    requires CommitOf(Run(events).calls[id]).Some?
    ensures var reports, log, k := ReportsOf(ReadsOf(events, id), pid, a), Run(events).log,
      CommitOf(Run(events).calls[id]).value;
      && reports != [] && k < |log| && Fold(log[..k]).Some?
      && reports[|reports| - 1] == Received(Fold(log[..k]).value, pid, a)
  {
    hide Inv, Run, ReadsOf, CommitOf;
    Store.EveryRun(events);
    CommitInLog(Run(events), id);
    LastReadCommitted(events, id);
  }

  /** A call for this operation has read nothing yet and has attempts to spare. */
  ghost predicate AboutTo(events: seq<Event<Session>>, k: nat, op: Op, spare: nat) {
    && Poised(Run(events), k, spare) && Run(events).calls[k].mutator == MutatorOf(op)
    && ReadsOf(events, k) == []
  }

  /** And now its commit is in the log. */
  ghost predicate HasCommitted(events: seq<Event<Session>>, k: nat, op: Op) {
    && k < |Run(events).calls| && Run(events).calls[k].mutator == MutatorOf(op)
    && CommitOf(Run(events).calls[k]).Some?
  }

  /** Wherever two calls submit for the same player while the other player's action is
      pending, there is a way to go on in which both workers resolve a pair although
      only one commit took one: the first call's lost attempt had seen it. */
  lemma StaleCapture(events: seq<Event<Session>>, i: nat, j: nat, pid: Player, a: Action, b: Action, v: Session)
    returns (longer: seq<Event<Session>>)
    requires i != j && Run(events).value == Some(v)
    requires AboutTo(events, i, Submit(pid, a), 1) && AboutTo(events, j, Submit(pid, b), 0)
    requires Received(v, pid, a).PairTaken? && Received(v, pid, b).PairTaken?
    ensures events <= longer && HasCommitted(longer, i, Submit(pid, a)) && HasCommitted(longer, j, Submit(pid, b))
    ensures var mine, theirs := ReportsOf(ReadsOf(longer, i), pid, a), ReportsOf(ReadsOf(longer, j), pid, b);
      && |mine| == 2 && TakenBy(mine[1]) == None && Resolves(mine) == TakenBy(Received(v, pid, a))
      && |theirs| == 1 && Resolves(theirs) == TakenBy(theirs[0]) == TakenBy(Received(v, pid, b))
  {
    hide Run, ReadsOf, Inv, CallOk, Mutate, Received;
    var w := v.(p1Action := None, p2Action := None);
    AfterTaking(v, pid, b);
    SecondAttempt(v, pid, a);
    var u := Mutate(Submit(pid, a), w).value;
    longer := Overtaken(events, i, j, v, w, u);
    var mine, theirs := ReportsOf(ReadsOf(longer, i), pid, a), ReportsOf(ReadsOf(longer, j), pid, b);
    assert [] + [v, w] == [v, w] && [] + [v] == [v];
    assert mine[0] == Received(v, pid, a) && mine[1] == Received(w, pid, a) && mine[1].Stored?;
    TwoReports(mine);
    OneReport(theirs);
  }

  lemma AfterTaking(v: Session, pid: Player, b: Action)
    requires Received(v, pid, b).PairTaken?
    ensures Mutate(Submit(pid, b), v) == Ok(v.(p1Action := None, p2Action := None))
  {}

  lemma SecondAttempt(v: Session, pid: Player, a: Action)
    requires Received(v, pid, a).PairTaken?
    ensures Mutate(Submit(pid, a), v).Ok?
    ensures var w := v.(p1Action := None, p2Action := None);
      Mutate(Submit(pid, a), w).Ok? && Received(w, pid, a).Stored?
  {}

  lemma TwoReports(r: seq<Submitted>)
    requires |r| == 2
    ensures CapturedAfter(r) == Assign(Assign(Captured(false, None), r[0]), r[1])
  {
    assert r[..1] == [r[0]] && [r[0]][..0] == [];
    assert CapturedAfter([r[0]]) == Assign(Captured(false, None), r[0]);
  }

  lemma OneReport(r: seq<Submitted>)
    requires |r| == 1
    ensures CapturedAfter(r) == Assign(Captured(false, None), r[0])
  {
    assert r == [r[0]] && r[..0] == [];
  }

  // ----- the start -----

  /** An attempt that finds the match ready sets the variable by which the caller knows
      that it is the one to prompt the first turn. */
  predicate StartReady(s: Session) {
    !s.started && |s.connected| >= 2
  }

  function ReportsStart(read: seq<Session>): bool {
    if read == [] then false
    else ReportsStart(read[..|read| - 1]) || StartReady(read[|read| - 1])
  }

  lemma {:induction false} ReportsStartIf(read: seq<Session>)
    ensures ReportsStart(read) <==> exists i :: 0 <= i < |read| && StartReady(read[i])
  {
    if read != [] {
      ReportsStartIf(read[..|read| - 1]);
      assert forall i :: 0 <= i < |read| - 1 ==> read[..|read| - 1][i] == read[i];
    }
  }

  /** A caller reports the start truthfully if and only if its commit set it or none of
      its lost attempts had found the match ready; always at the first attempt. */
  lemma StartsWhatItSet(read: seq<Session>)
    requires read != []
    ensures var last := read[|read| - 1];
      (ReportsStart(read) <==> StartReady(last)) <==>
        (StartReady(last) || forall i :: 0 <= i < |read| ==> !StartReady(read[i]))
    ensures |read| == 1 ==> (ReportsStart(read) <==> StartReady(read[0]))
  {
    ReportsStartIf(read);
  }

  /** Wherever two calls are about to start a match that is ready, there is a way to go
      on in which both report that they started it. */
  lemma StartReportedTwice(events: seq<Event<Session>>, i: nat, j: nat, v: Session)
    returns (longer: seq<Event<Session>>)
    requires i != j && Run(events).value == Some(v) && StartReady(v)
    requires AboutTo(events, i, Start, 1) && AboutTo(events, j, Start, 0)
    ensures events <= longer && HasCommitted(longer, i, Start) && HasCommitted(longer, j, Start)
    ensures ReportsStart(ReadsOf(longer, i)) && ReportsStart(ReadsOf(longer, j))
    ensures |ReadsOf(longer, i)| == 2 && !StartReady(ReadsOf(longer, i)[1])
  {
    hide Run, ReadsOf, Inv, CallOk, ReportsStart;
    var w := v.(started := true);
    longer := Overtaken(events, i, j, v, w, w);
    assert [] + [v, w] == [v, w] && [] + [v] == [v];
    ReportsStartIf(ReadsOf(longer, i));
    ReportsStartIf(ReadsOf(longer, j));
    assert StartReady(ReadsOf(longer, i)[0]) && StartReady(ReadsOf(longer, j)[0]);
  }

  // ----- such runs exist -----

  lemma Opening()
    ensures Run<Session>([]) == Init() && forall k: nat :: ReadsOf<Session>([], k) == []
  {}

  /** Two servers submit for player 1, say the player's own choice and the turn timer's,
      while player 2's action is pending. */
  lemma StaleCaptureHappens(player1: Player, player2: Player) returns (events: seq<Event<Session>>, i: nat, j: nat)
    requires player1 != player2
    ensures i != j
    ensures HasCommitted(events, i, Submit(player1, Charge)) && HasCommitted(events, j, Submit(player1, Block))
    ensures var mine, theirs := ReportsOf(ReadsOf(events, i), player1, Charge),
      ReportsOf(ReadsOf(events, j), player1, Block);
      && |mine| == 2 && TakenBy(mine[1]) == None && Resolves(mine) == Some((Charge, Block))
      && |theirs| == 1 && Resolves(theirs) == TakenBy(theirs[0]) == Some((Block, Block))
  {
    hide Run, ReadsOf, Inv, CallOk, Resolves, TakenBy;
    var s0 := NewSession(player1, player2);
    var s1 := Mutate(Submit(player2, Block), s0).value;
    assert s1 == s0.(p2Action := Some(Block));
    Opening();
    events := Then([], Save(s0));
    var first;
    events, first := Called(events, MutatorOf(Submit(player2, Block)), Reloads, 5);
    events := Alone(events, first, s0, s1);
    events, i := Called(events, MutatorOf(Submit(player1, Charge)), Reloads, 5);
    events, j := Called(events, MutatorOf(Submit(player1, Block)), Reloads, 5);
    events := StaleCapture(events, i, j, player1, Charge, Block, s1);
    PairOf(s1, player1);
  }

  lemma PairOf(s: Session, pid: Player)
    requires s == NewSession(s.player1, s.player2).(p2Action := Some(Block)) && pid == s.player1 != s.player2
    ensures TakenBy(Received(s, pid, Charge)) == Some((Charge, Block))
    ensures TakenBy(Received(s, pid, Block)) == Some((Block, Block))
  {}

  /** Two players connect through two servers, and each server then starts the match. */
  lemma StartReportedTwiceHappens(player1: Player, player2: Player)
    returns (events: seq<Event<Session>>, i: nat, j: nat)
    requires player1 != player2
    ensures i != j && HasCommitted(events, i, Start) && HasCommitted(events, j, Start)
    ensures ReportsStart(ReadsOf(events, i)) && ReportsStart(ReadsOf(events, j))
  {
    hide Run, ReadsOf, Inv, CallOk, ReportsStart;
    var s0 := NewSession(player1, player2);
    var s1 := Mutate(Connect(player1), s0).value;
    var s2 := Mutate(Connect(player2), s1).value;
    assert s2 == s0.(connected := [player1, player2]);
    Opening();
    events := Then([], Save(s0));
    var first, second;
    events, first := Called(events, MutatorOf(Connect(player1)), Reloads, 5);
    events := Alone(events, first, s0, s1);
    events, second := Called(events, MutatorOf(Connect(player2)), Reloads, 5);
    events := Alone(events, second, s1, s2);
    events, i := Called(events, MutatorOf(Start), Reloads, 5);
    events, j := Called(events, MutatorOf(Start), Reloads, 5);
    events := StartReportedTwice(events, i, j, s2);
  }
}
