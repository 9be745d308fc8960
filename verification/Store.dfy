/** The session store: load, mutate and save under optimistic concurrency. Any number
    of calls run interleaved, each attempt a watch, a read and a conditional write. */
module Store {
  import opened Wrappers

  /** What a mutator may refuse with; the text is of no concern here. */
  datatype Refusal = Refusal

  type Mutator<!S> = S -> Result<S, Refusal>

  /** The two implementations differ in what a successful call returns: the state it
      committed, or whatever a fresh load finds. */
  datatype Runtime = ReturnsCommitted | Reloads

  // ----- the log of writes -----

  datatype Write<!S> = Put(session: S) | Remove | Apply(id: nat, mutator: Mutator<S>)

  /** Replaying one write. */
  function Replay<S>(value: Option<S>, w: Write<S>): Option<S> {
    match w
    case Put(s) => Some(s)
    case Remove => None
    case Apply(_, m) =>
      if value.Some? && m(value.value).Ok? then Some(m(value.value).value) else None
  }

  /** The session after a log of writes, in commit order. */
  function Fold<S>(log: seq<Write<S>>): Option<S> {
    if log == [] then None else Replay(Fold(log[..|log| - 1]), log[|log| - 1])
  }

  /** A mutator is only ever in the log where it found a session and accepted it. */
  ghost predicate Accepted<S(!new)>(log: seq<Write<S>>) {
    forall i :: 0 <= i < |log| && log[i].Apply? ==> Fold(log[..i]).Some? && log[i].mutator(Fold(log[..i]).value).Ok?
  }

  // ----- calls in flight -----

  datatype Outcome<S> = Updated(session: S) | NotFound | Refused | TooManyConflicts

  datatype Phase<S> =
    | Ready
    | Watching(seen: nat)
    | Prepared(seen: nat, read: S, out: S)
    | Committed(at: nat)
    | Finished(outcome: Outcome<S>, commit: Option<nat>, ended: nat)

  /** One call of watch-and-update. The lengths of the log when the call began and when
      it ended are kept only to state what happened while it ran. */
  datatype Call<!S> = Call(mutator: Mutator<S>, runtime: Runtime, maxRetries: nat, begun: nat, attempt: nat,
                           phase: Phase<S>)

  /** The stored value with its modification count, the calls, and the log. */
  datatype System<!S> = System(value: Option<S>, version: nat, log: seq<Write<S>>, calls: seq<Call<S>>)

  datatype Event<!S> =
    | Save(session: S)
    | Delete
    | Begin(mutator: Mutator<S>, runtime: Runtime, maxRetries: nat)
    | Watch(id: nat)
    | Read(id: nat)
    | Exec(id: nat)
    | Reload(id: nat)

  function Init<S>(): System<S> {
    System(None, 0, [], [])
  }

  function Written<S>(st: System<S>, value: Option<S>, w: Write<S>): System<S> {
    st.(value := value, version := st.version + 1, log := st.log + [w])
  }

  function WithPhase<S>(st: System<S>, id: nat, p: Phase<S>): System<S>
    requires id < |st.calls|
  {
    st.(calls := st.calls[id := st.calls[id].(phase := p)])
  }

  /** A fresh attempt, or giving up when they are used up. */
  function DoWatch<S>(st: System<S>, id: nat): System<S>
    requires id < |st.calls|
  {
    var c := st.calls[id];
    if c.phase != Ready then st
    else if c.attempt < c.maxRetries then WithPhase(st, id, Watching(st.version))
    else WithPhase(st, id, Finished(TooManyConflicts, None, st.version))
  }

  /** Reads the current value and runs the mutator on the copy. */
  function DoRead<S>(st: System<S>, id: nat): System<S>
    requires id < |st.calls|
  {
    var c := st.calls[id];
    if !c.phase.Watching? then st
    else
      match st.value
      case None => WithPhase(st, id, Finished(NotFound, None, st.version))
      case Some(s) =>
        match c.mutator(s)
        case Err(_) => WithPhase(st, id, Finished(Refused, None, st.version))
        case Ok(out) => WithPhase(st, id, Prepared(c.phase.seen, s, out))
  }

  /** Commits if nothing was written since the watch; otherwise the attempt is lost. */
  function DoExec<S>(st: System<S>, id: nat): System<S>
    requires id < |st.calls|
  {
    var c := st.calls[id];
    if !c.phase.Prepared? then st
    else if c.phase.seen != st.version then
      st.(calls := st.calls[id := c.(phase := Ready, attempt := c.attempt + 1)])
    else
      var p := if c.runtime == ReturnsCommitted
               then Finished(Updated(c.phase.out), Some(st.version), st.version + 1)
               else Committed(st.version);
      Written(WithPhase(st, id, p), Some(c.phase.out), Apply(id, c.mutator))
  }

  function DoReload<S>(st: System<S>, id: nat): System<S>
    requires id < |st.calls|
  {
    var c := st.calls[id];
    if !c.phase.Committed? then st
    else
      var outcome := if st.value.Some? then Updated(st.value.value) else NotFound;
      WithPhase(st, id, Finished(outcome, Some(c.phase.at), st.version))
  }

  function Next<S>(st: System<S>, e: Event<S>): System<S> {
    match e
    case Save(s) => Written(st, Some(s), Put(s))
    case Delete => Written(st, None, Remove)
    case Begin(m, runtime, max) => st.(calls := st.calls + [Call(m, runtime, max, |st.log|, 0, Ready)])
    case Watch(id) => if id < |st.calls| then DoWatch(st, id) else st
    case Read(id) => if id < |st.calls| then DoRead(st, id) else st
    case Exec(id) => if id < |st.calls| then DoExec(st, id) else st
    case Reload(id) => if id < |st.calls| then DoReload(st, id) else st
  }

  function Run<S>(events: seq<Event<S>>): System<S> {
    if events == [] then Init() else Next(Run(events[..|events| - 1]), events[|events| - 1])
  }

  // ----- what every interleaving keeps -----

  /** Where in the log the call has committed, if it has. */
  function CommitOf<S>(c: Call<S>): Option<nat> {
    match c.phase
    case Committed(at) => Some(at)
    case Finished(_, commit, _) => commit
    case _ => None
  }

  /** Entry k is the only one this call has in the log; none if it has not committed. */
  ghost predicate OwnsOnly<S(!new)>(log: seq<Write<S>>, id: nat, m: Mutator<S>, k: Option<nat>) {
    && (k.Some? ==> k.value < |log| && log[k.value] == Apply(id, m))
    && forall i :: 0 <= i < |log| && log[i].Apply? && log[i].id == id ==> k == Some(i)
  }

  /** What is known of one call: its lost attempts are paid for by writes of others
      since it began, a value it prepared is current as long as its watch holds, and
      what it reported is what the log says. */
  ghost predicate CallOk<S(!new)>(st: System<S>, id: nat, c: Call<S>) {
    && OwnsOnly(st.log, id, c.mutator, CommitOf(c))
    && (CommitOf(c).Some? ==> c.begun <= CommitOf(c).value)
    && match c.phase
       case Ready => c.begun + c.attempt <= st.version
       case Watching(seen) => c.begun + c.attempt <= seen <= st.version
       case Prepared(seen, read, out) =>
         && c.begun + c.attempt <= seen <= st.version && c.mutator(read) == Ok(out)
         && (seen == st.version ==> st.value == Some(read))
       case Committed(at) => c.runtime == Reloads
       case Finished(outcome, commit, ended) => ended <= |st.log| && ReportOk(st.log[..ended], c, outcome, commit)
  }

  ghost predicate ReportOk<S(!new)>(log: seq<Write<S>>, c: Call<S>, outcome: Outcome<S>, commit: Option<nat>) {
    match outcome
    case Updated(s) =>
      && commit.Some? && commit.value < |log|
      && (c.runtime == ReturnsCommitted ==> Fold(log[..commit.value + 1]) == Some(s))
      && (c.runtime == Reloads ==> Fold(log) == Some(s))
    case NotFound => Fold(log) == None && (commit.Some? ==> c.runtime == Reloads && commit.value < |log|)
    case Refused => commit == None && Fold(log).Some? && c.mutator(Fold(log).value).Err?
    case TooManyConflicts => commit == None && c.begun + c.maxRetries <= |log|
  }

  ghost predicate Inv<S(!new)>(st: System<S>) {
    && st.version == |st.log|
    && st.value == Fold(st.log)
    && Accepted(st.log)
    && (forall i :: 0 <= i < |st.log| && st.log[i].Apply? ==> st.log[i].id < |st.calls|)
    && forall id :: 0 <= id < |st.calls| ==> CallOk(st, id, st.calls[id])
  }

  lemma FoldSnoc<S>(log: seq<Write<S>>, w: Write<S>)
    ensures Fold(log + [w]) == Replay(Fold(log), w)
  {
    assert (log + [w])[..|log|] == log;
  }

  /** A write by somebody else keeps what is known of a call. */
  lemma OthersWrite<S(!new)>(st: System<S>, id: nat, c: Call<S>, value: Option<S>, w: Write<S>)
    requires st.version == |st.log| && CallOk(st, id, c) && (w.Apply? ==> w.id != id)
    ensures CallOk(Written(st, value, w), id, c)
  {
    var log' := st.log + [w];
    if c.phase.Finished? {
      assert log'[..c.phase.ended] == st.log[..c.phase.ended];
    }
  }

  lemma AcceptedSnoc<S(!new)>(log: seq<Write<S>>, w: Write<S>)
    requires Accepted(log) && (w.Apply? ==> Fold(log).Some? && w.mutator(Fold(log).value).Ok?)
    ensures Accepted(log + [w])
  {
    var log' := log + [w];
    forall i | 0 <= i < |log'| && log'[i].Apply?
      ensures Fold(log'[..i]).Some? && log'[i].mutator(Fold(log'[..i]).value).Ok?
    {
      assert log'[..i] == log[..i];
      if i == |log| { assert log[..i] == log; }
    }
  }

  lemma Frame<S(!new)>(st: System<S>, st': System<S>, id: nat, c: Call<S>)
    requires CallOk(st, id, c) && st'.value == st.value && st'.version == st.version && st'.log == st.log
    ensures CallOk(st', id, c)
  {}

  lemma ExternalWriteKeeps<S(!new)>(st: System<S>, value: Option<S>, w: Write<S>)
    requires Inv(st) && !w.Apply? && value == Replay(st.value, w)
    ensures Inv(Written(st, value, w))
  {
    hide CallOk, Accepted, Fold;
    FoldSnoc(st.log, w);
    AcceptedSnoc(st.log, w);
    forall id | 0 <= id < |st.calls| ensures CallOk(Written(st, value, w), id, st.calls[id]) {
      OthersWrite(st, id, st.calls[id], value, w);
    }
  }

  lemma LostAttemptKeeps<S(!new)>(st: System<S>, id: nat)
    requires Inv(st) && id < |st.calls| && !(st.calls[id].phase.Prepared? && st.calls[id].phase.seen == st.version)
    ensures Inv(DoExec(st, id))
  {
    hide Accepted, Fold, ReportOk;
    var st' := DoExec(st, id);
    forall k | 0 <= k < |st'.calls| ensures CallOk(st', k, st'.calls[k]) {
      assert CallOk(st, k, st.calls[k]);
    }
  }

  lemma ExecKeeps<S(!new)>(st: System<S>, id: nat)
    requires Inv(st) && id < |st.calls|
    ensures Inv(DoExec(st, id))
  {
    hide CallOk, Accepted, Fold;
    var c, st' := st.calls[id], DoExec(st, id);
    if c.phase.Prepared? && c.phase.seen == st.version {
      var w := Apply(id, c.mutator);
      OwnCommitKeeps(st, id);
      forall k | 0 <= k < |st'.calls| ensures CallOk(st', k, st'.calls[k]) {
        if k != id {
          OthersWrite(st, k, st.calls[k], Some(c.phase.out), w);
          Frame(Written(st, Some(c.phase.out), w), st', k, st.calls[k]);
        }
      }
    } else {
      LostAttemptKeeps(st, id);
    }
  }

  /** The committing call itself. */
  lemma OwnCommitKeeps<S(!new)>(st: System<S>, id: nat)
    requires Inv(st) && id < |st.calls| && st.calls[id].phase.Prepared? && st.calls[id].phase.seen == st.version
    ensures CallOk(DoExec(st, id), id, DoExec(st, id).calls[id])
    ensures Accepted(DoExec(st, id).log) && DoExec(st, id).value == Fold(DoExec(st, id).log)
  {
    var c, st' := st.calls[id], DoExec(st, id);
    assert CallOk(st, id, c);
    FoldSnoc(st.log, Apply(id, c.mutator));
    AcceptedSnoc(st.log, Apply(id, c.mutator));
    assert st'.log[..st.version + 1] == st'.log;
  }

  /** One step of any call, or a write from elsewhere, keeps the invariant. */
  lemma NextKeeps<S(!new)>(st: System<S>, e: Event<S>)
    requires Inv(st)
    ensures Inv(Next(st, e))
  {
    match e
    case Save(s) => ExternalWriteKeeps(st, Some(s), Put(s));
    case Delete => ExternalWriteKeeps(st, None, Remove);
    case Begin(m, runtime, max) =>
      var st' := Next(st, e);
      forall k | 0 <= k < |st'.calls| ensures CallOk(st', k, st'.calls[k]) {
        if k < |st.calls| { assert CallOk(st, k, st.calls[k]); }
      }
    case Watch(id) => if id < |st.calls| { WatchKeeps(st, id); }
    case Read(id) => if id < |st.calls| { ReadKeeps(st, id); }
    case Exec(id) => if id < |st.calls| { ExecKeeps(st, id); }
    case Reload(id) => if id < |st.calls| { ReloadKeeps(st, id); }
  }

  lemma WatchKeeps<S(!new)>(st: System<S>, id: nat)
    requires Inv(st) && id < |st.calls|
    ensures Inv(DoWatch(st, id))
  {
    hide Accepted, Fold, OwnsOnly;
    var st' := DoWatch(st, id);
    forall k | 0 <= k < |st'.calls| ensures CallOk(st', k, st'.calls[k]) {
      assert CallOk(st, k, st.calls[k]);
    }
  }

  lemma ReadKeeps<S(!new)>(st: System<S>, id: nat)
    requires Inv(st) && id < |st.calls|
    ensures Inv(DoRead(st, id))
  {
    hide Accepted, Fold, OwnsOnly;
    var st' := DoRead(st, id);
    assert st.log[..|st.log|] == st.log;
    forall k | 0 <= k < |st'.calls| ensures CallOk(st', k, st'.calls[k]) {
      assert CallOk(st, k, st.calls[k]);
    }
  }

  lemma ReloadKeeps<S(!new)>(st: System<S>, id: nat)
    requires Inv(st) && id < |st.calls|
    ensures Inv(DoReload(st, id))
  {
    var st' := DoReload(st, id);
    assert st.log[..|st.log|] == st.log;
    forall k | 0 <= k < |st'.calls| ensures CallOk(st', k, st'.calls[k]) {
      assert CallOk(st, k, st.calls[k]);
    }
  }

  lemma {:induction false} EveryRun<S(!new)>(events: seq<Event<S>>)
    ensures Inv(Run(events))
  {
    if events != [] {
      EveryRun(events[..|events| - 1]);
      NextKeeps(Run(events[..|events| - 1]), events[|events| - 1]);
    }
  }

  // ----- what this means for callers -----

  /** Write i, if it is a call's, applied the call's mutator to exactly the session its
      predecessors left, and stored the result. */
  ghost predicate AppliedInTurn<S(!new)>(log: seq<Write<S>>, i: nat)
    requires i < |log|
  {
    log[i].Apply? ==>
      && Fold(log[..i]).Some?
      && var r := log[i].mutator(Fold(log[..i]).value);
      r.Ok? && Fold(log[..i + 1]) == Some(r.value)
  }

  lemma AcceptedInTurn<S(!new)>(log: seq<Write<S>>, i: nat)
    requires Accepted(log) && i < |log|
    ensures AppliedInTurn(log, i)
  {
    assert log[..i + 1] == log[..i] + [log[i]];
    FoldSnoc(log[..i], log[i]);
  }

  /** Under every interleaving of any number of calls and outside writes, the stored
      session is the fold of the committed mutators in commit order, each applied to
      exactly the session its predecessors left. */
  lemma Serialisable<S(!new)>(events: seq<Event<S>>)
    ensures var st := Run(events);
      && st.value == Fold(st.log)
      && forall i :: 0 <= i < |st.log| ==> AppliedInTurn(st.log, i)
  {
    hide Accepted, Fold, CallOk, AppliedInTurn;
    EveryRun(events);
    var log := Run(events).log;
    forall i | 0 <= i < |log| ensures AppliedInTurn(log, i) {
      AcceptedInTurn(log, i);
    }
  }

  /** A call takes effect at most once, and exactly once if it reports an update. */
  lemma AtMostOnce<S(!new)>(events: seq<Event<S>>, i: nat, j: nat)
    requires i < |Run(events).log| && j < |Run(events).log|
    requires var log := Run(events).log; log[i].Apply? && log[j].Apply? && log[i].id == log[j].id
    ensures i == j
  {
    EveryRun(events);
    var st := Run(events);
    assert CallOk(st, st.log[i].id, st.calls[st.log[i].id]);
  }

  /** What a call that has ended may rely on. If it returned a session without
      reloading, it is the very state its own commit stored; with reloading, what the
      store held when it returned. If it found none, there was none when it returned,
      and only with reloading can it have committed before. If it was refused, its
      mutator refuses the session stored when it returned. If it was refused or ran out
      of attempts it left no trace, and in the latter case at least as many writes of
      others landed between its beginning and its end as it was allowed attempts. */
  ghost predicate Truthful<S(!new)>(log: seq<Write<S>>, id: nat, c: Call<S>)
    requires c.phase.Finished?
  {
    var ended := c.phase.ended;
    ended <= |log| &&
    match c.phase.outcome
    case Updated(s) =>
      exists k: nat :: c.begun <= k < ended && log[k] == Apply(id, c.mutator)
        && Fold(log[..k]).Some?
        && (c.runtime == ReturnsCommitted ==>
              c.mutator(Fold(log[..k]).value) == Ok(s) && Fold(log[..k + 1]) == Some(s))
        && (c.runtime == Reloads ==> Fold(log[..ended]) == Some(s))
    case NotFound => Fold(log[..ended]) == None && (c.runtime == ReturnsCommitted ==> Untouched(log, id))
    case Refused => Untouched(log, id) && Fold(log[..ended]).Some? && c.mutator(Fold(log[..ended]).value).Err?
    case TooManyConflicts => Untouched(log, id) && c.begun + c.maxRetries <= ended
  }

  lemma TruthfulAt<S(!new)>(st: System<S>, id: nat)
    requires Inv(st) && id < |st.calls| && st.calls[id].phase.Finished?
    ensures Truthful(st.log, id, st.calls[id])
  {
    var c := st.calls[id];
    assert CallOk(st, id, c);
    if c.phase.outcome.Updated? {
      var k := c.phase.commit.value;
      assert st.log[..c.phase.ended][..k + 1] == st.log[..k + 1];
      AcceptedInTurn(st.log, k);
      assert c.begun <= k < c.phase.ended && st.log[k] == Apply(id, c.mutator);
    }
  }

  /** Every report of every call on every run is truthful. */
  lemma ReportIsTrue<S(!new)>(events: seq<Event<S>>, id: nat)
    requires id < |Run(events).calls| && Run(events).calls[id].phase.Finished?
    ensures Truthful(Run(events).log, id, Run(events).calls[id])
  {
    hide Inv, Truthful, Next;
    EveryRun(events);
    TruthfulAt(Run(events), id);
  }

  /** A call that reloads reports a missing session after having committed if and only
      if there is none when it returns, because it was deleted in between. */
  lemma MissingExactlyWhen<S(!new)>(events: seq<Event<S>>, id: nat)
    requires id < |Run(events).calls| && Run(events).calls[id].phase.Finished?
    requires CommitOf(Run(events).calls[id]).Some? && Run(events).calls[id].runtime == Reloads
    ensures var c, log := Run(events).calls[id], Run(events).log;
      && CommitOf(c).value < c.phase.ended <= |log|
      && Fold(log[..CommitOf(c).value + 1]).Some?
      && (c.phase.outcome == NotFound <==> Fold(log[..c.phase.ended]) == None)
  {
    hide Inv, CallOk, Next;
    EveryRun(events);
    CommitStored(Run(events), id);
  }

  lemma CommitStored<S(!new)>(st: System<S>, id: nat)
    requires Inv(st) && id < |st.calls| && CommitOf(st.calls[id]).Some? && st.calls[id].phase.Finished?
    requires st.calls[id].runtime == Reloads
    ensures var c := st.calls[id];
      && CommitOf(c).value < c.phase.ended <= |st.log|
      && Fold(st.log[..CommitOf(c).value + 1]).Some?
      && (c.phase.outcome == NotFound <==> Fold(st.log[..c.phase.ended]) == None)
  {
    assert CallOk(st, id, st.calls[id]);
    AcceptedInTurn(st.log, CommitOf(st.calls[id]).value);
  }

  /** It does happen: the session is deleted after the commit and before the reload. */
  lemma CommittedYetMissing<S(!new)>(s: S, m: Mutator<S>) returns (events: seq<Event<S>>)
    requires m(s).Ok?
    ensures events == [Save(s), Begin(m, Reloads, 1), Watch(0), Read(0), Exec(0), Delete, Reload(0)]
    ensures |Run(events).calls| == 1 && Run(events).calls[0].phase == Finished(NotFound, Some(1), 3)
  {
    hide Run, ReadsOf;
    events := Then([], Save(s));
    NoEvents<S>();
    events := Then(events, Begin(m, Reloads, 1));
    events := Then(events, Watch(0));
    events := Then(events, Read(0));
    events := Then(events, Exec(0));
    events := Then(events, Delete);
    events := Then(events, Reload(0));
  }

  lemma NoEvents<S(!new)>()
    ensures Run<S>([]) == Init()
  {}

  ghost predicate Untouched<S(!new)>(log: seq<Write<S>>, id: nat) {
    forall i :: 0 <= i < |log| && log[i].Apply? ==> log[i].id != id
  }

  /** An attempt no write falls into does not fail for contention: it commits, or
      reports a missing session or a refusal. */
  lemma UndisturbedAttempt<S(!new)>(st: System<S>, id: nat)
    requires Inv(st) && id < |st.calls| && st.calls[id].phase == Ready && st.calls[id].attempt < st.calls[id].maxRetries
    ensures var st' := DoExec(DoRead(DoWatch(st, id), id), id);
      var p := st'.calls[id].phase;
      && !p.Ready? && (p.Finished? ==> p.outcome != TooManyConflicts)
      && (st'.log != st.log <==> st.value.Some? && st.calls[id].mutator(st.value.value).Ok?)
      && (st'.log != st.log ==> st'.value == Some(st.calls[id].mutator(st.value.value).value))
  {
    assert CallOk(st, id, st.calls[id]);
  }

  // ----- what a call has read -----

  /** The sessions a call's mutator was run on, one per attempt that got that far. */
  function ReadsOf<S>(events: seq<Event<S>>, id: nat): seq<S> {
    if events == [] then []
    else
      var before, e := events[..|events| - 1], events[|events| - 1];
      ReadsOf(before, id) + NewRead(Run(before), e, id)
  }

  function NewRead<S>(st: System<S>, e: Event<S>, id: nat): seq<S> {
    if e.Read? && e.id == id && id < |st.calls| && st.calls[id].phase.Watching? && st.value.Some?
    then [st.value.value] else []
  }

  lemma RunSnoc<S>(events: seq<Event<S>>, e: Event<S>)
    ensures Run(events + [e]) == Next(Run(events), e)
    ensures forall id: nat :: ReadsOf(events + [e], id) == ReadsOf(events, id) + NewRead(Run(events), e, id)
  {
    assert (events + [e])[..|events|] == events;
  }

  /** A prepared or committed call last read the session it prepared or committed from. */
  ghost predicate ReadOk<S(!new)>(st: System<S>, c: Call<S>, past: seq<S>) {
    && (c.phase.Prepared? ==> past != [] && past[|past| - 1] == c.phase.read)
    && (CommitOf(c).Some? && CommitOf(c).value < |st.log| ==>
          past != [] && Fold(st.log[..CommitOf(c).value]) == Some(past[|past| - 1]))
  }

  /** The last session a call read before it committed is the session it committed to. */
  lemma {:induction false} LastReadCommitted<S(!new)>(events: seq<Event<S>>, id: nat)
    requires id < |Run(events).calls|
    ensures ReadOk(Run(events), Run(events).calls[id], ReadsOf(events, id))
  {
    hide Inv, Next, ReadOk, NewRead;
    if events != [] {
      var before, e := events[..|events| - 1], events[|events| - 1];
      EveryRun(before);
      if id < |Run(before).calls| {
        LastReadCommitted(before, id);
        ReadStep(Run(before), e, id, ReadsOf(before, id));
      } else {
        NewCallRead(Run(before), e, id, ReadsOf(events, id));
      }
    }
  }

  lemma NewCallRead<S(!new)>(st: System<S>, e: Event<S>, id: nat, past: seq<S>)
    requires |st.calls| <= id < |Next(st, e).calls|
    ensures ReadOk(Next(st, e), Next(st, e).calls[id], past)
  {}

  lemma LogGrows<S(!new)>(st: System<S>, e: Event<S>)
    ensures |st.log| <= |Next(st, e).log| && Next(st, e).log[..|st.log|] == st.log
    ensures |st.calls| <= |Next(st, e).calls|
  {}

  lemma ReadStep<S(!new)>(st: System<S>, e: Event<S>, id: nat, past: seq<S>)
    requires Inv(st) && id < |st.calls| && ReadOk(st, st.calls[id], past)
    ensures id < |Next(st, e).calls|
    ensures ReadOk(Next(st, e), Next(st, e).calls[id], past + NewRead(st, e, id))
  {
    hide Accepted, Fold, Replay, ReportOk, OwnsOnly;
    var st', c := Next(st, e), st.calls[id];
    assert CallOk(st, id, c);
    LogGrows(st, e);
    var k := CommitOf(c);
    CommitInLog(st, id);
    if k.Some? {
      assert st'.log[..k.value] == st.log[..k.value];
    }
    if e == Exec(id) && c.phase.Prepared? && c.phase.seen == st.version {
      assert st'.log[..st.version] == st.log;
    }
  }

  lemma CommitInLog<S(!new)>(st: System<S>, id: nat)
    requires Inv(st) && id < |st.calls|
    ensures CommitOf(st.calls[id]).Some? ==> CommitOf(st.calls[id]).value < |st.log|
  {
    assert CallOk(st, id, st.calls[id]);
  }

  /** Call k is about to begin an attempt, with that many more to spare. */
  ghost predicate Poised<S(!new)>(st: System<S>, k: nat, spare: nat) {
    k < |st.calls| && st.calls[k].phase == Ready && st.calls[k].attempt + spare < st.calls[k].maxRetries
  }

  /** Call j takes v to w; call i accepts v, and takes w to u. */
  ghost predicate Crossing<S(!new)>(st: System<S>, i: nat, j: nat, v: S, w: S, u: S) {
    && i != j && Poised(st, i, 1) && Poised(st, j, 0) && st.value == Some(v)
    && st.calls[j].mutator(v) == Ok(w) && st.calls[i].mutator(v).Ok? && st.calls[i].mutator(w) == Ok(u)
  }

  /** Call k has committed as number n of the log. */
  ghost predicate CommittedAs<S(!new)>(st: System<S>, st': System<S>, k: nat, n: nat) {
    && k < |st.calls| && |st'.calls| == |st.calls| && n < |st'.log|
    && CommitOf(st'.calls[k]) == Some(n) && st'.log[n] == Apply(k, st.calls[k].mutator)
    && st'.calls[k].mutator == st.calls[k].mutator
  }

  /** First call j and then call i have committed, and nothing else has. */
  ghost predicate BothCommitted<S(!new)>(st: System<S>, st': System<S>, j: nat, i: nat) {
    && |st'.log| == |st.log| + 2 && st.log <= st'.log
    && CommittedAs(st, st', j, |st.log|) && CommittedAs(st, st', i, |st.log| + 1)
  }

  /** Any call can be overtaken by any other: wherever two calls are about to begin an
      attempt on a session both mutators accept, there is a way to go on in which the
      second commits between the first one's read and its write, and the first commits
      at its next attempt, having read the session before and after. */
  lemma Overtaken<S(!new)>(events: seq<Event<S>>, i: nat, j: nat, v: S, w: S, u: S) returns (longer: seq<Event<S>>)
    requires Crossing(Run(events), i, j, v, w, u)
    ensures longer == events + [Watch(i), Read(i), Watch(j), Read(j), Exec(j), Exec(i), Watch(i), Read(i), Exec(i)]
    ensures BothCommitted(Run(events), Run(longer), j, i) && Run(longer).value == Some(u)
    ensures ReadsOf(longer, i) == ReadsOf(events, i) + [v, w] && ReadsOf(longer, j) == ReadsOf(events, j) + [v]
  {
    hide Run, ReadsOf, Inv, CallOk;
    EveryRun(events);
    VersionIsLength(Run(events));
    longer := Then(events, Watch(i));
    longer := Then(longer, Read(i));
    longer := Then(longer, Watch(j));
    longer := Then(longer, Read(j));
    longer := Then(longer, Exec(j));
    longer := Then(longer, Exec(i));
    longer := Then(longer, Watch(i));
    longer := Then(longer, Read(i));
    longer := Then(longer, Exec(i));
  }

  /** A call that does not exist yet has read nothing. */
  lemma {:induction false} NothingRead<S(!new)>(events: seq<Event<S>>, id: nat)
    requires id >= |Run(events).calls|
    ensures ReadsOf(events, id) == []
  {
    if events != [] {
      LogGrows(Run(events[..|events| - 1]), events[|events| - 1]);
      NothingRead(events[..|events| - 1], id);
    }
  }

  /** A new call. */
  lemma Called<S(!new)>(events: seq<Event<S>>, m: Mutator<S>, runtime: Runtime, maxRetries: nat)
    returns (longer: seq<Event<S>>, id: nat)
    ensures longer == events + [Begin(m, runtime, maxRetries)]
    ensures id == |Run(events).calls|
    ensures Run(longer) == Run(events).(calls := Run(events).calls
                             + [Call(m, runtime, maxRetries, |Run(events).log|, 0, Ready)])
    ensures forall k: nat :: ReadsOf(longer, k) == ReadsOf(events, k)
    ensures ReadsOf(longer, id) == []
  {
    hide Run, ReadsOf;
    NothingRead(events, |Run(events).calls|);
    id := |Run(events).calls|;
    longer := Then(events, Begin(m, runtime, maxRetries));
  }

  /** All calls but k are as they were. */
  ghost predicate OthersSame<S(!new)>(st: System<S>, st': System<S>, k: nat) {
    |st'.calls| == |st.calls| && forall i :: 0 <= i < |st.calls| && i != k ==> st'.calls[i] == st.calls[i]
  }

  /** One attempt that no write falls into. */
  lemma Alone<S(!new)>(events: seq<Event<S>>, i: nat, v: S, w: S) returns (longer: seq<Event<S>>)
    requires Poised(Run(events), i, 0) && Run(events).value == Some(v) && Run(events).calls[i].mutator(v) == Ok(w)
    ensures longer == events + [Watch(i), Read(i), Exec(i)]
    ensures Run(longer).value == Some(w) && CommittedAs(Run(events), Run(longer), i, |Run(events).log|)
    ensures OthersSame(Run(events), Run(longer), i)
    ensures forall k: nat :: k != i ==> ReadsOf(longer, k) == ReadsOf(events, k)
  {
    hide Run, ReadsOf, Inv, CallOk;
    EveryRun(events);
    VersionIsLength(Run(events));
    longer := Then(events, Watch(i));
    longer := Then(longer, Read(i));
    longer := Then(longer, Exec(i));
  }

  lemma VersionIsLength<S(!new)>(st: System<S>)
    requires Inv(st)
    ensures st.version == |st.log|
  {}

  lemma Then<S(!new)>(events: seq<Event<S>>, e: Event<S>) returns (longer: seq<Event<S>>)
    ensures longer == events + [e] && Run(longer) == Next(Run(events), e)
    ensures forall id: nat :: ReadsOf(longer, id) == ReadsOf(events, id) + NewRead(Run(events), e, id)
  {
    longer := events + [e];
    RunSnoc(events, e);
  }

  // ----- the retry loop -----

  /** The values others write during one attempt: between watch and read, and between
      read and conditional write. A missing value is a deletion. */
  datatype Interference<S> = Interference(beforeRead: seq<Option<S>>, beforeExec: seq<Option<S>>)

  function Landed<S>(value: Option<S>, writes: seq<Option<S>>): Option<S> {
    if writes == [] then value else writes[|writes| - 1]
  }

  /** All writes of others in the attempts from one up to another. */
  function Writes<S>(others: nat -> Interference<S>, attempt: nat, k: nat): seq<Option<S>> {
    if k <= attempt then []
    else Writes(others, attempt, k - 1) + others(k - 1).beforeRead + others(k - 1).beforeExec
  }

  predicate Disturbed<S(==)>(o: Interference<S>) {
    o.beforeRead != [] || o.beforeExec != []
  }

  /** Outcome and final value of the attempts from the given one on. */
  function Attempts<S(==)>(value: Option<S>, m: Mutator<S>, max: nat, others: nat -> Interference<S>,
                             attempt: nat): (Outcome<S>, Option<S>)
    requires attempt <= max
    decreases max - attempt
  {
    if attempt == max then (TooManyConflicts, value)
    else
      var o := others(attempt);
      var read := Landed(value, o.beforeRead);
      match read
      case None => (NotFound, read)
      case Some(s) =>
        match m(s)
        case Err(_) => (Refused, read)
        case Ok(out) =>
          if Disturbed(o) then Attempts(Landed(read, o.beforeExec), m, max, others, attempt + 1)
          else (Updated(out), Some(out))
  }

  /** The key a session is stored under, with its modification count. */
  class Key<!S(==)> {
    var value: Option<S>
    var version: nat

    constructor (initial: Option<S>)
      ensures value == initial && version == 0
    {
      value, version := initial, 0;
    }

    /** Writes of other clients. */
    method Land(writes: seq<Option<S>>)
      modifies this
      ensures value == Landed(old(value), writes) && version == old(version) + |writes|
    {
      for i := 0 to |writes|
        invariant value == Landed(old(value), writes[..i]) && version == old(version) + i
      {
        value, version := writes[i], version + 1;
        assert writes[..i + 1][|writes[..i + 1]| - 1] == writes[i];
      }
      assert writes[..|writes|] == writes;
    }

    /** The loop: watch, read, mutate, write if unchanged, else try again. The first attempts
        were disturbed; the writes that others landed in all the attempts made are what the
        last one read, and apart from a successful update the only writes there are. */
    method WatchAndUpdate(m: Mutator<S>, maxRetries: nat, others: nat -> Interference<S>)
      returns (r: Outcome<S>, ghost disturbed: nat, ghost landed: seq<Option<S>>)
      modifies this
      ensures (r, value) == Attempts(old(value), m, maxRetries, others, 0)
      ensures disturbed <= maxRetries && (r == TooManyConflicts <==> disturbed == maxRetries)
      ensures forall i :: 0 <= i < disturbed ==> others(i).beforeRead != [] || others(i).beforeExec != []
      ensures landed == Writes(others, 0, disturbed)
                     + (if r == TooManyConflicts then [] else others(disturbed).beforeRead)
      ensures var last := if landed == [] then old(value) else landed[|landed| - 1];
        match r
        case Updated(v) => others(disturbed).beforeRead == [] == others(disturbed).beforeExec && last.Some?
                           && m(last.value) == Ok(v) && value == Some(v) && version == old(version) + |landed| + 1
        case Refused => last.Some? && m(last.value).Err? && value == last && version == old(version) + |landed|
        case NotFound => last == None && value == last && version == old(version) + |landed|
        case TooManyConflicts => value == last && version == old(version) + |landed|
    {
      disturbed, landed := 0, [];
      for attempt := 0 to maxRetries
        invariant Attempts(value, m, maxRetries, others, attempt) == Attempts(old(value), m, maxRetries, others, 0)
        invariant disturbed == attempt && landed == Writes(others, 0, attempt)
        invariant forall i :: 0 <= i < attempt ==> others(i).beforeRead != [] || others(i).beforeExec != []
        invariant value == (if landed == [] then old(value) else landed[|landed| - 1])
        invariant version == old(version) + |landed|
      {
        var seen := version;
        Land(others(attempt).beforeRead);
        landed := landed + others(attempt).beforeRead;
        if value == None {
          return NotFound, disturbed, landed;
        }
        var mutated := m(value.value);
        if mutated.Err? {
          return Refused, disturbed, landed;
        }
        Land(others(attempt).beforeExec);
        if version == seen {
          value, version := Some(mutated.value), version + 1;
          return Updated(mutated.value), disturbed, landed;
        }
        landed := landed + others(attempt).beforeExec;
        disturbed := disturbed + 1;
      }
      r := TooManyConflicts;
    }

    /** The variant that loads the session again after committing, when others may have
        written once more. What it returns is what the key holds then, and only a deletion
        after its commit makes it report a missing session although it committed. */
    method WatchAndReload(m: Mutator<S>, maxRetries: nat, others: nat -> Interference<S>, afterwards: seq<Option<S>>)
      returns (r: Outcome<S>, ghost outcome: Outcome<S>, ghost disturbed: nat, ghost landed: seq<Option<S>>)
      modifies this
      ensures outcome == Attempts(old(value), m, maxRetries, others, 0).0
      ensures landed == Writes(others, 0, disturbed)
                     + (if outcome == TooManyConflicts then [] else others(disturbed).beforeRead)
      ensures match outcome
        case Updated(v) =>
          && value == (if afterwards == [] then Some(v) else afterwards[|afterwards| - 1])
          && (value.Some? ==> r == Updated(value.value)) && (value == None ==> r == NotFound)
          && version == old(version) + |landed| + 1 + |afterwards|
        case _ =>
          && r == outcome && value == (if landed == [] then old(value) else landed[|landed| - 1])
          && version == old(version) + |landed|
    {
      r, disturbed, landed := WatchAndUpdate(m, maxRetries, others);
      outcome := r;
      if r.Updated? {
        Land(afterwards);
        r := if value.Some? then Updated(value.value) else NotFound;
      }
    }
  }

  lemma {:induction false} WritesFromFirst<S(!new)>(others: nat -> Interference<S>, attempt: nat, k: nat)
    requires attempt < k
    ensures Writes(others, attempt, k)
         == others(attempt).beforeRead + others(attempt).beforeExec + Writes(others, attempt + 1, k)
  {
    if k == attempt + 1 {
      assert Writes(others, attempt, attempt) == [];
    } else {
      WritesFromFirst(others, attempt, k - 1);
    }
  }

  /** A call that does not update leaves the key as the others left it: with the last of
      the writes they landed while it tried, or unchanged if there were none. It reports a
      missing session or a refusal exactly for what it read last. */
  lemma {:induction false} LeavesOthersWrites<S(!new)>(value: Option<S>, m: Mutator<S>, max: nat,
                                                        others: nat -> Interference<S>, attempt: nat)
    returns (k: nat, landed: seq<Option<S>>)
    requires attempt <= max && !Attempts(value, m, max, others, attempt).0.Updated?
    ensures attempt <= k <= max && forall i :: attempt <= i < k ==> Disturbed(others(i))
    ensures landed == Writes(others, attempt, k) + (if k == max then [] else others(k).beforeRead)
    ensures var left := Landed(value, landed);
      var outcome := Attempts(value, m, max, others, attempt).0;
      && Attempts(value, m, max, others, attempt).1 == left
      && (outcome == TooManyConflicts <==> k == max)
      && (k < max ==> (outcome == NotFound <==> left == None))
      && (k < max ==> (outcome == Refused <==> left.Some? && m(left.value).Err?))
    decreases max - attempt
  {
    hide Writes, Landed;
    NothingLanded(value, others, attempt);
    if attempt == max {
      k, landed := max, [];
    } else {
      var o := others(attempt);
      var read := Landed(value, o.beforeRead);
      if read == None || m(read.value).Err? {
        k, landed := attempt, o.beforeRead;
        assert landed == [] + o.beforeRead;
      } else {
        assert Disturbed(o);
        var rest;
        k, rest := LeavesOthersWrites(Landed(read, o.beforeExec), m, max, others, attempt + 1);
        WritesFromFirst(others, attempt, k);
        landed := o.beforeRead + o.beforeExec + rest;
        LandedInTurn(value, o.beforeRead, o.beforeExec, rest);
        assert landed == Writes(others, attempt, k) + (if k == max then [] else others(k).beforeRead);
      }
    }
  }

  lemma NothingLanded<S(!new)>(value: Option<S>, others: nat -> Interference<S>, attempt: nat)
    ensures Landed(value, []) == value && Writes(others, attempt, attempt) == []
  {}

  lemma LandedInTurn<S(!new)>(value: Option<S>, a: seq<Option<S>>, b: seq<Option<S>>, c: seq<Option<S>>)
    ensures Landed(Landed(Landed(value, a), b), c) == Landed(value, a + b + c)
  {}

  /** Nothing deletes the session and the mutator refuses nothing. */
  ghost predicate Smooth<S(!new)>(m: Mutator<S>, others: nat -> Interference<S>) {
    && (forall s :: m(s).Ok?)
    && forall i :: None !in others(i).beforeRead && None !in others(i).beforeExec
  }

  /** The loop gives up only if every single attempt was disturbed; and if nothing
      else can go wrong, exactly then. */
  lemma {:induction false} GivesUpExactlyWhen<S(!new)>(value: Option<S>, m: Mutator<S>, max: nat,
                                                        others: nat -> Interference<S>, attempt: nat)
    requires attempt <= max
    ensures Attempts(value, m, max, others, attempt).0 == TooManyConflicts ==>
      forall i :: attempt <= i < max ==> Disturbed(others(i))
    ensures value.Some? && Smooth(m, others) ==>
      (Attempts(value, m, max, others, attempt).0 == TooManyConflicts <==>
       forall i :: attempt <= i < max ==> Disturbed(others(i)))
    decreases max - attempt
  {
    if attempt < max {
      var o := others(attempt);
      GivesUpExactlyWhen(Landed(Landed(value, o.beforeRead), o.beforeExec), m, max, others, attempt + 1);
    }
  }

  /** A successful call stores its mutator's result on the session current at its first
      undisturbed attempt: everything others wrote before is read, nothing is lost. */
  lemma {:induction false} UpdatesCurrent<S(!new)>(value: Option<S>, m: Mutator<S>, max: nat,
                                                    others: nat -> Interference<S>, attempt: nat)
    returns (k: nat)
    requires attempt <= max && Attempts(value, m, max, others, attempt).0.Updated?
    ensures attempt <= k < max && !Disturbed(others(k)) && forall i :: attempt <= i < k ==> Disturbed(others(i))
    ensures var current := LandedUpTo(value, others, attempt, k);
      current.Some? && m(current.value) == Ok(Attempts(value, m, max, others, attempt).0.session)
    decreases max - attempt
  {
    var o := others(attempt);
    if Disturbed(o) {
      k := UpdatesCurrent(Landed(Landed(value, o.beforeRead), o.beforeExec), m, max, others, attempt + 1);
    } else {
      k := attempt;
    }
  }

  /** The value after all writes of others in the attempts from one up to another. */
  function LandedUpTo<S>(value: Option<S>, others: nat -> Interference<S>, attempt: nat, k: nat): Option<S>
    decreases k - attempt
  {
    if attempt >= k then value
    else
      var o := others(attempt);
      LandedUpTo(Landed(Landed(value, o.beforeRead), o.beforeExec), others, attempt + 1, k)
  }
}
