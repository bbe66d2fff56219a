/** A job's state machine, its capped transition log, and rollback. */
module Jobs {
  import opened Prelude

  datatype JobState = Pending | InProgress | Completed | Submitted | Accepted | Failed | Stuck | Cancelled

  predicate CanTransition(from: JobState, to: JobState) {
    match from
    case Pending => to.InProgress? || to.Cancelled?
    case InProgress => to.Completed? || to.Failed? || to.Stuck? || to.Cancelled?
    case Completed => to.Submitted? || to.Failed?
    case Submitted => to.Accepted? || to.Failed?
    case Stuck => to.InProgress? || to.Failed? || to.Cancelled?
    case Accepted => false
    case Failed => false
    case Cancelled => false
  }

  predicate IsTerminal(s: JobState) { s.Accepted? || s.Failed? || s.Cancelled? }

  predicate IsActive(s: JobState) { !IsTerminal(s) }

  predicate IsCompletion(s: JobState) { s.Completed? || s.Accepted? || s.Failed? || s.Cancelled? }

  /** The edges seen from their targets: work starts once or is taken up again from stuck, is
      completed, submitted and accepted in that order, gets stuck only while in progress, fails
      once begun, and is cancelled only before it is completed. An ended job never moves. */
  lemma EdgesIntoState(from: JobState, to: JobState)
    ensures CanTransition(from, to) <==>
            match to
            case Pending => false
            case InProgress => from in {Pending, Stuck}
            case Completed => from == InProgress
            case Submitted => from == Completed
            case Accepted => from == Submitted
            case Failed => from in {InProgress, Completed, Submitted, Stuck}
            case Stuck => from == InProgress
            case Cancelled => from in {Pending, InProgress, Stuck}
    ensures IsTerminal(from) <==> forall next :: !CanTransition(from, next)
  {
    if !IsTerminal(from) {
      assert CanTransition(from, if from.Pending? || from.Stuck? then InProgress else Failed);
    }
  }

  datatype Transition = Transition(from: JobState, to: JobState, at: int, reason: Option<string>)

  datatype Job = Job(
    state: JobState,
    startedAt: Option<int>,
    completedAt: Option<int>,
    repairs: nat,
    log: seq<Transition>)

  const MAX_TRANSITIONS := 200

  function NewJob(): Job {
    Job(Pending, None, None, 0, [])
  }

  function Capped(log: seq<Transition>): seq<Transition> {
    Newest(log, MAX_TRANSITIONS)
  }

  /** The clock is read once for the log entry and again for the job's own stamp. */
  function Moved(j: Job, to: JobState, logged: int, stamped: int, reason: Option<string>): Job {
    j.(log := Capped(j.log + [Transition(j.state, to, logged, reason)]),
       state := to,
       startedAt := if to.InProgress? && j.startedAt.None? then Some(stamped) else j.startedAt,
       completedAt := if IsCompletion(to) then Some(stamped) else j.completedAt)
  }

  /** Time of the newest entry into a state the test accepts. */
  function NewestInto(log: seq<Transition>, test: JobState -> bool): Option<int> {
    if log == [] then None
    else if test(log[|log| - 1].to) then Some(log[|log| - 1].at)
    else NewestInto(log[..|log| - 1], test)
  }

  /** It is the time of an entry into such a state after which there is none, and absent
      exactly when there is no such entry. */
  lemma {:induction false} NewestIntoExactly(log: seq<Transition>, test: JobState -> bool)
    ensures NewestInto(log, test).None? <==> forall i | 0 <= i < |log| :: !test(log[i].to)
    ensures NewestInto(log, test).Some? ==>
              exists i :: 0 <= i < |log| && test(log[i].to) && NewestInto(log, test).value == log[i].at
                          && forall j | i < j < |log| :: !test(log[j].to)
  {
    if log != [] {
      var n := |log| - 1;
      if test(log[n].to) {
        assert NewestInto(log, test).value == log[n].at;
      } else {
        NewestIntoExactly(log[..n], test);
      }
    }
  }

  predicate MatchesRollback(j: Job, previous: JobState) {
    j.log != [] && j.log[|j.log| - 1].from == previous && j.log[|j.log| - 1].to == j.state
  }

  function RolledBack(j: Job, previous: JobState): Job {
    if !MatchesRollback(j, previous) then j else
    var rest := j.log[..|j.log| - 1];
    j.(log := rest, state := previous,
       completedAt := if IsCompletion(previous) then NewestInto(rest, IsCompletion) else None)
  }

  datatype Recovery = Recovered | NotStuck | InvariantViolation

  function AfterRecovery(j: Job, logged: int, stamped: int): Job {
    if !j.state.Stuck? then j
    else Moved(j.(repairs := j.repairs + 1), InProgress, logged, stamped, Some("Recovery attempt"))
  }

  class JobContext {
    var state: JobState
    var startedAt: Option<int>
    var completedAt: Option<int>
    var repairs: nat
    var transitions: seq<Transition>

    ghost function Value(): Job reads this {
      Job(state, startedAt, completedAt, repairs, transitions)
    }

    constructor ()
      ensures Value() == NewJob()
    {
      state, startedAt, completedAt, repairs, transitions := Pending, None, None, 0, [];
    }

    method TransitionTo(to: JobState, reason: Option<string>, logged: int, stamped: int) returns (ok: bool)
      modifies this
      ensures ok <==> CanTransition(old(state), to)
      ensures Value() == if ok then Moved(old(Value()), to, logged, stamped, reason) else old(Value())
      ensures ok ==> state == to && repairs == old(repairs)
      ensures ok ==> transitions == Newest(old(transitions) + [Transition(old(state), to, logged, reason)], 200)
      ensures ok ==> startedAt == if to == InProgress && old(startedAt).None? then Some(stamped) else old(startedAt)
      ensures ok ==> completedAt == if to in {Completed, Accepted, Failed, Cancelled} then Some(stamped)
                                    else old(completedAt)
    {
      if !CanTransition(state, to) {
        return false;
      }
      transitions := transitions + [Transition(state, to, logged, reason)];
      if |transitions| > MAX_TRANSITIONS {
        var drainCount := |transitions| - MAX_TRANSITIONS;
        transitions := transitions[drainCount..];
      }
      state := to;
      if to.InProgress? && startedAt.None? {
        startedAt := Some(stamped);
      } else if IsCompletion(to) {
        completedAt := Some(stamped);
      }
      return true;
    }

    method FindNewest(test: JobState -> bool) returns (at: Option<int>)
      ensures at == NewestInto(transitions, test)
    {
      var i := |transitions|;
      assert transitions[..i] == transitions;
      while i > 0
        invariant 0 <= i <= |transitions|
        invariant NewestInto(transitions, test) == NewestInto(transitions[..i], test)
      {
        i := i - 1;
        assert transitions[..i + 1][..i] == transitions[..i];
        if test(transitions[i].to) {
          return Some(transitions[i].at);
        }
      }
      return None;
    }

    method SetStateRollback(previous: JobState)
      modifies this
      ensures Value() == RolledBack(old(Value()), previous)
    {
      if transitions == [] {
        return;
      }
      var last := transitions[|transitions| - 1];
      if last.from != previous || last.to != state {
        return;
      }
      transitions := transitions[..|transitions| - 1];
      state := previous;
      if IsCompletion(state) {
        completedAt := FindNewest(IsCompletion);
      } else {
        completedAt := None;
      }
    }

    method StuckSince() returns (at: Option<int>)
      ensures at == NewestInto(transitions, (s: JobState) => s.Stuck?)
    {
      at := FindNewest((s: JobState) => s.Stuck?);
    }

    /** A stuck job can always be taken up again, so the violation is never reported. */
    method AttemptRecovery(logged: int, stamped: int) returns (r: Recovery)
      modifies this
      ensures r == if old(state).Stuck? then Recovered else NotStuck
      ensures Value() == AfterRecovery(old(Value()), logged, stamped)
      ensures old(state).Stuck? ==> state.InProgress? && repairs == old(repairs) + 1
      ensures !old(state).Stuck? ==> Value() == old(Value())
    {
      if state != Stuck {
        return NotStuck;
      }
      repairs := repairs + 1;
      var ok := TransitionTo(InProgress, Some("Recovery attempt"), logged, stamped);
      return if ok then Recovered else InvariantViolation;
    }
  }

  // ---------- Every run ----------

  datatype Op =
    | Move(to: JobState, logged: int, stamped: int, reason: Option<string>)
    | Recover(logged: int, stamped: int)
    | Rollback(previous: JobState)

  function Apply(j: Job, op: Op): Job {
    match op
    case Move(to, logged, stamped, reason) =>
      if CanTransition(j.state, to) then Moved(j, to, logged, stamped, reason) else j
    case Recover(logged, stamped) => AfterRecovery(j, logged, stamped)
    case Rollback(previous) => RolledBack(j, previous)
  }

  function Run(j: Job, ops: seq<Op>): Job
    decreases |ops|
  {
    if ops == [] then j else Run(Apply(j, ops[0]), ops[1..])
  }

  ghost predicate Linked(log: seq<Transition>) {
    && (forall i | 0 <= i < |log| :: CanTransition(log[i].from, log[i].to))
    && (forall i, j | 0 <= i < |log| && j == i + 1 < |log| :: log[i].to == log[j].from)
  }

  /** The log is a path of allowed edges that leads to the current state. */
  ghost predicate LogOk(j: Job) {
    && |j.log| <= MAX_TRANSITIONS
    && Linked(j.log)
    && (j.log != [] ==> j.log[|j.log| - 1].to == j.state)
  }

  lemma MovedKeepsLog(j: Job, to: JobState, logged: int, stamped: int, reason: Option<string>)
    requires LogOk(j) && CanTransition(j.state, to)
    ensures LogOk(Moved(j, to, logged, stamped, reason))
  {
  }

  lemma ApplyKeepsLog(j: Job, op: Op)
    requires LogOk(j)
    ensures LogOk(Apply(j, op))
  {
    match op
    case Move(to, logged, stamped, reason) =>
      if CanTransition(j.state, to) { MovedKeepsLog(j, to, logged, stamped, reason); }
    case Recover(logged, stamped) =>
      if j.state.Stuck? {
        MovedKeepsLog(j.(repairs := j.repairs + 1), InProgress, logged, stamped, Some("Recovery attempt"));
      }
    case Rollback(previous) =>
      var n := |j.log|;
      if n > 1 { assert j.log[n - 2].to == j.log[n - 1].from; }
  }

  /** Over every run of moves, stuck marks, recoveries and rollbacks. */
  lemma {:induction false} RunKeepsLog(j: Job, ops: seq<Op>)
    requires LogOk(j)
    ensures LogOk(Run(j, ops))
    decreases |ops|
  {
    if ops != [] {
      ApplyKeepsLog(j, ops[0]);
      RunKeepsLog(Apply(j, ops[0]), ops[1..]);
    }
  }

  /** When a job is in a state, the newest log entry into it is the last one. */
  lemma NewestIsLast(j: Job, test: JobState -> bool)
    requires LogOk(j) && test(j.state)
    ensures NewestInto(j.log, test) == if j.log == [] then None else Some(j.log[|j.log| - 1].at)
  {}

  /** A reachable stuck job reports when it got stuck exactly when its log is not empty,
      and then it is the time of the last entry. */
  lemma StuckSinceExactly(ops: seq<Op>)
    requires Run(NewJob(), ops).state.Stuck?
    ensures var j := Run(NewJob(), ops);
            var since := NewestInto(j.log, (s: JobState) => s.Stuck?);
            && (since.Some? <==> j.log != [])
            && (j.log != [] ==> since == Some(j.log[|j.log| - 1].at))
  {
    RunKeepsLog(NewJob(), ops);
    NewestIsLast(Run(NewJob(), ops), (s: JobState) => s.Stuck?);
  }

  // ---------- Rollback ----------

  lemma PushThenPop<T>(log: seq<T>, x: T, max: nat)
    requires |log| <= max && max > 0
    ensures var pushed := Newest(log + [x], max);
            && |pushed| > 0 && pushed[|pushed| - 1] == x
            && pushed[..|pushed| - 1] == if |log| < max then log else log[1..]
  {
  }

  /** What is left of a move after it is rolled back. */
  lemma MoveThenRollback(j: Job, to: JobState, logged: int, stamped: int, reason: Option<string>)
    requires LogOk(j) && CanTransition(j.state, to)
    ensures var moved := Moved(j, to, logged, stamped, reason);
            var back := RolledBack(moved, j.state);
            && back.state == j.state && back.repairs == j.repairs
            && (back.log == j.log <==> |j.log| < MAX_TRANSITIONS)
            && (|j.log| == MAX_TRANSITIONS ==> back.log == j.log[1..])
            && back.startedAt == moved.startedAt
            && back.completedAt ==
               (if !IsCompletion(j.state) || back.log == [] then None else Some(back.log[|back.log| - 1].at))
  {
    MovedKeepsLog(j, to, logged, stamped, reason);
    var moved := Moved(j, to, logged, stamped, reason);
    var back := RolledBack(moved, j.state);
    ApplyKeepsLog(moved, Rollback(j.state));
    PushThenPop(j.log, Transition(j.state, to, logged, reason), MAX_TRANSITIONS);
    if IsCompletion(j.state) {
      NewestIsLast(back, IsCompletion);
    }
  }

  /** A rollback undoes a move completely exactly when the log had room, the move did not
      start the job, and the old completion stamp is the one the log would give. */
  lemma RollbackRestoresExactly(j: Job, to: JobState, logged: int, stamped: int, reason: Option<string>)
    requires LogOk(j) && CanTransition(j.state, to)
    ensures RolledBack(Moved(j, to, logged, stamped, reason), j.state) == j <==>
            && |j.log| < MAX_TRANSITIONS
            && !(to.InProgress? && j.startedAt.None?)
            && j.completedAt == (if !IsCompletion(j.state) || j.log == [] then None else Some(j.log[|j.log| - 1].at))
  {
  }

  lemma RollbackChangesExactly(j: Job, previous: JobState)
    requires LogOk(j)
    ensures RolledBack(j, previous) != j <==> j.log != [] && j.log[|j.log| - 1].from == previous
  {
  }

  /** A job that has finished its work carries a completion stamp, as long as nothing is rolled back. */
  ghost predicate Stamped(j: Job) {
    (IsCompletion(j.state) || j.state.Submitted?) ==> j.completedAt.Some?
  }

  lemma {:induction false} StampedWithoutRollback(j: Job, ops: seq<Op>)
    requires Stamped(j) && forall op | op in ops :: !op.Rollback?
    ensures Stamped(Run(j, ops))
    decreases |ops|
  {
    if ops != [] {
      assert ops[0] in ops;
      StampedWithoutRollback(Apply(j, ops[0]), ops[1..]);
    }
  }

  /** Rolling back from `Submitted` loses the stamp the job had. */
  lemma SubmittedLosesStamp(ops: seq<Op>, to: JobState, logged: int, stamped: int, reason: Option<string>)
    requires forall op | op in ops :: !op.Rollback?
    requires Run(NewJob(), ops).state.Submitted? && CanTransition(Submitted, to)
    ensures var j := Run(NewJob(), ops);
            && j.completedAt.Some?
            && RolledBack(Moved(j, to, logged, stamped, reason), Submitted).completedAt.None?
  {
    StampedWithoutRollback(NewJob(), ops);
    RunKeepsLog(NewJob(), ops);
    MoveThenRollback(Run(NewJob(), ops), to, logged, stamped, reason);
  }

  // ---------- A stuck job whose log has been rolled away ----------

  function Relapse(): seq<Op> {
    [Move(InProgress, 0, 0, None), Move(Stuck, 0, 0, None)]
  }

  function Relapses(n: nat): seq<Op> {
    if n == 0 then [] else Relapse() + Relapses(n - 1)
  }

  function TakenUp(): Transition { Transition(Stuck, InProgress, 0, None) }

  function StuckAgain(): Transition { Transition(InProgress, Stuck, 0, None) }

  function RelapseLog(n: nat): seq<Transition> {
    if n == 0 then []
    else RelapseLog(n - 1) + [TakenUp(), StuckAgain()]
  }

  function Retreats(n: nat): seq<Op> {
    if n == 0 then [] else [Rollback(InProgress), Rollback(Stuck)] + Retreats(n - 1)
  }

  lemma {:induction false} RunConcat(j: Job, a: seq<Op>, b: seq<Op>)
    ensures Run(j, a + b) == Run(Run(j, a), b)
    decreases |a|
  {
    if a == [] {
      assert a + b == b;
    } else {
      assert (a + b)[1..] == a[1..] + b;
      RunConcat(Apply(j, a[0]), a[1..], b);
    }
  }

  lemma {:induction false} RelapseLogLength(n: nat)
    ensures |RelapseLog(n)| == 2 * n
  {
    if n > 0 { RelapseLogLength(n - 1); }
  }

  /** Each relapse adds its two entries to the capped log. */
  lemma RelapseOnce(j: Job)
    requires j.state.Stuck? && j.startedAt.Some?
    ensures var k := Run(j, Relapse());
            && k == j.(log := k.log)
            && k.log == Capped(Capped(j.log + [TakenUp()]) + [StuckAgain()])
  {
  }

  lemma RelapseLogStep(before: seq<Transition>, done: nat)
    ensures Capped(before + RelapseLog(done + 1)) ==
            Capped(Capped(Capped(before + RelapseLog(done)) + [TakenUp()]) + [StuckAgain()])
  {
    var log := before + RelapseLog(done);
    var a, b := TakenUp(), StuckAgain();
    assert before + RelapseLog(done + 1) == log + [a] + [b];
    CapTwice(log, a);
    CapTwice(log + [a], b);
  }

  lemma {:induction false} RelapseMany(j: Job, before: seq<Transition>, done: nat, n: nat)
    requires j.state.Stuck? && j.startedAt.Some? && j.log == Capped(before + RelapseLog(done))
    ensures var k := Run(j, Relapses(n)); k == j.(log := Capped(before + RelapseLog(done + n)))
    decreases n
  {
    if n > 0 {
      RunConcat(j, Relapse(), Relapses(n - 1));
      RelapseOnce(j);
      RelapseLogStep(before, done);
      RelapseMany(Run(j, Relapse()), before, done + 1, n - 1);
    }
  }

  lemma CapTwice(log: seq<Transition>, t: Transition)
    ensures Capped(Capped(log) + [t]) == Capped(log + [t])
  {}

  lemma {:induction false} RetreatMany(j: Job, n: nat)
    requires j.state.Stuck? && j.log == RelapseLog(n)
    ensures var k := Run(j, Retreats(n)); k.state.Stuck? && k.log == []
    decreases n
  {
    if n > 0 {
      var two := [Rollback(InProgress), Rollback(Stuck)];
      RunConcat(j, two, Retreats(n - 1));
      var k1 := Apply(j, two[0]);
      var k2 := Apply(k1, two[1]);
      assert two[1..] == [two[1]] && two[1..][1..] == [];
      assert Run(j, two) == Run(k1, two[1..]) == Run(k2, []);
      assert k2.log == RelapseLog(n - 1);
      RetreatMany(k2, n - 1);
    }
  }

  /** Once enough relapses have pushed the start out of the log, rolling all of the log
      back leaves a stuck job that cannot say since when. */
  lemma StuckWithEmptyLog(n: nat)
    requires 2 * n == MAX_TRANSITIONS
    ensures var j := Run(NewJob(), Relapse() + Relapses(n) + Retreats(n)); j.state.Stuck? && j.log == []
  {
    var first := Relapse();
    var j1 := Apply(NewJob(), first[0]);
    var j := Apply(j1, first[1]);
    assert first[1..] == [first[1]] && first[1..][1..] == [];
    assert Run(NewJob(), first) == Run(j1, first[1..]) == Run(j, []);
    assert j.log + RelapseLog(0) == j.log;
    RelapseMany(j, j.log, 0, n);
    RelapseLogLength(n);
    var k := Run(j, Relapses(n));
    assert k.log == RelapseLog(n);
    RetreatMany(k, n);
    RunConcat(NewJob(), first, Relapses(n));
    RunConcat(NewJob(), first + Relapses(n), Retreats(n));
  }
}
