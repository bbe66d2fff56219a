/**
 The single-instance lock: open or create the PID file, take an exclusive lock on what was
 opened, write the PID, and on drop remove the path and then close. Any number of processes
 interleave, and each may stop at any point.
 */
module PidLock {
  import opened Prelude

  /** Where a process stands. `Dropping` has removed the path but not yet closed the file. */
  datatype Process =
    | Idle
    | Opened(inode: nat)
    | Locked(inode: nat)
    | Held(inode: nat)
    | Dropping(inode: nat)

  /** The file the path names, the next file number, and the processes; an absent process is idle. */
  datatype World = World(link: Option<nat>, next: nat, procs: map<nat, Process>)

  datatype Step =
    | Open(p: nat)
    | TryLock(p: nat)
    | WriteOk(p: nat)
    | Fails(p: nat)
    | Remove(p: nat, removed: bool)
    | Close(p: nat)
    | Stops(p: nat)

  function At(w: World, p: nat): Process {
    if p in w.procs then w.procs[p] else Idle
  }

  function Put(w: World, p: nat, x: Process): World {
    w.(procs := w.procs[p := x])
  }

  /** The operating system keeps a process's lock until the file is closed. */
  predicate HasLock(x: Process) {
    x.Locked? || x.Held? || x.Dropping?
  }

  predicate Taken(w: World, inode: nat) {
    exists p | p in w.procs :: HasLock(w.procs[p]) && w.procs[p].inode == inode
  }

  predicate Enabled(w: World, s: Step) {
    match s
    case Open(p) => At(w, p).Idle?
    case TryLock(p) => At(w, p).Opened?
    case WriteOk(p) => At(w, p).Locked?
    case Fails(p) => At(w, p).Opened? || At(w, p).Locked?
    case Remove(p, _) => At(w, p).Held?
    case Close(p) => At(w, p).Dropping?
    case Stops(p) => true
  }

  function Apply(w: World, s: Step): World
    requires Enabled(w, s)
  {
    match s
    case Open(p) =>
      if w.link.Some? then Put(w, p, Opened(w.link.value))
      else Put(World(Some(w.next), w.next + 1, w.procs), p, Opened(w.next))
    case TryLock(p) =>
      var i := At(w, p).inode;
      Put(w, p, if Taken(w, i) then Idle else Locked(i))
    case WriteOk(p) => Put(w, p, Held(At(w, p).inode))
    case Fails(p) => Put(w, p, Idle)
    case Remove(p, removed) =>
      Put(if removed then w.(link := None) else w, p, Dropping(At(w, p).inode))
    case Close(p) => Put(w, p, Idle)
    case Stops(p) => Put(w, p, Idle)
  }

  predicate Legal(w: World, steps: seq<Step>)
    decreases |steps|
  {
    steps != [] ==> Enabled(w, steps[0]) && Legal(Apply(w, steps[0]), steps[1..])
  }

  function Run(w: World, steps: seq<Step>): World
    requires Legal(w, steps)
    decreases |steps|
  {
    if steps == [] then w else Run(Apply(w, steps[0]), steps[1..])
  }

  /** No process yet, and the file absent or left over from an earlier run. */
  predicate Start(w: World) {
    w.procs == map[] && (w.link.Some? ==> w.link.value < w.next)
  }

  // ---------- What every run keeps ----------

  /** File numbers are used once, and one process at a time has a given file locked. */
  ghost predicate Inv(w: World) {
    && (w.link.Some? ==> w.link.value < w.next)
    && (forall p | p in w.procs :: w.procs[p].Idle? || w.procs[p].inode < w.next)
    && forall p, q | p in w.procs && q in w.procs :: SameLock(w.procs[p], w.procs[q]) ==> p == q
  }

  predicate SameLock(x: Process, y: Process) {
    HasLock(x) && HasLock(y) && x.inode == y.inode
  }

  lemma PutKeepsInv(w: World, w': World, p: nat, x: Process)
    requires Inv(w) && w'.procs == w.procs[p := x] && w.next <= w'.next
    requires (w'.link.Some? ==> w'.link.value < w'.next) && (x.Idle? || x.inode < w'.next)
    requires HasLock(x) ==> forall q | q in w.procs && q != p && HasLock(w.procs[q]) :: w.procs[q].inode != x.inode
    ensures Inv(w')
  {
  }

  lemma StepKeepsInv(w: World, s: Step)
    requires Inv(w) && Enabled(w, s)
    ensures Inv(Apply(w, s))
  {
    var w' := Apply(w, s);
    if HasLock(At(w, s.p)) {
      forall q | q in w.procs && q != s.p && HasLock(w.procs[q]) ensures w.procs[q].inode != At(w, s.p).inode {
        assert !SameLock(w.procs[s.p], w.procs[q]);
      }
    }
    PutKeepsInv(w, w', s.p, At(w', s.p));
  }

  lemma {:induction false} RunKeepsInv(w: World, steps: seq<Step>)
    requires Inv(w) && Legal(w, steps)
    ensures Inv(Run(w, steps))
    decreases |steps|
  {
    if steps != [] {
      StepKeepsInv(w, steps[0]);
      RunKeepsInv(Apply(w, steps[0]), steps[1..]);
    }
  }

  /** Two processes that both have the lock have it on different files, so the path names at
      most one of them. */
  lemma HoldersHaveDistinctFiles(w: World, steps: seq<Step>, p: nat, q: nat)
    requires Start(w) && Legal(w, steps) && p != q
    requires HasLock(At(Run(w, steps), p)) && HasLock(At(Run(w, steps), q))
    ensures At(Run(w, steps), p).inode != At(Run(w, steps), q).inode
  {
    RunKeepsInv(w, steps);
  }

  // ---------- When there is only one instance ----------

  ghost predicate OneInstance(w: World) {
    forall p, q :: At(w, p).Held? && At(w, q).Held? ==> p == q
  }

  /** Whoever has been granted the lock has it on the file the path names. */
  ghost predicate GrantsCurrent(w: World) {
    forall p | p in w.procs :: w.procs[p].Locked? || w.procs[p].Held? ==> w.link == Some(w.procs[p].inode)
  }

  /** A lock about to be granted on a file the path no longer names. */
  predicate StaleGrant(w: World, s: Step) {
    s.TryLock? && At(w, s.p).Opened? && w.link != Some(At(w, s.p).inode) && !Taken(w, At(w, s.p).inode)
  }

  lemma GrantsCurrentIsOneInstance(w: World)
    requires Inv(w) && GrantsCurrent(w)
    ensures OneInstance(w)
  {
  }

  /** A step keeps that exactly when it is not such a grant. */
  lemma StaleGrantExactly(w: World, s: Step)
    requires Inv(w) && GrantsCurrent(w) && Enabled(w, s)
    ensures GrantsCurrent(Apply(w, s)) <==> !StaleGrant(w, s)
  {
    var w' := Apply(w, s);
    if StaleGrant(w, s) {
      assert w'.procs[s.p].Locked?;
    } else {
      forall p | p in w'.procs && (w'.procs[p].Locked? || w'.procs[p].Held?)
        ensures w'.link == Some(w'.procs[p].inode)
      {
        if s.Remove? && p in w.procs {
          assert SameLock(w.procs[p], w.procs[s.p]) ==> p == s.p;
        }
      }
    }
  }

  predicate NoStaleGrant(w: World, steps: seq<Step>)
    requires Legal(w, steps)
    decreases |steps|
  {
    steps != [] ==> !StaleGrant(w, steps[0]) && NoStaleGrant(Apply(w, steps[0]), steps[1..])
  }

  lemma {:induction false} RunKeepsGrants(w: World, steps: seq<Step>)
    requires Inv(w) && GrantsCurrent(w) && Legal(w, steps) && NoStaleGrant(w, steps)
    ensures Inv(Run(w, steps)) && GrantsCurrent(Run(w, steps))
    decreases |steps|
  {
    if steps != [] {
      StepKeepsInv(w, steps[0]);
      StaleGrantExactly(w, steps[0]);
      RunKeepsGrants(Apply(w, steps[0]), steps[1..]);
    }
  }

  // ---------- Where stale grants come from ----------

  /** Whoever has the file open without a lock has the one the path names. */
  ghost predicate OpensCurrent(w: World) {
    forall p | p in w.procs && w.procs[p].Opened? :: w.link == Some(w.procs[p].inode)
  }

  /** A path removed while another process is between opening and locking. */
  predicate RemovedUnderOpen(w: World, s: Step) {
    s.Remove? && s.removed && exists p | p in w.procs :: p != s.p && w.procs[p].Opened?
  }

  lemma RemovedUnderOpenExactly(w: World, s: Step)
    requires OpensCurrent(w) && Enabled(w, s)
    ensures OpensCurrent(Apply(w, s)) <==> !RemovedUnderOpen(w, s)
  {
    var w' := Apply(w, s);
    if RemovedUnderOpen(w, s) {
      var p :| p in w.procs && p != s.p && w.procs[p].Opened?;
      assert w'.procs[p].Opened? && w'.link == None;
    } else if s.Remove? && s.removed {
      assert forall p | p in w'.procs :: !w'.procs[p].Opened?;
    }
  }

  predicate NoRemovalUnderOpen(w: World, steps: seq<Step>)
    requires Legal(w, steps)
    decreases |steps|
  {
    steps != [] ==> !RemovedUnderOpen(w, steps[0]) && NoRemovalUnderOpen(Apply(w, steps[0]), steps[1..])
  }

  lemma {:induction false} RemovalCausesStaleGrant(w: World, steps: seq<Step>)
    requires OpensCurrent(w) && Legal(w, steps) && NoRemovalUnderOpen(w, steps)
    ensures NoStaleGrant(w, steps)
    decreases |steps|
  {
    if steps != [] {
      RemovedUnderOpenExactly(w, steps[0]);
      RemovalCausesStaleGrant(Apply(w, steps[0]), steps[1..]);
    }
  }

  /** In every run in which no instance removes the file while another has opened and not yet
      locked it, at most one instance runs at any time. */
  lemma OneInstanceRuns(w: World, steps: seq<Step>)
    requires Start(w) && Legal(w, steps) && NoRemovalUnderOpen(w, steps)
    ensures OneInstance(Run(w, steps))
  {
    RemovalCausesStaleGrant(w, steps);
    RunKeepsGrants(w, steps);
    GrantsCurrentIsOneInstance(Run(w, steps));
  }

  // ---------- Taking the lock ----------

  /** Some run leads from one world to the other; unless `free`, one without such a removal. */
  ghost predicate Reaches(w: World, w': World, free: bool) {
    exists steps :: Legal(w, steps) && Run(w, steps) == w' && (free || NoRemovalUnderOpen(w, steps))
  }

  lemma {:induction false} RunSnoc(w: World, steps: seq<Step>, s: Step)
    requires Legal(w, steps) && Enabled(Run(w, steps), s)
    ensures Legal(w, steps + [s]) && Run(w, steps + [s]) == Apply(Run(w, steps), s)
    ensures NoRemovalUnderOpen(w, steps) && !RemovedUnderOpen(Run(w, steps), s) ==> NoRemovalUnderOpen(w, steps + [s])
    decreases |steps|
  {
    if steps == [] {
      assert steps + [s] == [s];
    } else {
      assert (steps + [s])[1..] == steps[1..] + [s];
      RunSnoc(Apply(w, steps[0]), steps[1..], s);
    }
  }

  lemma ReachSelf(w: World, free: bool)
    ensures Reaches(w, w, free)
  {
    assert Legal(w, []) && Run(w, []) == w && NoRemovalUnderOpen(w, []);
  }

  lemma ReachStep(w: World, w': World, s: Step, free: bool)
    requires Reaches(w, w', free) && Enabled(w', s) && (free || !s.Remove?)
    ensures Reaches(w, Apply(w', s), free)
  {
    var steps :| Legal(w, steps) && Run(w, steps) == w' && (free || NoRemovalUnderOpen(w, steps));
    RunSnoc(w, steps, s);
  }

  /** The file an open at this moment gives. */
  function Target(w: World): nat {
    if w.link.Some? then w.link.value else w.next
  }

  function Acquired(w: World, p: nat): World {
    World(Some(Target(w)), if w.link.Some? then w.next else w.next + 1, w.procs[p := Held(Target(w))])
  }

  /** One attempt that nobody interrupts. */
  function Attempt(w: World, p: nat): World
    requires At(w, p).Idle?
  {
    var w' := Apply(Apply(w, Open(p)), TryLock(p));
    if At(w', p).Locked? then Apply(w', WriteOk(p)) else w'
  }

  /** It succeeds exactly when the file it opens is not locked, and otherwise leaves
      everything as it was. */
  lemma AttemptExactly(w: World, p: nat)
    requires Inv(w) && At(w, p).Idle?
    ensures At(Attempt(w, p), p).Held? <==> !Taken(w, Target(w))
    ensures Attempt(w, p) == if Taken(w, Target(w)) then Put(w, p, Idle) else Acquired(w, p)
  {
    var w1 := Apply(w, Open(p));
    assert Taken(w1, Target(w)) <==> Taken(w, Target(w)) by {
      assert forall q | q in w1.procs && q != p :: q in w.procs && w1.procs[q] == w.procs[q];
      assert forall q | q in w.procs && HasLock(w.procs[q]) :: q in w1.procs && w1.procs[q] == w.procs[q];
    }
    assert Attempt(w, p).procs == if Taken(w, Target(w)) then w.procs[p := Idle] else Acquired(w, p).procs;
  }

  lemma ReachAttempt(w: World, w': World, p: nat, free: bool)
    requires Reaches(w, w', free) && At(w', p).Idle?
    ensures Reaches(w, Attempt(w', p), free)
  {
    ReachStep(w, w', Open(p), free);
    var w1 := Apply(w', Open(p));
    ReachStep(w, w1, TryLock(p), free);
    var w2 := Apply(w1, TryLock(p));
    if At(w2, p).Locked? { ReachStep(w, w2, WriteOk(p), free); }
  }

  /** A holder that stops without removing the file is replaced by whoever tries next. */
  lemma StoppedHolderIsReplaced(w: World, p: nat, q: nat)
    requires Inv(w) && GrantsCurrent(w) && At(w, p).Held? && At(w, q).Idle?
    ensures At(Attempt(Apply(w, Stops(p)), q), q) == Held(At(w, p).inode)
  {
  }

  /** Closing the file, a failed attempt and a stop all give the lock back, and whoever tries
      next on that file gets it. */
  lemma LockIsGivenBack(w: World, s: Step, q: nat)
    requires Inv(w) && Enabled(w, s) && (s.Close? || s.Fails? || s.Stops?) && HasLock(At(w, s.p))
    ensures At(Apply(w, s), s.p).Idle? && !Taken(Apply(w, s), At(w, s.p).inode)
    ensures w.link == Some(At(w, s.p).inode) && At(Apply(w, s), q).Idle? ==>
              At(Attempt(Apply(w, s), q), q) == Held(At(w, s.p).inode)
  {
    var w1, i := Apply(w, s), At(w, s.p).inode;
    assert !Taken(w1, i) by {
      assert forall r | r in w1.procs && r != s.p :: r in w.procs && !SameLock(w.procs[s.p], w.procs[r]);
    }
    StepKeepsInv(w, s);
    if At(w1, q).Idle? { AttemptExactly(w1, q); }
  }

  /** After an instance has removed the path and closed its file the next attempt makes a new
      file and gets it; if the removal failed it gets the old one. */
  lemma ShutdownThenStart(w: World, p: nat, q: nat, removed: bool)
    requires Inv(w) && GrantsCurrent(w) && At(w, p).Held? && At(w, q).Idle?
    ensures var w' := Apply(Apply(w, Remove(p, removed)), Close(p));
            At(w', p).Idle? && At(Attempt(w', q), q) == Held(if removed then w.next else At(w, p).inode)
  {
    var w1 := Apply(w, Remove(p, removed));
    StepKeepsInv(w, Remove(p, removed));
    StepKeepsInv(w1, Close(p));
    LockIsGivenBack(w1, Close(p), q);
    AttemptExactly(Apply(w1, Close(p)), q);
  }

  // ---------- Two instances ----------

  /** Once nobody has the file of `b` locked, `b` gets its lock. */
  lemma OpenedGetsLock(w: World, w1: World, b: nat, free: bool)
    requires Reaches(w, w1, free) && At(w1, b).Opened? && !Taken(w1, At(w1, b).inode)
    ensures Reaches(w, Put(w1, b, Held(At(w1, b).inode)), free)
  {
    ReachStep(w, w1, TryLock(b), free);
    var w2 := Apply(w1, TryLock(b));
    ReachStep(w, w2, WriteOk(b), free);
    assert Apply(w2, WriteOk(b)).procs == Put(w1, b, Held(At(w1, b).inode)).procs;
  }

  /** Whoever has the file of `b` locked may stop. */
  lemma HolderMayStop(w: World, w1: World, b: nat, free: bool) returns (w2: World)
    requires Inv(w1) && Reaches(w, w1, free) && At(w1, b).Opened?
    ensures Inv(w2) && Reaches(w, w2, free) && At(w2, b) == At(w1, b) && !Taken(w2, At(w2, b).inode)
    ensures w2.link == w1.link
  {
    w2 := w1;
    var i := At(w1, b).inode;
    if Taken(w1, i) {
      var c :| c in w1.procs && HasLock(w1.procs[c]) && w1.procs[c].inode == i;
      ReachStep(w, w1, Stops(c), free);
      StepKeepsInv(w1, Stops(c));
      w2 := Apply(w1, Stops(c));
      assert forall q | q in w2.procs && HasLock(w2.procs[q]) :: q in w1.procs && !SameLock(w1.procs[q], w1.procs[c]);
    }
  }

  lemma UnusedProcess(procs: map<nat, Process>) returns (p: nat)
    ensures p !in procs
  {
    p := AboveAll(procs.Keys);
  }

  lemma {:induction false} AboveAll(ids: set<nat>) returns (p: nat)
    ensures forall q | q in ids :: q < p
    decreases |ids|
  {
    p := 0;
    if ids != {} {
      var q :| q in ids;
      var rest := AboveAll(ids - {q});
      p := if rest > q then rest else q + 1;
      assert forall r | r in ids :: r == q || r in ids - {q};
    }
  }

  /** With the path gone and a file of before still open somewhere, two instances are in
      reach, without any further removal. */
  lemma UnlinkedOpenLeadsToTwo(w: World, w1: World, b: nat, free: bool)
    requires Inv(w1) && Reaches(w, w1, free) && w1.link.None? && At(w1, b).Opened?
    ensures exists w' :: Reaches(w, w', free) && !OneInstance(w')
  {
    var w2 := HolderMayStop(w, w1, b, free);
    var i := At(w2, b).inode;
    OpenedGetsLock(w, w2, b, free);
    var w3 := Put(w2, b, Held(i));
    PutKeepsInv(w2, w3, b, Held(i));
    var c := UnusedProcess(w3.procs);
    ReachAttempt(w, w3, c, free);
    AttemptExactly(w3, c);
    assert !Taken(w3, w3.next);
    var w4 := Acquired(w3, c);
    assert At(w4, b).Held? && At(w4, c).Held?;
  }

  /** From every start two instances can come to run at once. */
  lemma TwoInstances(w: World)
    requires Start(w)
    ensures exists w' :: Reaches(w, w', true) && !OneInstance(w')
  {
    ReachSelf(w, true);
    ReachAttempt(w, w, 0, true);
    AttemptExactly(w, 0);
    var w1 := Acquired(w, 0);
    ReachStep(w, w1, Open(1), true);
    var w2 := Apply(w1, Open(1));
    ReachStep(w, w2, Remove(0, true), true);
    var w3 := Apply(w2, Remove(0, true));
    assert Inv(w1) && Inv(w3) by {
      StepKeepsInv(w1, Open(1));
      StepKeepsInv(w2, Remove(0, true));
    }
    UnlinkedOpenLeadsToTwo(w, w3, 1, true);
  }

  // ---------- The exact condition ----------

  /** However the run goes on without a further removal of that kind, one instance runs. */
  ghost predicate StaysSingle(w: World) {
    forall more | Legal(w, more) && NoRemovalUnderOpen(w, more) :: OneInstance(Run(w, more))
  }

  /** What holds as long as no path was removed under an opened file. */
  ghost predicate Current(w: World) {
    Inv(w) && GrantsCurrent(w) && OpensCurrent(w)
  }

  lemma CurrentStaysSingle(w: World)
    requires Current(w)
    ensures StaysSingle(w)
  {
    forall more | Legal(w, more) && NoRemovalUnderOpen(w, more) ensures OneInstance(Run(w, more)) {
      RemovalCausesStaleGrant(w, more);
      RunKeepsGrants(w, more);
      GrantsCurrentIsOneInstance(Run(w, more));
    }
  }

  /** In every reachable state: removing the path under an opened file makes two instances
      possible, whatever else has happened before. */
  lemma RemovalLosesSingle(w: World, s: Step)
    requires Inv(w) && Enabled(w, s) && RemovedUnderOpen(w, s)
    ensures !StaysSingle(Apply(w, s))
  {
    var b :| b in w.procs && b != s.p && w.procs[b].Opened?;
    var w1 := Apply(w, s);
    StepKeepsInv(w, s);
    ReachSelf(w1, false);
    UnlinkedOpenLeadsToTwo(w1, w1, b, false);
    var w' :| Reaches(w1, w', false) && !OneInstance(w');
  }

  lemma CurrentStep(w: World, s: Step)
    requires Current(w) && Enabled(w, s) && !RemovedUnderOpen(w, s)
    ensures Current(Apply(w, s))
  {
    StepKeepsInv(w, s);
    StaleGrantExactly(w, s);
    RemovedUnderOpenExactly(w, s);
  }

  /** At every moment of the run. */
  ghost predicate AlwaysSingle(w: World, steps: seq<Step>)
    requires Legal(w, steps)
    decreases |steps|
  {
    StaysSingle(w) && (steps != [] ==> AlwaysSingle(Apply(w, steps[0]), steps[1..]))
  }

  lemma {:induction false} SingleFromCurrent(w: World, steps: seq<Step>)
    requires Current(w) && Legal(w, steps)
    ensures AlwaysSingle(w, steps) <==> NoRemovalUnderOpen(w, steps)
    decreases |steps|
  {
    CurrentStaysSingle(w);
    if steps != [] {
      if RemovedUnderOpen(w, steps[0]) {
        RemovalLosesSingle(w, steps[0]);
      } else {
        CurrentStep(w, steps[0]);
        SingleFromCurrent(Apply(w, steps[0]), steps[1..]);
      }
    }
  }

  /** A run is safe at every moment, in all its continuations without further removals under
      an opened file, exactly when it has no such removal itself. */
  lemma OneInstanceExactly(w: World, steps: seq<Step>)
    requires Start(w) && Legal(w, steps)
    ensures AlwaysSingle(w, steps) <==> NoRemovalUnderOpen(w, steps)
  {
    SingleFromCurrent(w, steps);
  }
}
