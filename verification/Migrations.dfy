/**
 The incremental libSQL migrations: several processes may run them on one database at
 the same time, and each may fail or crash at any point where it waits for the database.
 */
module Migrations {

  /** The shipped versions, in order. Version gaps are deliberate. */
  const VERSIONS: seq<int> := [9, 12, 13, 14, 15, 16, 18]

  /** V12 runs its own BEGIN/COMMIT script and is recorded by a later statement. */
  const OWN_SCRIPT := 12

  /** V16 looks again whether it is recorded once it holds the write lock. */
  const RECHECKED := 16

  /** The `_migrations` table, and every committed execution of a migration's statements. */
  datatype Db = Db(recorded: set<int>, log: seq<int>)

  /** Recording and executing in one transaction. */
  function Commit(db: Db, v: int): Db {
    Db(db.recorded + {v}, db.log + [v])
  }

  function Execute(db: Db, v: int): Db {
    db.(log := db.log + [v])
  }

  function Record(db: Db, v: int): Db {
    db.(recorded := db.recorded + {v})
  }

  // ---------- Processes ----------

  /** A process in `run_incremental`, by the next thing it asks of the database. */
  datatype Process =
    | Check(i: nat)
    | Transaction(i: nat)
    | Script
    | RecordScript
    | Finished
    | Stopped

  datatype World = World(db: Db, procs: seq<Process>, orphans: nat)

  datatype Step = Launch | Advance(p: nat) | Stop(p: nat)

  ghost predicate Enabled(w: World, st: Step) {
    match st
    case Launch => true
    case Advance(p) => p < |w.procs| && !w.procs[p].Finished? && !w.procs[p].Stopped?
    case Stop(p) => p < |w.procs| && !w.procs[p].Finished? && !w.procs[p].Stopped?
  }

  /** Position of V12 in the list. */
  const SCRIPT_AT: nat := 1

  function AfterCheck(i: nat): Process {
    if i == SCRIPT_AT then Script else Transaction(i)
  }

  /** `version` is the primary key of `_migrations`, so a second record of it is refused
      and takes its transaction with it. */
  function ProcessStep(db: Db, p: Process): (Db, Process) {
    match p
    case Check(i) =>
      if |VERSIONS| <= i then (db, Finished)
      else if VERSIONS[i] in db.recorded then (db, Check(i + 1))
      else (db, AfterCheck(i))
    case Transaction(i) =>
      if |VERSIONS| <= i then (db, Stopped)
      else if VERSIONS[i] !in db.recorded then (Commit(db, VERSIONS[i]), Check(i + 1))
      else if VERSIONS[i] == RECHECKED then (db, Check(i + 1))
      else (db, Stopped)
    case Script => (Execute(db, OWN_SCRIPT), RecordScript)
    case RecordScript =>
      if OWN_SCRIPT in db.recorded then (db, Stopped) else (Record(db, OWN_SCRIPT), Check(SCRIPT_AT + 1))
    case Finished => (db, p)
    case Stopped => (db, p)
  }

  /** Scripts executed by a process that then does not get to record them. */
  function NewOrphans(before: Process, after: Process): nat {
    if before.RecordScript? && after.Stopped? then 1 else 0
  }

  ghost function Apply(w: World, st: Step): World
    requires Enabled(w, st)
  {
    match st
    case Launch => w.(procs := w.procs + [Check(0)])
    case Advance(p) =>
      var (db', q) := ProcessStep(w.db, w.procs[p]);
      World(db', w.procs[p := q], w.orphans + NewOrphans(w.procs[p], q))
    case Stop(p) => w.(procs := w.procs[p := Stopped], orphans := w.orphans + NewOrphans(w.procs[p], Stopped))
  }

  // ---------- What every reachable state satisfies ----------

  ghost function FirstVersions(k: nat): set<int>
    requires k <= |VERSIONS|
  {
    set i | 0 <= i < k :: VERSIONS[i]
  }

  ghost predicate IsPrefix(recorded: set<int>) {
    exists k: nat :: k <= |VERSIONS| && recorded == FirstVersions(k)
  }

  function Count(log: seq<int>, v: int): nat {
    if log == [] then 0 else Count(log[..|log| - 1], v) + (if log[|log| - 1] == v then 1 else 0)
  }

  function Recording(procs: seq<Process>): nat {
    if procs == [] then 0 else Recording(procs[..|procs| - 1]) + (if procs[|procs| - 1].RecordScript? then 1 else 0)
  }

  function One(b: bool): nat { if b then 1 else 0 }

  ghost predicate ProcessOk(db: Db, p: Process) {
    match p
    case Check(i) => i <= |VERSIONS| && FirstVersions(i) <= db.recorded
    case Transaction(i) => i < |VERSIONS| && i != SCRIPT_AT && FirstVersions(i) <= db.recorded
    case Script => FirstVersions(SCRIPT_AT) <= db.recorded
    case RecordScript => FirstVersions(SCRIPT_AT) <= db.recorded
    case Finished => FirstVersions(|VERSIONS|) <= db.recorded
    case Stopped => true
  }

  /** Each migration other than V12 has run once if it is recorded and not otherwise. Every
      run of V12 is the recorded one, one about to be recorded, or an orphan. */
  ghost predicate Inv(w: World) {
    && IsPrefix(w.db.recorded)
    && (forall p | p in w.procs :: ProcessOk(w.db, p))
    && (forall v | v in VERSIONS && v != OWN_SCRIPT :: Count(w.db.log, v) == One(v in w.db.recorded))
    && Count(w.db.log, OWN_SCRIPT) == One(OWN_SCRIPT in w.db.recorded) + w.orphans + Recording(w.procs)
  }

  lemma {:induction false} RecordingUpdate(procs: seq<Process>, i: nat, p: Process)
    requires i < |procs|
    ensures Recording(procs[i := p]) + One(procs[i].RecordScript?) == Recording(procs) + One(p.RecordScript?)
  {
    var n := |procs| - 1;
    if i == n {
      assert procs[i := p][..n] == procs[..n];
    } else {
      assert procs[i := p][..n] == procs[..n][i := p];
      RecordingUpdate(procs[..n], i, p);
    }
  }

  lemma RecordingAppend(procs: seq<Process>, p: Process)
    ensures Recording(procs + [p]) == Recording(procs) + One(p.RecordScript?)
  {
  }

  lemma CountAppend(log: seq<int>, x: int, v: int)
    ensures Count(log + [x], v) == Count(log, v) + One(x == v)
  {
  }

  lemma InFirstVersions(i: nat, k: nat)
    requires i < |VERSIONS| && k <= |VERSIONS|
    ensures VERSIONS[i] in FirstVersions(k) <==> i < k
  {}

  /** Recording the first unrecorded version extends the prefix by one. */
  lemma NextVersion(recorded: set<int>, i: nat)
    requires IsPrefix(recorded) && i < |VERSIONS| && FirstVersions(i) <= recorded && VERSIONS[i] !in recorded
    ensures IsPrefix(recorded + {VERSIONS[i]}) && FirstVersions(i + 1) <= recorded + {VERSIONS[i]}
  {
    var k: nat :| k <= |VERSIONS| && recorded == FirstVersions(k);
    InFirstVersions(i, k);
    if k < |VERSIONS| {
      InFirstVersions(k, i);
      InFirstVersions(k, k);
    }
    assert FirstVersions(i + 1) == FirstVersions(i) + {VERSIONS[i]};
    assert recorded + {VERSIONS[i]} == FirstVersions(k + 1);
  }

  lemma ProcessStepOk(db: Db, p: Process)
    requires IsPrefix(db.recorded) && ProcessOk(db, p)
    ensures var (db', q) := ProcessStep(db, p);
            && IsPrefix(db'.recorded) && ProcessOk(db', q) && db.recorded <= db'.recorded
  {
    match p
    case Check(i) =>
      if i < |VERSIONS| && VERSIONS[i] in db.recorded {
        assert FirstVersions(i + 1) == FirstVersions(i) + {VERSIONS[i]};
      }
    case Transaction(i) =>
      if VERSIONS[i] !in db.recorded {
        NextVersion(db.recorded, i);
      } else {
        assert FirstVersions(i + 1) == FirstVersions(i) + {VERSIONS[i]};
      }
    case RecordScript =>
      if OWN_SCRIPT !in db.recorded {
        NextVersion(db.recorded, SCRIPT_AT);
      }
    case _ =>
  }

  lemma ProcessStepCounts(db: Db, p: Process)
    requires ProcessOk(db, p)
    requires forall v | v in VERSIONS && v != OWN_SCRIPT :: Count(db.log, v) == One(v in db.recorded)
    ensures var (db', q) := ProcessStep(db, p);
            && (forall v | v in VERSIONS && v != OWN_SCRIPT :: Count(db'.log, v) == One(v in db'.recorded))
            && Count(db'.log, OWN_SCRIPT) + One(p.RecordScript?) + One(OWN_SCRIPT in db.recorded) ==
               Count(db.log, OWN_SCRIPT) + One(q.RecordScript?) + One(OWN_SCRIPT in db'.recorded) + NewOrphans(p, q)
  {
    var x := if p.Transaction? then VERSIONS[p.i] else OWN_SCRIPT;
    forall v ensures Count(db.log + [x], v) == Count(db.log, v) + One(x == v) {
      CountAppend(db.log, x, v);
    }
  }

  lemma StepKeepsInv(w: World, st: Step)
    requires Inv(w) && Enabled(w, st)
    ensures Inv(Apply(w, st))
  {
    var w' := Apply(w, st);
    match st
    case Launch =>
      RecordingAppend(w.procs, Check(0));
      assert FirstVersions(0) == {};
    case Advance(p) =>
      assert w.procs[p] in w.procs;
      ProcessStepOk(w.db, w.procs[p]);
      ProcessStepCounts(w.db, w.procs[p]);
      RecordingUpdate(w.procs, p, w'.procs[p]);
      OthersStayOk(w, w', p);
    case Stop(p) =>
      RecordingUpdate(w.procs, p, Stopped);
      OthersStayOk(w, w', p);
  }

  lemma OthersStayOk(w: World, w': World, p: nat)
    requires p < |w.procs| == |w'.procs| && w'.procs == w.procs[p := w'.procs[p]]
    requires w.db.recorded <= w'.db.recorded && ProcessOk(w'.db, w'.procs[p])
    requires forall q | q in w.procs :: ProcessOk(w.db, q)
    ensures forall q | q in w'.procs :: ProcessOk(w'.db, q)
  {
    forall q | q in w'.procs ensures ProcessOk(w'.db, q) {
      assert q == w'.procs[p] || q in w.procs;
    }
  }

  // ---------- Whole histories of the database ----------

  ghost predicate Legal(w: World, steps: seq<Step>)
    decreases |steps|
  {
    steps == [] || (Enabled(w, steps[0]) && Legal(Apply(w, steps[0]), steps[1..]))
  }

  ghost function Run(w: World, steps: seq<Step>): World
    requires Legal(w, steps)
    decreases |steps|
  {
    if steps == [] then w else Run(Apply(w, steps[0]), steps[1..])
  }

  /** A database whose first `k` migrations were applied cleanly, with nothing running. */
  ghost function Fresh(k: nat): World
    requires k <= |VERSIONS|
  {
    World(Db(FirstVersions(k), VERSIONS[..k]), [], 0)
  }

  lemma FreshOk(k: nat)
    requires k <= |VERSIONS|
    ensures Inv(Fresh(k))
  {
    forall v | v in VERSIONS ensures Count(VERSIONS[..k], v) == One(v in FirstVersions(k)) {
      CountVersions(k, v);
    }
  }

  lemma {:induction false} CountVersions(k: nat, v: int)
    requires k <= |VERSIONS|
    ensures Count(VERSIONS[..k], v) == One(v in FirstVersions(k))
  {
    if k > 0 {
      CountVersions(k - 1, v);
      assert VERSIONS[..k] == VERSIONS[..k - 1] + [VERSIONS[k - 1]];
      CountAppend(VERSIONS[..k - 1], VERSIONS[k - 1], v);
      assert FirstVersions(k) == FirstVersions(k - 1) + {VERSIONS[k - 1]};
      assert VERSIONS[k - 1] !in FirstVersions(k - 1);
    }
  }

  lemma {:induction false} RunKeepsInv(w: World, steps: seq<Step>)
    requires Inv(w) && Legal(w, steps)
    ensures Inv(Run(w, steps))
    decreases |steps|
  {
    if steps != [] {
      StepKeepsInv(w, steps[0]);
      RunKeepsInv(Apply(w, steps[0]), steps[1..]);
    }
  }

  /** Whatever processes start, interleave, fail or crash: the recorded versions are a prefix
      of the list; every migration but V12 has taken effect exactly when it is recorded, and
      then once; a process that reports success leaves every version recorded. */
  lemma MigrationsAreCrashSafe(k: nat, steps: seq<Step>)
    requires k <= |VERSIONS| && Legal(Fresh(k), steps)
    ensures var w := Run(Fresh(k), steps);
            && IsPrefix(w.db.recorded)
            && (forall v | v in VERSIONS && v != OWN_SCRIPT ::
                  (v in w.db.log <==> v in w.db.recorded) && Count(w.db.log, v) <= 1)
            && (Finished in w.procs ==> forall v | v in VERSIONS :: v in w.db.recorded)
  {
    FreshOk(k);
    RunKeepsInv(Fresh(k), steps);
    var w := Run(Fresh(k), steps);
    forall v | v in VERSIONS && v != OWN_SCRIPT ensures v in w.db.log <==> v in w.db.recorded {
      CountIsMembership(w.db.log, v);
    }
    if Finished in w.procs {
      forall v | v in VERSIONS ensures v in FirstVersions(|VERSIONS|) {
        var i :| 0 <= i < |VERSIONS| && VERSIONS[i] == v;
      }
    }
  }

  lemma {:induction false} CountIsMembership(log: seq<int>, v: int)
    ensures Count(log, v) > 0 <==> v in log
  {
    if log != [] {
      CountIsMembership(log[..|log| - 1], v);
      assert log == log[..|log| - 1] + [log[|log| - 1]];
    }
  }

  /** V12 has run exactly once per record, process about to record it, or process that
      stopped, or lost the race for the record, in between. */
  lemma ScriptRunsAccountedFor(k: nat, steps: seq<Step>)
    requires k <= |VERSIONS| && Legal(Fresh(k), steps)
    ensures var w := Run(Fresh(k), steps);
            Count(w.db.log, OWN_SCRIPT) == One(OWN_SCRIPT in w.db.recorded) + w.orphans + Recording(w.procs)
  {
    FreshOk(k);
    RunKeepsInv(Fresh(k), steps);
  }

  /** Two processes that both find V12 missing both execute it. */
  lemma TwoProcessesRunScriptTwice()
    ensures exists steps: seq<Step> :: Legal(Fresh(1), steps) && Count(Run(Fresh(1), steps).db.log, OWN_SCRIPT) == 2
                            && forall st | st in steps :: !st.Stop?
  {
    var w0 := Fresh(1);
    var w1 := w0.(procs := [Check(0)]);
    var w2 := w0.(procs := [Check(0), Check(0)]);
    var w3 := w0.(procs := [Check(1), Check(0)]);
    var w4 := w0.(procs := [Script, Check(0)]);
    var w5 := w0.(procs := [Script, Check(1)]);
    var w6 := w0.(procs := [Script, Script]);
    var w7 := World(Execute(w0.db, 12), [RecordScript, Script], 0);
    var w8 := World(Execute(w7.db, 12), [RecordScript, RecordScript], 0);
    InFirstVersions(0, 1);
    InFirstVersions(1, 1);
    assert Apply(w0, Launch) == w1;
    assert Apply(w1, Launch) == w2;
    assert Apply(w2, Advance(0)) == w3;
    assert Apply(w3, Advance(0)) == w4;
    assert Apply(w4, Advance(1)) == w5;
    assert Apply(w5, Advance(1)) == w6;
    assert Apply(w6, Advance(0)) == w7;
    assert Apply(w7, Advance(1)) == w8;
    CountAppend(w0.db.log, 12, 12);
    CountAppend(w7.db.log, 12, 12);
    assert Count(VERSIONS[..1], 12) == 0 by { CountVersions(1, 12); }
    LegalCons(w7, Advance(1), []);
    LegalCons(w6, Advance(0), [Advance(1)]);
    LegalCons(w5, Advance(1), [Advance(0), Advance(1)]);
    LegalCons(w4, Advance(1), [Advance(1), Advance(0), Advance(1)]);
    LegalCons(w3, Advance(0), [Advance(1), Advance(1), Advance(0), Advance(1)]);
    LegalCons(w2, Advance(0), [Advance(0), Advance(1), Advance(1), Advance(0), Advance(1)]);
    LegalCons(w1, Launch, [Advance(0), Advance(0), Advance(1), Advance(1), Advance(0), Advance(1)]);
    LegalCons(w0, Launch, [Launch, Advance(0), Advance(0), Advance(1), Advance(1), Advance(0), Advance(1)]);
  }

  lemma LegalCons(w: World, st: Step, rest: seq<Step>)
    requires Enabled(w, st) && Legal(Apply(w, st), rest)
    ensures Legal(w, [st] + rest) && Run(w, [st] + rest) == Run(Apply(w, st), rest)
  {
  }

  // ---------- One process at a time ----------

  /** How the environment ends the work on one migration: not at all, before anything of
      it is durable, between V12's script and its record, or just after it is durable. */
  datatype Fault = NoFault | Before | Between | After

  datatype Result = Ok | Failed | FailedBetween

  /** One run of `run_incremental` from position `i`, alone on the database. */
  function RunFrom(db: Db, faults: seq<Fault>, i: nat): (Db, Result)
    requires |faults| == |VERSIONS| && i <= |VERSIONS|
    decreases |VERSIONS| - i
  {
    if i == |VERSIONS| then (db, Ok)
    else if faults[i].Before? then (db, Failed)
    else if VERSIONS[i] in db.recorded then
      if faults[i].NoFault? then RunFrom(db, faults, i + 1) else (db, Failed)
    else if i == SCRIPT_AT then
      if faults[i].Between? then (Execute(db, OWN_SCRIPT), FailedBetween)
      else if faults[i].After? then (Record(Execute(db, OWN_SCRIPT), OWN_SCRIPT), Failed)
      else RunFrom(Record(Execute(db, OWN_SCRIPT), OWN_SCRIPT), faults, i + 1)
    else if faults[i].NoFault? then RunFrom(Commit(db, VERSIONS[i]), faults, i + 1)
    else (Commit(db, VERSIONS[i]), Failed)
  }

  class Database {
    var recorded: set<int>
    var log: seq<int>

    ghost function Value(): Db reads this {
      Db(recorded, log)
    }
  }

  method RunIncremental(db: Database, faults: seq<Fault>) returns (r: Result)
    requires |faults| == |VERSIONS|
    modifies db
    ensures (db.Value(), r) == RunFrom(old(db.Value()), faults, 0)
    ensures r.Ok? <==> forall f | f in faults :: f.NoFault?
    ensures r.Ok? ==> db.log == old(db.log) + Missing(old(db.recorded), 0, |VERSIONS|)
    ensures r.Ok? ==> forall v | v in VERSIONS :: v in db.recorded
  {
    RunExactly(db.Value(), faults, 0);
    var i := 0;
    while i < |VERSIONS|
      invariant i <= |VERSIONS|
      invariant RunFrom(old(db.Value()), faults, 0) == RunFrom(db.Value(), faults, i)
    {
      var version := VERSIONS[i];
      if faults[i] == Before {
        return Failed;
      }
      if version in db.recorded {
        if faults[i] != NoFault {
          return Failed;
        }
        i := i + 1;
        continue;
      }
      if version == OWN_SCRIPT {
        db.log := db.log + [version];
        if faults[i] == Between {
          return FailedBetween;
        }
        db.recorded := db.recorded + {version};
      } else {
        db.log, db.recorded := db.log + [version], db.recorded + {version};
      }
      if faults[i] != NoFault {
        return Failed;
      }
      i := i + 1;
    }
    return Ok;
  }

  // ---------- How far a run gets ----------

  /** Position of the first fault from `i` on, or the length of the list. */
  function FirstFault(faults: seq<Fault>, i: nat): (k: nat)
    requires |faults| == |VERSIONS| && i <= |VERSIONS|
    ensures i <= k <= |VERSIONS| && (k < |VERSIONS| ==> !faults[k].NoFault?)
    ensures forall j | i <= j < k :: faults[j].NoFault?
    decreases |VERSIONS| - i
  {
    if i == |VERSIONS| || !faults[i].NoFault? then i else FirstFault(faults, i + 1)
  }

  /** The versions at positions from `i` up to `k` that are not recorded, in order. */
  function Missing(recorded: set<int>, i: nat, k: nat): seq<int>
    requires i <= k <= |VERSIONS|
    decreases k - i
  {
    if i == k then []
    else (if VERSIONS[i] in recorded then [] else [VERSIONS[i]]) + Missing(recorded, i + 1, k)
  }

  /** What the migration at the first fault still leaves in the log: nothing when it was
      recorded before or the fault comes first, and otherwise itself. */
  function LastWork(recorded: set<int>, faults: seq<Fault>, k: nat): seq<int>
    requires |faults| == |VERSIONS| && k <= |VERSIONS|
  {
    if k == |VERSIONS| || faults[k].Before? || VERSIONS[k] in recorded then [] else [VERSIONS[k]]
  }

  ghost predicate AllBefore(recorded: set<int>, k: nat)
    requires k <= |VERSIONS|
  {
    forall j | 0 <= j < k :: VERSIONS[j] in recorded
  }

  lemma {:induction false} MissingIgnores(recorded: set<int>, v: int, i: nat, k: nat)
    requires i <= k <= |VERSIONS| && forall j | i <= j < k :: VERSIONS[j] != v
    ensures Missing(recorded + {v}, i, k) == Missing(recorded, i, k)
    decreases k - i
  {
    if i < k { MissingIgnores(recorded, v, i + 1, k); }
  }

  /** What one turn of the loop without a fault does. */
  lemma RunTurn(db: Db, faults: seq<Fault>, i: nat, db': Db)
    requires |faults| == |VERSIONS| && i < |VERSIONS| && faults[i].NoFault?
    requires db' == if VERSIONS[i] in db.recorded then db else Db(db.recorded + {VERSIONS[i]}, db.log + [VERSIONS[i]])
    ensures RunFrom(db, faults, i) == RunFrom(db', faults, i + 1)
  {
  }

  lemma RunStopped(db: Db, faults: seq<Fault>, k: nat)
    requires |faults| == |VERSIONS| && k < |VERSIONS| && !faults[k].NoFault?
    ensures var (db', r) := RunFrom(db, faults, k);
            && db'.log == db.log + LastWork(db.recorded, faults, k) && !r.Ok?
            && db.recorded <= db'.recorded <= db.recorded + {VERSIONS[k]}
            && (VERSIONS[k] in db'.recorded <==>
                VERSIONS[k] in db.recorded || (!faults[k].Before? && !(k == SCRIPT_AT && faults[k].Between?)))
            && (r.FailedBetween? <==> k == SCRIPT_AT && faults[k].Between? && VERSIONS[k] !in db.recorded)
  {
  }

  /** Exactly the missing versions up to the first fault were executed, in list order. */
  ghost predicate LogIs(db: Db, faults: seq<Fault>, i: nat, k: nat, log: seq<int>)
    requires |faults| == |VERSIONS| && i <= k <= |VERSIONS|
  {
    log == db.log + Missing(db.recorded, i, k) + LastWork(db.recorded, faults, k)
  }

  /** All versions before the first fault are recorded and none after it touched; the one it
      hits is recorded unless the fault comes first or between V12's two statements. */
  ghost predicate RecordedIs(recorded: set<int>, faults: seq<Fault>, k: nat, recorded': set<int>)
    requires |faults| == |VERSIONS| && k <= |VERSIONS|
  {
    && recorded <= recorded' && AllBefore(recorded', k)
    && (forall j | k < j < |VERSIONS| :: VERSIONS[j] in recorded' <==> VERSIONS[j] in recorded)
    && (k < |VERSIONS| ==>
        (VERSIONS[k] in recorded' <==>
         VERSIONS[k] in recorded || (!faults[k].Before? && !(k == SCRIPT_AT && faults[k].Between?))))
  }

  lemma LogBack(db: Db, faults: seq<Fault>, i: nat, k: nat, log: seq<int>)
    requires |faults| == |VERSIONS| && i < k <= |VERSIONS| && VERSIONS[i] !in db.recorded
    requires LogIs(Db(db.recorded + {VERSIONS[i]}, db.log + [VERSIONS[i]]), faults, i + 1, k, log)
    ensures LogIs(db, faults, i, k, log)
  {
    var v, later := VERSIONS[i], Missing(db.recorded, i + 1, k);
    MissingIgnores(db.recorded, v, i + 1, k);
    var last := LastWork(db.recorded, faults, k);
    assert LastWork(db.recorded + {v}, faults, k) == last;
    assert (db.log + [v]) + later + last == db.log + ([v] + later) + last;
  }

  lemma RecordedBack(recorded: set<int>, faults: seq<Fault>, i: nat, k: nat, recorded': set<int>)
    requires |faults| == |VERSIONS| && i < k <= |VERSIONS|
    requires RecordedIs(recorded + {VERSIONS[i]}, faults, k, recorded')
    ensures RecordedIs(recorded, faults, k, recorded')
  {
    assert forall j | k <= j < |VERSIONS| :: VERSIONS[j] != VERSIONS[i];
  }

  ghost predicate Outcome(db: Db, faults: seq<Fault>, i: nat, k: nat, db': Db, r: Result)
    requires |faults| == |VERSIONS| && i <= k <= |VERSIONS|
  {
    && (r.Ok? <==> k == |VERSIONS|)
    && LogIs(db, faults, i, k, db'.log) && RecordedIs(db.recorded, faults, k, db'.recorded)
  }

  lemma OutcomeAtFault(db: Db, faults: seq<Fault>, k: nat)
    requires |faults| == |VERSIONS| && k < |VERSIONS| && !faults[k].NoFault? && AllBefore(db.recorded, k)
    ensures var (db', r) := RunFrom(db, faults, k); Outcome(db, faults, k, k, db', r)
  {
    RunStopped(db, faults, k);
    assert Missing(db.recorded, k, k) == [] && db.log + [] == db.log;
    assert forall j | k < j < |VERSIONS| :: VERSIONS[j] != VERSIONS[k];
  }

  lemma OutcomeBack(db: Db, faults: seq<Fault>, i: nat, k: nat, db': Db, r: Result)
    requires |faults| == |VERSIONS| && i < k <= |VERSIONS|
    requires Outcome(if VERSIONS[i] in db.recorded then db else Db(db.recorded + {VERSIONS[i]}, db.log + [VERSIONS[i]]),
                     faults, i + 1, k, db', r)
    ensures Outcome(db, faults, i, k, db', r)
  {
    if VERSIONS[i] in db.recorded {
      assert Missing(db.recorded, i, k) == Missing(db.recorded, i + 1, k);
    } else {
      LogBack(db, faults, i, k, db'.log);
      RecordedBack(db.recorded, faults, i, k, db'.recorded);
    }
  }

  /** A run succeeds exactly when it meets no fault. In any case it executes exactly the
      missing versions, in list order, up to its first fault. */
  lemma {:induction false} RunExactly(db: Db, faults: seq<Fault>, i: nat)
    requires |faults| == |VERSIONS| && i <= |VERSIONS| && AllBefore(db.recorded, i)
    ensures var (db', r) := RunFrom(db, faults, i); Outcome(db, faults, i, FirstFault(faults, i), db', r)
    decreases |VERSIONS| - i
  {
    if i == |VERSIONS| {
      assert db.log + [] + [] == db.log;
    } else if !faults[i].NoFault? {
      OutcomeAtFault(db, faults, i);
    } else {
      var v := VERSIONS[i];
      var next := if v in db.recorded then db else Db(db.recorded + {v}, db.log + [v]);
      RunTurn(db, faults, i, next);
      RunExactly(next, faults, i + 1);
      var (db', r) := RunFrom(next, faults, i + 1);
      OutcomeBack(db, faults, i, FirstFault(faults, i + 1), db', r);
    }
  }

  /** Every step keeps `holds`. */
  ghost predicate Kept(holds: World -> bool) {
    forall w, st | holds(w) && Enabled(w, st) :: holds(Apply(w, st))
  }

  lemma Keep(holds: World -> bool, w: World, st: Step, w': World)
    requires Kept(holds) && holds(w) && Enabled(w, st) && Apply(w, st) == w'
    ensures holds(w')
  {}

  ghost function Alone(db: Db, p: Process, orphans: nat): World {
    World(db, [p], orphans)
  }

  lemma KeepAlone(holds: World -> bool, db: Db, p: Process, orphans: nat)
    requires Kept(holds) && holds(Alone(db, p, orphans)) && !p.Finished? && !p.Stopped?
    ensures var (db', q) := ProcessStep(db, p); holds(Alone(db', q, orphans + NewOrphans(p, q)))
    ensures holds(Alone(db, Stopped, orphans + One(p.RecordScript?)))
  {
    var w := Alone(db, p, orphans);
    var (db', q) := ProcessStep(db, p);
    Keep(holds, w, Advance(0), Alone(db', q, orphans + NewOrphans(p, q)));
    Keep(holds, w, Stop(0), Alone(db, Stopped, orphans + One(p.RecordScript?)));
  }

  /** A run alone on the database is a path of the step machine: it keeps whatever every
      step keeps, and leaves an orphan exactly when it stops between V12's two statements. */
  lemma {:induction false} RunFollowsSteps(holds: World -> bool, db: Db, faults: seq<Fault>, i: nat, orphans: nat)
    requires |faults| == |VERSIONS| && i <= |VERSIONS|
    requires Kept(holds) && holds(Alone(db, Check(i), orphans))
    ensures var (db', r) := RunFrom(db, faults, i);
            holds(Alone(db', if r.Ok? then Finished else Stopped, orphans + One(r.FailedBetween?)))
    decreases |VERSIONS| - i, 1
  {
    KeepAlone(holds, db, Check(i), orphans);
    if i == |VERSIONS| || faults[i].Before? {
    } else if VERSIONS[i] in db.recorded {
      FinishRun(holds, db, faults, i, orphans);
    } else if i == SCRIPT_AT {
      KeepAlone(holds, db, Script, orphans);
      KeepAlone(holds, Execute(db, OWN_SCRIPT), RecordScript, orphans);
      FinishRun(holds, Record(Execute(db, OWN_SCRIPT), OWN_SCRIPT), faults, i, orphans);
    } else {
      KeepAlone(holds, db, Transaction(i), orphans);
      FinishRun(holds, Commit(db, VERSIONS[i]), faults, i, orphans);
    }
  }

  lemma {:induction false} FinishRun(holds: World -> bool, db: Db, faults: seq<Fault>, i: nat, orphans: nat)
    requires |faults| == |VERSIONS| && i < |VERSIONS|
    requires Kept(holds)
    ensures faults[i] != NoFault && holds(Alone(db, Check(i + 1), orphans)) ==> holds(Alone(db, Stopped, orphans))
    ensures faults[i] == NoFault && holds(Alone(db, Check(i + 1), orphans)) ==>
              var (db', r) := RunFrom(db, faults, i + 1);
              holds(Alone(db', if r.Ok? then Finished else Stopped, orphans + One(r.FailedBetween?)))
    decreases |VERSIONS| - i, 0
  {
    if holds(Alone(db, Check(i + 1), orphans)) {
      if faults[i].NoFault? {
        RunFollowsSteps(holds, db, faults, i + 1, orphans);
      } else {
        KeepAlone(holds, db, Check(i + 1), orphans);
      }
    }
  }

  /** Runs one after another, each with its own faults. Also counts the runs that stopped
      between V12's script and its record. */
  function RunAll(db: Db, runs: seq<seq<Fault>>): (Db, nat)
    requires forall faults | faults in runs :: |faults| == |VERSIONS|
    decreases |runs|
  {
    if runs == [] then (db, 0) else
    var (db', r) := RunFrom(db, runs[0], 0);
    var (last, n) := RunAll(db', runs[1..]);
    (last, n + One(r.FailedBetween?))
  }

  /** What a database may look like with nothing running. */
  ghost predicate AtRest(db: Db, orphans: nat) {
    && IsPrefix(db.recorded)
    && (forall v | v in VERSIONS && v != OWN_SCRIPT :: Count(db.log, v) == One(v in db.recorded))
    && Count(db.log, OWN_SCRIPT) == One(OWN_SCRIPT in db.recorded) + orphans
  }

  lemma {:induction false} RunAllSafe(db: Db, runs: seq<seq<Fault>>, orphans: nat)
    requires AtRest(db, orphans) && forall faults | faults in runs :: |faults| == |VERSIONS|
    ensures var (db', n) := RunAll(db, runs); AtRest(db', orphans + n)
    decreases |runs|
  {
    if runs != [] {
      assert runs[0] in runs;
      var (db', r) := RunFrom(db, runs[0], 0);
      assert FirstVersions(0) == {};
      RunKeepsAtRest(db, runs[0], 0, orphans);
      RunAllSafe(db', runs[1..], orphans + One(r.FailedBetween?));
    }
  }

  lemma InvIsKept()
    ensures Kept(Inv)
  {
    forall w, st | Inv(w) && Enabled(w, st) ensures Inv(Apply(w, st)) {
      StepKeepsInv(w, st);
    }
  }

  lemma AtRestIsInv(db: Db, p: Process, orphans: nat)
    requires !p.RecordScript? && ProcessOk(db, p)
    ensures Inv(Alone(db, p, orphans)) <==> AtRest(db, orphans)
  {
    assert [p][..0] == [] && Recording([p]) == 0;
  }

  lemma RunKeepsInvAlone(db: Db, faults: seq<Fault>, i: nat, orphans: nat)
    requires |faults| == |VERSIONS| && i <= |VERSIONS| && Inv(Alone(db, Check(i), orphans))
    ensures var (db', r) := RunFrom(db, faults, i);
            Inv(Alone(db', if r.Ok? then Finished else Stopped, orphans + One(r.FailedBetween?)))
  {
    InvIsKept();
    RunFollowsSteps(Inv, db, faults, i, orphans);
  }

  lemma RunKeepsAtRest(db: Db, faults: seq<Fault>, i: nat, orphans: nat)
    requires AtRest(db, orphans) && |faults| == |VERSIONS| && i <= |VERSIONS| && FirstVersions(i) <= db.recorded
    ensures var (db', r) := RunFrom(db, faults, i);
            AtRest(db', orphans + One(r.FailedBetween?)) && (r.Ok? ==> FirstVersions(|VERSIONS|) <= db'.recorded)
  {
    AtRestIsInv(db, Check(i), orphans);
    RunKeepsInvAlone(db, faults, i, orphans);
    var (db', r) := RunFrom(db, faults, i);
    var last := if r.Ok? then Finished else Stopped;
    assert last in [last];
    AtRestIsInv(db', last, orphans + One(r.FailedBetween?));
  }

  /** Over any sequence of runs from a clean prefix, V12 executes again only after a run
      that stopped between its script and its record. */
  lemma ScriptRepeatsOnlyAfterStopBetween(k: nat, runs: seq<seq<Fault>>)
    requires k <= |VERSIONS| && forall faults | faults in runs :: |faults| == |VERSIONS|
    ensures var (db, n) := RunAll(Fresh(k).db, runs);
            AtRest(db, n) && (Count(db.log, OWN_SCRIPT) > 1 ==> n > 0)
  {
    FreshOk(k);
    RunAllSafe(Fresh(k).db, runs, 0);
  }
}
