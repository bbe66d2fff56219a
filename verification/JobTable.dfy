/**
 The table of jobs: contexts and memories are two maps under two locks, so creating and
 removing a job each take two steps that others may come between.
 */
module JobTable {
  import opened Prelude
  import opened Jobs

  datatype Entry = Entry(user: string, job: Job)

  /** `creating` and `removing` hold the jobs between the two steps. `lost` holds those
      whose removal found no memory because their creation had not stored it yet. */
  datatype World = World(
    contexts: map<nat, Entry>,
    memories: set<nat>,
    creating: set<nat>,
    removing: set<nat>,
    lost: set<nat>,
    next: nat,
    maxJobs: nat)

  datatype Step =
    | InsertContext(user: string)
    | InsertMemory(id: nat)
    | Update(id: nat, op: Op)
    | RemoveContext(id: nat)
    | RemoveMemory(id: nat)

  function Active(contexts: map<nat, Entry>): set<nat> {
    set id | id in contexts && IsActive(contexts[id].job.state)
  }

  ghost predicate Enabled(w: World, st: Step) {
    match st
    case InsertContext(_) => |Active(w.contexts)| < w.maxJobs
    case InsertMemory(id) => id in w.creating
    case Update(id, _) => id in w.contexts
    case RemoveContext(id) => id in w.contexts
    case RemoveMemory(id) => id in w.removing
  }

  ghost function After(w: World, st: Step): World
    requires Enabled(w, st)
  {
    match st
    case InsertContext(user) =>
      w.(contexts := w.contexts[w.next := Entry(user, NewJob())], creating := w.creating + {w.next}, next := w.next + 1)
    case InsertMemory(id) => w.(memories := w.memories + {id}, creating := w.creating - {id})
    case Update(id, op) => w.(contexts := w.contexts[id := w.contexts[id].(job := Jobs.Apply(w.contexts[id].job, op))])
    case RemoveContext(id) => w.(contexts := w.contexts - {id}, removing := w.removing + {id})
    case RemoveMemory(id) =>
      w.(memories := w.memories - {id}, removing := w.removing - {id},
         lost := if id in w.creating then w.lost + {id} else w.lost)
  }

  ghost predicate IdOk(w: World, id: nat) {
    // A job has its memory, or its creation is still on the way to storing it.
    && (id in w.contexts ==> id in w.memories || id in w.creating)
    // A memory belongs to a job, to one being removed, or to one whose removal came too early.
    && (id in w.memories ==> id in w.contexts || id in w.removing || id in w.lost)
    && (id in w.lost ==> id in w.memories || id in w.creating)
    && !(id in w.contexts && id in w.removing) && !(id in w.contexts && id in w.lost)
    && !(id in w.removing && id in w.lost)
    && !(id in w.memories && id in w.creating)
    && (id in w.contexts || id in w.memories || id in w.creating || id in w.removing || id in w.lost ==> id < w.next)
    && (id in w.creating ==> id in w.contexts || id in w.removing || id in w.lost)
  }

  ghost predicate Inv(w: World) {
    forall id: nat :: IdOk(w, id)
  }

  lemma StepKeepsInv(w: World, st: Step)
    requires Inv(w) && Enabled(w, st)
    ensures Inv(After(w, st))
  {
    var w' := After(w, st);
    forall id: nat ensures IdOk(w', id) {
      assert IdOk(w, id) && IdOk(w, w.next);
    }
  }

  ghost predicate Legal(w: World, steps: seq<Step>)
    decreases |steps|
  {
    steps == [] || (Enabled(w, steps[0]) && Legal(After(w, steps[0]), steps[1..]))
  }

  ghost function Run(w: World, steps: seq<Step>): World
    requires Legal(w, steps)
    decreases |steps|
  {
    if steps == [] then w else Run(After(w, steps[0]), steps[1..])
  }

  ghost function Empty(maxJobs: nat): World {
    World(map[], {}, {}, {}, {}, 0, maxJobs)
  }

  lemma {:induction false} RunKeepsInv(w: World, steps: seq<Step>)
    requires Inv(w) && Legal(w, steps)
    ensures Inv(Run(w, steps))
    decreases |steps|
  {
    if steps != [] {
      StepKeepsInv(w, steps[0]);
      RunKeepsInv(After(w, steps[0]), steps[1..]);
    }
  }

  /** In every interleaving; and once nothing is in flight the memories are those of the
      jobs plus exactly the ones that a too early removal left behind. */
  lemma JobsHaveMemories(maxJobs: nat, steps: seq<Step>)
    requires Legal(Empty(maxJobs), steps)
    ensures var w := Run(Empty(maxJobs), steps);
            && (forall id | id in w.contexts :: id in w.memories || id in w.creating)
            && w.contexts.Keys !! w.lost
            && (AtRest(w) ==> w.memories == w.contexts.Keys + w.lost)
  {
    RunKeepsInv(Empty(maxJobs), steps);
    var w := Run(Empty(maxJobs), steps);
    assert forall id: nat | id in w.contexts || id in w.memories || id in w.lost :: IdOk(w, id);
  }

  predicate AtRest(w: World) { w.creating == {} && w.removing == {} }

  /** A removal reaches the memories before the creation has stored one. */
  predicate Early(w: World, st: Step) { st.RemoveMemory? && st.id in w.creating }

  ghost predicate NoneEarly(w: World, steps: seq<Step>)
    requires Legal(w, steps)
    decreases |steps|
  {
    steps != [] ==> !Early(w, steps[0]) && NoneEarly(After(w, steps[0]), steps[1..])
  }

  lemma {:induction false} LostOnlyGrows(w: World, steps: seq<Step>)
    requires Legal(w, steps)
    ensures w.lost <= Run(w, steps).lost
    decreases |steps|
  {
    if steps != [] { LostOnlyGrows(After(w, steps[0]), steps[1..]); }
  }

  lemma {:induction false} LostExactly(w: World, steps: seq<Step>)
    requires Legal(w, steps) && w.lost == {}
    ensures Run(w, steps).lost == {} <==> NoneEarly(w, steps)
    decreases |steps|
  {
    if steps != [] {
      var w' := After(w, steps[0]);
      if Early(w, steps[0]) {
        LostOnlyGrows(w', steps[1..]);
        assert steps[0].id in w'.lost;
      } else {
        LostExactly(w', steps[1..]);
      }
    }
  }

  /** At rest every memory belongs to a job exactly when no removal was early. */
  lemma NoLeftoverExactly(maxJobs: nat, steps: seq<Step>)
    requires Legal(Empty(maxJobs), steps) && AtRest(Run(Empty(maxJobs), steps))
    ensures var w := Run(Empty(maxJobs), steps); w.memories == w.contexts.Keys <==> NoneEarly(Empty(maxJobs), steps)
  {
    JobsHaveMemories(maxJobs, steps);
    LostExactly(Empty(maxJobs), steps);
    var w := Run(Empty(maxJobs), steps);
    assert w.contexts.Keys + w.lost == w.contexts.Keys <==> w.lost == {};
  }

  /** Removing a job between the two steps of its creation leaves its memory for good. */
  lemma EarlyRemovalLeavesMemory(maxJobs: nat, user: string)
    requires maxJobs >= 1
    ensures exists steps :: Legal(Empty(maxJobs), steps) &&
              var w := Run(Empty(maxJobs), steps);
              AtRest(w) && w.contexts == map[] && w.memories == {0}
  {
    var w1 := World(map[0 := Entry(user, NewJob())], {}, {0}, {}, {}, 1, maxJobs);
    var w2 := World(map[], {}, {0}, {0}, {}, 1, maxJobs);
    var w3 := World(map[], {}, {0}, {}, {0}, 1, maxJobs);
    var w4 := World(map[], {0}, {}, {}, {0}, 1, maxJobs);
    assert Active(Empty(maxJobs).contexts) == {} && w1.contexts - {0} == map[];
    var steps := LegalCons(w3, InsertMemory(0), w4, []);
    steps := LegalCons(w2, RemoveMemory(0), w3, steps);
    steps := LegalCons(w1, RemoveContext(0), w2, steps);
    steps := LegalCons(Empty(maxJobs), InsertContext(user), w1, steps);
  }

  // ---------- The limit on active jobs ----------

  /** A rollback that matches takes a finished job back to an active state in a full table. */
  ghost predicate ReactivatesWhenFull(w: World, st: Step) {
    && st.Update? && st.id in w.contexts && st.op.Rollback?
    && MatchesRollback(w.contexts[st.id].job, st.op.previous)
    && !IsActive(w.contexts[st.id].job.state) && IsActive(st.op.previous)
    && |Active(w.contexts)| == w.maxJobs
  }

  /** No move and no recovery leads from an inactive to an active state, only such a rollback. */
  lemma OnlyRollbackReactivates(j: Job, op: Op)
    requires !IsActive(j.state)
    ensures IsActive(Jobs.Apply(j, op).state) <==>
            op.Rollback? && MatchesRollback(j, op.previous) && IsActive(op.previous)
  {
  }

  lemma ActiveAfterSet(contexts: map<nat, Entry>, id: nat, e: Entry)
    ensures var a, b := Active(contexts), Active(contexts[id := e]);
            |b| == |a| + (if IsActive(e.job.state) then 1 else 0) - (if id in a then 1 else 0)
  {
    var a, b := Active(contexts), Active(contexts[id := e]);
    var rest := a - {id};
    assert a == if id in a then rest + {id} else rest;
    assert b == if IsActive(e.job.state) then rest + {id} else rest;
  }

  lemma ActiveAfterRemove(contexts: map<nat, Entry>, id: nat)
    ensures |Active(contexts - {id})| <= |Active(contexts)|
  {
    var a, b := Active(contexts), Active(contexts - {id});
    assert b == a - {id};
  }

  /** The limit survives a step exactly when the step does not reactivate a job in a full table. */
  lemma LimitExactly(w: World, st: Step)
    requires Inv(w) && Enabled(w, st) && |Active(w.contexts)| <= w.maxJobs
    ensures |Active(After(w, st).contexts)| <= w.maxJobs <==> !ReactivatesWhenFull(w, st)
  {
    match st
    case InsertContext(user) =>
      assert IdOk(w, w.next);
      ActiveAfterSet(w.contexts, w.next, Entry(user, NewJob()));
    case Update(id, op) =>
      if !IsActive(w.contexts[id].job.state) { OnlyRollbackReactivates(w.contexts[id].job, op); }
      ActiveAfterSet(w.contexts, id, w.contexts[id].(job := Jobs.Apply(w.contexts[id].job, op)));
    case RemoveContext(id) => ActiveAfterRemove(w.contexts, id);
    case _ =>
  }

  lemma {:induction false} ActiveJobsWithinLimit(w: World, steps: seq<Step>)
    requires Inv(w) && |Active(w.contexts)| <= w.maxJobs && Legal(w, steps)
    requires forall st | st in steps :: !(st.Update? && st.op.Rollback?)
    ensures |Active(Run(w, steps).contexts)| <= w.maxJobs
    decreases |steps|
  {
    if steps != [] {
      var st := steps[0];
      assert st in steps;
      StepKeepsInv(w, st);
      LimitExactly(w, st);
      ActiveJobsWithinLimit(After(w, st), steps[1..]);
    }
  }

  lemma JobFailsAndReturns(a: Transition, b: Transition, running: Job, failed: Job)
    requires a == Transition(Pending, InProgress, 0, None) && b == Transition(InProgress, Failed, 0, None)
    requires running == Job(InProgress, Some(0), None, 0, [a]) && failed == Job(Failed, Some(0), Some(0), 0, [a, b])
    ensures Jobs.Apply(NewJob(), Move(InProgress, 0, 0, None)) == running
    ensures Jobs.Apply(running, Move(Failed, 0, 0, None)) == failed
    ensures Jobs.Apply(failed, Rollback(InProgress)) == running
  {
  }

  ghost predicate Reaches(w: World, w': World) {
    exists steps :: Legal(w, steps) && Run(w, steps) == w'
  }

  lemma {:induction false} RunSnoc(w: World, steps: seq<Step>, st: Step)
    requires Legal(w, steps) && Enabled(Run(w, steps), st)
    ensures Legal(w, steps + [st]) && Run(w, steps + [st]) == After(Run(w, steps), st)
    decreases |steps|
  {
    if steps == [] {
      assert steps + [st] == [st];
    } else {
      assert (steps + [st])[1..] == steps[1..] + [st];
      RunSnoc(After(w, steps[0]), steps[1..], st);
    }
  }

  lemma ReachStep(w: World, w': World, st: Step)
    requires Inv(w') && Reaches(w, w') && Enabled(w', st)
    ensures Inv(After(w', st)) && Reaches(w, After(w', st))
  {
    var steps :| Legal(w, steps) && Run(w, steps) == w';
    RunSnoc(w, steps, st);
    StepKeepsInv(w', st);
  }

  lemma AddJob(w: World, w': World, user: string)
    requires Inv(w') && Reaches(w, w') && |Active(w'.contexts)| < w'.maxJobs
    ensures var w'' := After(w', InsertContext(user));
            Inv(w'') && Reaches(w, w'') && |Active(w''.contexts)| == |Active(w'.contexts)| + 1
  {
    ReachStep(w, w', InsertContext(user));
    assert IdOk(w', w'.next);
    ActiveAfterSet(w'.contexts, w'.next, Entry(user, NewJob()));
  }

  lemma ChangeJob(w: World, w': World, op: Op)
    requires Inv(w') && Reaches(w, w') && 0 in w'.contexts
    ensures var j := w'.contexts[0].job;
            var w'' := After(w', Update(0, op));
            && Inv(w'') && Reaches(w, w'')
            && |Active(w''.contexts)| + (if IsActive(j.state) then 1 else 0) ==
               |Active(w'.contexts)| + (if IsActive(Jobs.Apply(j, op).state) then 1 else 0)
  {
    var j := w'.contexts[0].job;
    ReachStep(w, w', Update(0, op));
    ActiveAfterSet(w'.contexts, 0, w'.contexts[0].(job := Jobs.Apply(j, op)));
  }

  lemma {:induction false} FillTable(maxJobs: nat, n: nat, user: string) returns (w: World)
    requires 1 <= n <= maxJobs
    ensures Inv(w) && Reaches(Empty(maxJobs), w) && w.maxJobs == maxJobs && |Active(w.contexts)| == n
    ensures w.next > 0 && 0 in w.contexts && w.contexts[0].job == NewJob()
    decreases n
  {
    var start := Empty(maxJobs);
    if n == 1 {
      assert Legal(start, []) && Run(start, []) == start && Active(start.contexts) == {};
      AddJob(start, start, user);
      w := After(start, InsertContext(user));
    } else {
      w := FillTable(maxJobs, n - 1, user);
      AddJob(start, w, user);
      w := After(w, InsertContext(user));
    }
  }

  /** For every limit: the table fills, one job fails, another takes its place, and the
      failure is rolled back. */
  lemma RollbackExceedsLimit(maxJobs: nat, user: string)
    requires maxJobs >= 1
    ensures exists w :: Reaches(Empty(maxJobs), w) && |Active(w.contexts)| == maxJobs + 1
  {
    var start := Empty(maxJobs);
    var a, b := Transition(Pending, InProgress, 0, None), Transition(InProgress, Failed, 0, None);
    var running, failed := Job(InProgress, Some(0), None, 0, [a]), Job(Failed, Some(0), Some(0), 0, [a, b]);
    JobFailsAndReturns(a, b, running, failed);
    var w := FillTable(maxJobs, maxJobs, user);
    ChangeJob(start, w, Move(InProgress, 0, 0, None));
    w := After(w, Update(0, Move(InProgress, 0, 0, None)));
    ChangeJob(start, w, Move(Failed, 0, 0, None));
    w := After(w, Update(0, Move(Failed, 0, 0, None)));
    AddJob(start, w, user);
    w := After(w, InsertContext(user));
    ChangeJob(start, w, Rollback(InProgress));
    w := After(w, Update(0, Rollback(InProgress)));
  }

  lemma LegalCons(w: World, st: Step, w': World, rest: seq<Step>) returns (steps: seq<Step>)
    requires Enabled(w, st) && After(w, st) == w' && Legal(w', rest)
    ensures Legal(w, steps) && Run(w, steps) == Run(w', rest)
  {
    steps := [st] + rest;
    assert steps[1..] == rest;
  }

  // ---------- The manager ----------

  datatype Created = Created(id: nat) | MaxJobsExceeded

  class ContextManager {
    var contexts: map<nat, Entry>
    var memories: set<nat>
    var next: nat
    const maxJobs: nat

    ghost function Value(): World reads this {
      World(contexts, memories, {}, {}, {}, next, maxJobs)
    }

    /** Ids in use were handed out before. */
    ghost predicate Valid() reads this {
      forall id | id in contexts || id in memories :: id < next
    }

    constructor (max: nat)
      ensures Valid() && Value() == Empty(max)
    {
      contexts, memories, next, maxJobs := map[], {}, 0, max;
    }

    method CreateJobForUser(user: string) returns (r: Created)
      requires Valid()
      modifies this
      ensures Valid()
      ensures r.Created? ==> r.id !in old(contexts) && r.id !in old(memories)
      ensures r.Created? ==> memories == old(memories) + {r.id}
      ensures r.Created? ==> contexts == old(contexts)[r.id := Entry(user, Job(Pending, None, None, 0, []))]
      ensures r.MaxJobsExceeded? <==> |Active(old(contexts))| >= maxJobs
      ensures r.MaxJobsExceeded? ==> Value() == old(Value())
      ensures r.Created? ==> r.id == old(next) &&
                             Value() == After(After(old(Value()), InsertContext(user)), InsertMemory(r.id))
    {
      var activeCount := |Active(contexts)|;
      if activeCount >= maxJobs {
        return MaxJobsExceeded;
      }
      var id := next;
      contexts := contexts[id := Entry(user, NewJob())];
      next := next + 1;
      memories := memories + {id};
      return Created(id);
    }

    method RemoveJob(id: nat) returns (found: bool)
      requires Valid()
      modifies this
      ensures Valid()
      ensures id !in old(contexts) ==> !found && Value() == old(Value())
      ensures id in old(contexts) ==>
                && (found <==> id in old(memories))
                && contexts == old(contexts) - {id} && memories == old(memories) - {id}
                && Value() == After(After(old(Value()), RemoveContext(id)), RemoveMemory(id))
    {
      if id !in contexts {
        return false;
      }
      contexts := contexts - {id};
      found := id in memories;
      memories := memories - {id};
    }
  }
}
