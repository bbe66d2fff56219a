/**
 The reverse-dependency check behind path-scoped cargo-audit ignores: an ignore
 stands only while every way of reaching the vulnerable package goes through one
 expected ancestor.
 */
module AuditPaths {
  import opened Prelude

  datatype Key = Key(name: string, version: string)

  /** A TOML value, as far as the check looks into it. */
  datatype Value = Str(s: string) | List(items: seq<Value>) | Other

  type Package = map<string, Value>

  function PackageKey(p: Package): Option<Key> {
    if "name" in p && p["name"].Str? && "version" in p && p["version"].Str?
    then Some(Key(p["name"].s, p["version"].s))
    else None
  }

  function FirstSpace(s: string): (n: nat)
    ensures n <= |s| && ' ' !in s[..n] && (n < |s| ==> s[n] == ' ')
  {
    if s == [] || s[0] == ' ' then 0 else
      var n := FirstSpace(s[1..]);
      assert s[..n + 1] == [s[0]] + s[1..][..n];
      n + 1
  }

  /** `defaultdict(set)` lookup. */
  function Lookup<K, V>(m: map<K, set<V>>, k: K): set<V> {
    if k in m then m[k] else {}
  }

  /** A versioned specification names one key; a bare name stands for every locked version. */
  function DependencyKeys(dependency: string, byName: map<string, set<Key>>): set<Key> {
    var n := FirstSpace(dependency);
    if n < |dependency| then {Key(dependency[..n], dependency[n + 1..])}
    else Lookup(byName, dependency)
  }

  function DependencyParentEdges(p: Package, byName: map<string, set<Key>>): set<(Key, Key)> {
    if PackageKey(p).None? || "dependencies" !in p || !p["dependencies"].List? then {}
    else
      set item, k | item in p["dependencies"].items && item.Str? && k in DependencyKeys(item.s, byName)
        :: (k, PackageKey(p).value)
  }

  // ---------- Specification: the graph a lockfile describes ----------

  /** The package's own fields give the key. */
  ghost predicate Is(p: Package, k: Key) {
    "name" in p && p["name"] == Str(k.name) && "version" in p && p["version"] == Str(k.version)
  }

  /** The entry has a name and a version, both strings; what else it holds does not matter. */
  lemma KeyIsNameAndVersion(p: Package, k: Key)
    ensures PackageKey(p) == Some(k) <==> Is(p, k)
  {
  }

  ghost predicate Locked(packages: seq<Package>, k: Key) {
    exists p :: p in packages && Is(p, k)
  }

  /** The index holds exactly the locked keys of each name. */
  ghost predicate Indexes(byName: map<string, set<Key>>, packages: seq<Package>) {
    forall n: string, k: Key :: k in Lookup(byName, n) <==> k.name == n && Locked(packages, k)
  }

  /** `dependency`, written in some package, resolves to `k`. */
  ghost predicate Resolves(packages: seq<Package>, dependency: string, k: Key) {
    || (' ' in dependency && ' ' !in k.name && dependency == k.name + " " + k.version)
    || (' ' !in dependency && k.name == dependency && Locked(packages, k))
  }

  ghost predicate Lists(p: Package, d: string) {
    "dependencies" in p && p["dependencies"].List? && Str(d) in p["dependencies"].items
  }

  /** `parent` is a locked package that lists `k` among its dependencies. */
  ghost predicate DependsOn(packages: seq<Package>, parent: Key, k: Key) {
    exists p: Package, d: string ::
      p in packages && Is(p, parent) && Lists(p, d) && Resolves(packages, d, k)
  }

  // ---------- Specification: walks from a package up to its dependents ----------

  /** A non-empty chain of dependents starting above `from`. */
  ghost predicate IsWalk(up: Key -> set<Key>, from: Key, p: seq<Key>) {
    && |p| > 0
    && if |p| == 1 then p[0] in up(from)
       else p[|p| - 1] in up(p[|p| - 2]) && IsWalk(up, from, p[..|p| - 1])
  }

  ghost predicate Crosses(ancestor: string, p: seq<Key>) {
    exists k :: k in p && k.name == ancestor
  }

  /** Every chain of dependents that ends at a package nobody depends on passes
      the ancestor, and some chain does pass it. */
  ghost predicate OnlyThrough(up: Key -> set<Key>, from: Key, ancestor: string) {
    && (forall p: seq<Key> | IsWalk(up, from, p) && up(p[|p| - 1]) == {} :: Crosses(ancestor, p))
    && (exists p :: IsWalk(up, from, p) && Crosses(ancestor, p))
  }

  ghost function MapUp(parents: map<Key, set<Key>>): Key -> set<Key> {
    k => Lookup(parents, k)
  }

  /** `k` ends a walk that meets the ancestor nowhere before `k`. */
  ghost predicate Reaches(up: Key -> set<Key>, from: Key, ancestor: string, k: Key) {
    exists p :: IsWalk(up, from, p) && p[|p| - 1] == k && !Crosses(ancestor, p[..|p| - 1])
  }

  ghost predicate NoRootBefore(up: Key -> set<Key>, from: Key, ancestor: string) {
    forall k | Reaches(up, from, ancestor, k) :: k.name == ancestor || up(k) != {}
  }

  ghost predicate AncestorReached(up: Key -> set<Key>, from: Key, ancestor: string) {
    exists k :: Reaches(up, from, ancestor, k) && k.name == ancestor
  }

  lemma CrossesSplit(ancestor: string, p: seq<Key>)
    requires p != []
    ensures p == p[..|p| - 1] + [p[|p| - 1]]
    ensures Crosses(ancestor, p) <==> Crosses(ancestor, p[..|p| - 1]) || p[|p| - 1].name == ancestor
  {
  }

  lemma ExtendReach(up: Key -> set<Key>, from: Key, ancestor: string, k: Key, next: Key)
    requires Reaches(up, from, ancestor, k) && k.name != ancestor && next in up(k)
    ensures Reaches(up, from, ancestor, next)
  {
    var p: seq<Key> :| IsWalk(up, from, p) && p[|p| - 1] == k && !Crosses(ancestor, p[..|p| - 1]);
    CrossesSplit(ancestor, p);
    var q := p + [next];
    assert q[..|q| - 1] == p;
    assert IsWalk(up, from, q) && q[|q| - 1] == next;
  }

  lemma StartReach(up: Key -> set<Key>, from: Key, ancestor: string, k: Key)
    requires k in up(from)
    ensures Reaches(up, from, ancestor, k)
  {
    var p := [k];
    assert IsWalk(up, from, p) && p[|p| - 1] == k && p[..|p| - 1] == [];
  }

  /** A set that holds the first dependents and is closed upwards except above the
      ancestor holds everything reached without crossing the ancestor. */
  lemma {:induction false} ClosedSetHoldsWalk(
    up: Key -> set<Key>, from: Key, ancestor: string, closed: set<Key>, p: seq<Key>)
    requires up(from) <= closed
    requires forall x | x in closed && x.name != ancestor :: up(x) <= closed
    requires IsWalk(up, from, p) && !Crosses(ancestor, p[..|p| - 1])
    ensures p[|p| - 1] in closed
    decreases |p|
  {
    if |p| > 1 {
      var q := p[..|p| - 1];
      CrossesSplit(ancestor, q);
      ClosedSetHoldsWalk(up, from, ancestor, closed, q);
      assert p[|p| - 1] in up(p[|p| - 2]);
    }
  }

  /** A walk that crosses the ancestor has a shortest prefix that does. */
  lemma {:induction false} FirstCrossing(up: Key -> set<Key>, from: Key, ancestor: string, p: seq<Key>)
    returns (k: Key)
    requires IsWalk(up, from, p) && Crosses(ancestor, p)
    ensures k.name == ancestor && Reaches(up, from, ancestor, k)
    decreases |p|
  {
    CrossesSplit(ancestor, p);
    var q := p[..|p| - 1];
    if Crosses(ancestor, q) {
      k := FirstCrossing(up, from, ancestor, q);
    } else {
      k := p[|p| - 1];
    }
  }

  /** The two readings of the cut condition agree: whole walks to a root, and
      packages reached before the ancestor. */
  lemma OnlyThroughByReach(up: Key -> set<Key>, from: Key, ancestor: string)
    ensures OnlyThrough(up, from, ancestor) <==> NoRootBefore(up, from, ancestor) && AncestorReached(up, from, ancestor)
  {
    forall p: seq<Key> | IsWalk(up, from, p)
      ensures Crosses(ancestor, p) <==> Crosses(ancestor, p[..|p| - 1]) || p[|p| - 1].name == ancestor
    {
      CrossesSplit(ancestor, p);
    }
    if OnlyThrough(up, from, ancestor) {
      var p: seq<Key> :| IsWalk(up, from, p) && Crosses(ancestor, p);
      var k := FirstCrossing(up, from, ancestor, p);
    }
    if NoRootBefore(up, from, ancestor) && AncestorReached(up, from, ancestor) {
      forall p: seq<Key> | IsWalk(up, from, p) && up(p[|p| - 1]) == {} ensures Crosses(ancestor, p) {
        assert !Crosses(ancestor, p[..|p| - 1]) ==> Reaches(up, from, ancestor, p[|p| - 1]);
      }
    }
  }

  // ---------- Endless paths ----------

  /** A package met before the ancestor depends on itself along a walk without the ancestor. */
  ghost predicate CycleBefore(up: Key -> set<Key>, from: Key, ancestor: string) {
    exists k, q :: Reaches(up, from, ancestor, k) && k.name != ancestor && Returns(up, ancestor, k, q)
  }

  ghost predicate Returns(up: Key -> set<Key>, ancestor: string, k: Key, q: seq<Key>) {
    IsWalk(up, k, q) && q[|q| - 1] == k && !Crosses(ancestor, q)
  }

  /** Every walk that cannot be continued, or is longer than the bound, crosses the ancestor. */
  ghost predicate EveryPathCrosses(up: Key -> set<Key>, from: Key, ancestor: string, bound: nat) {
    forall p: seq<Key> | IsWalk(up, from, p) && (up(p[|p| - 1]) == {} || |p| > bound) :: Crosses(ancestor, p)
  }

  lemma {:induction false} WalkJoin(up: Key -> set<Key>, from: Key, p: seq<Key>, q: seq<Key>)
    requires IsWalk(up, from, p) && IsWalk(up, p[|p| - 1], q)
    ensures IsWalk(up, from, p + q)
    decreases |q|
  {
    var n := |q| - 1;
    assert (p + q)[..|p| + n] == p + q[..n];
    if n == 0 {
      assert p + q[..n] == p;
    } else {
      WalkJoin(up, from, p, q[..n]);
    }
  }

  lemma {:induction false} WalkSplit(up: Key -> set<Key>, from: Key, p: seq<Key>, i: nat)
    requires IsWalk(up, from, p) && 0 < i < |p|
    ensures IsWalk(up, from, p[..i]) && IsWalk(up, p[i - 1], p[i..])
    decreases |p|
  {
    var n := |p| - 1;
    assert p[i..][..n - i] == p[..n][i..];
    if i < n {
      WalkSplit(up, from, p[..n], i);
      assert p[..n][..i] == p[..i];
    }
  }

  lemma {:induction false} WalkStaysIn(up: Key -> set<Key>, from: Key, all: set<Key>, p: seq<Key>)
    requires IsWalk(up, from, p) && forall k :: up(k) <= all
    ensures forall x | x in p :: x in all
    decreases |p|
  {
    var n := |p| - 1;
    assert p == p[..n] + [p[n]];
    if n > 0 { WalkStaysIn(up, from, all, p[..n]); }
  }

  /** A sequence longer than the set it draws from repeats itself. */
  lemma {:induction false} Pigeonhole(p: seq<Key>, all: set<Key>) returns (i: nat, j: nat)
    requires |p| > |all| && forall x | x in p :: x in all
    ensures i < j < |p| && p[i] == p[j]
    decreases |p|
  {
    var n := |p| - 1;
    var last := p[n];
    if last in p[..n] {
      j := n;
      i :| 0 <= i < n && p[i] == last;
    } else {
      assert forall x | x in p[..n] :: x in p && x in all - {last};
      i, j := Pigeonhole(p[..n], all - {last});
    }
  }

  lemma CutOut(up: Key -> set<Key>, from: Key, p: seq<Key>, i: nat, j: nat)
    requires IsWalk(up, from, p) && i < j < |p|
    ensures IsWalk(up, from, p[..i + 1]) && IsWalk(up, p[i], p[i + 1..j + 1])
  {
    var head := p[..j + 1];
    if j + 1 < |p| { WalkSplit(up, from, p, j + 1); } else { assert head == p; }
    WalkSplit(up, from, head, i + 1);
    assert head[..i + 1] == p[..i + 1] && head[i + 1..] == p[i + 1..j + 1];
  }

  lemma LongWalkRepeats(up: Key -> set<Key>, from: Key, ancestor: string, all: set<Key>, p: seq<Key>)
    requires forall k :: up(k) <= all
    requires IsWalk(up, from, p) && |p| > |all| && !Crosses(ancestor, p)
    ensures CycleBefore(up, from, ancestor)
  {
    WalkStaysIn(up, from, all, p);
    var i, j := Pigeonhole(p, all);
    CutOut(up, from, p, i, j);
    RepeatIsCycle(up, from, ancestor, p[..i + 1], p[i + 1..j + 1]);
  }

  lemma RepeatIsCycle(up: Key -> set<Key>, from: Key, ancestor: string, p: seq<Key>, q: seq<Key>)
    requires IsWalk(up, from, p) && !Crosses(ancestor, p)
    requires IsWalk(up, p[|p| - 1], q) && q[|q| - 1] == p[|p| - 1] && !Crosses(ancestor, q)
    ensures CycleBefore(up, from, ancestor)
  {
    CrossesSplit(ancestor, p);
    assert Reaches(up, from, ancestor, p[|p| - 1]) && Returns(up, ancestor, p[|p| - 1], q);
  }

  ghost function Rounds(q: seq<Key>, n: nat): seq<Key> {
    if n == 0 then [] else Rounds(q, n - 1) + q
  }

  /** A walk into a cycle can go round it as often as one likes. */
  lemma {:induction false} GoRound(up: Key -> set<Key>, from: Key, ancestor: string, p: seq<Key>, q: seq<Key>, n: nat)
    requires IsWalk(up, from, p) && !Crosses(ancestor, p) && Returns(up, ancestor, p[|p| - 1], q)
    ensures var long := p + Rounds(q, n);
            IsWalk(up, from, long) && |long| >= |p| + n && long[|long| - 1] == p[|p| - 1] && !Crosses(ancestor, long)
  {
    if n == 0 {
      assert p + Rounds(q, n) == p;
    } else {
      GoRound(up, from, ancestor, p, q, n - 1);
      var before := p + Rounds(q, n - 1);
      assert p + Rounds(q, n) == before + q;
      WalkJoin(up, from, before, q);
    }
  }

  /** Acceptance covers every path, endless ones too, exactly when no cycle without the
      ancestor can be entered before it. */
  lemma EveryPathExactly(up: Key -> set<Key>, all: set<Key>, from: Key, ancestor: string)
    requires forall k :: up(k) <= all
    requires OnlyThrough(up, from, ancestor)
    ensures EveryPathCrosses(up, from, ancestor, |all|) <==> !CycleBefore(up, from, ancestor)
  {
    if CycleBefore(up, from, ancestor) {
      var k, q :| Reaches(up, from, ancestor, k) && k.name != ancestor && Returns(up, ancestor, k, q);
      var p: seq<Key> :| IsWalk(up, from, p) && p[|p| - 1] == k && !Crosses(ancestor, p[..|p| - 1]);
      CrossesSplit(ancestor, p);
      GoRound(up, from, ancestor, p, q, |all|);
      var long := p + Rounds(q, |all|);
      assert IsWalk(up, from, long) && |long| > |all| && !Crosses(ancestor, long);
    } else {
      forall p: seq<Key> | IsWalk(up, from, p) && |p| > |all| ensures Crosses(ancestor, p) {
        if !Crosses(ancestor, p) { LongWalkRepeats(up, from, ancestor, all, p); }
      }
    }
  }

  // ---------- The check ----------

  method BuildPackagesByName(packages: seq<Package>) returns (byName: map<string, set<Key>>)
    ensures Indexes(byName, packages)
  {
    byName := map[];
    for i := 0 to |packages|
      invariant Indexes(byName, packages[..i])
    {
      var k := PackageKey(packages[i]);
      ghost var was := byName;
      if k.Some? {
        byName := byName[k.value.name := Lookup(byName, k.value.name) + {k.value}];
      }
      forall n: string, x: Key ensures x in Lookup(byName, n) <==> x.name == n && Locked(packages[..i + 1], x) {
        LockedSnoc(packages, i, x);
        assert x in Lookup(was, n) <==> x.name == n && Locked(packages[..i], x);
      }
    }
    assert packages[..|packages|] == packages;
  }

  lemma LockedSnoc(packages: seq<Package>, i: nat, k: Key)
    requires i < |packages|
    ensures Locked(packages[..i + 1], k) <==> Locked(packages[..i], k) || PackageKey(packages[i]) == Some(k)
  {
    assert packages[..i + 1] == packages[..i] + [packages[i]];
    KeyIsNameAndVersion(packages[i], k);
  }

  ghost function Sources(edges: set<(Key, Key)>, k: Key): set<Key> {
    set e | e in edges && e.0 == k :: e.1
  }

  ghost function Dependents(packages: seq<Package>, byName: map<string, set<Key>>, k: Key): set<Key> {
    set p, e | p in packages && e in DependencyParentEdges(p, byName) && e.0 == k :: e.1
  }

  method AddEdges(was: map<Key, set<Key>>, edges: set<(Key, Key)>) returns (parents: map<Key, set<Key>>)
    ensures forall k :: Lookup(parents, k) == Lookup(was, k) + Sources(edges, k)
  {
    parents := was;
    var rest := edges;
    while rest != {}
      invariant rest <= edges
      invariant forall k :: Lookup(parents, k) == Lookup(was, k) + Sources(edges - rest, k)
    {
      var e :| e in rest;
      ghost var before, done := parents, edges - rest;
      parents := parents[e.0 := Lookup(parents, e.0) + {e.1}];
      rest := rest - {e};
      assert edges - rest == done + {e};
      forall k ensures Lookup(parents, k) == Lookup(was, k) + Sources(done + {e}, k) {
        assert Lookup(before, k) == Lookup(was, k) + Sources(done, k);
      }
    }
    assert edges - rest == edges;
  }

  method BuildParentMap(packages: seq<Package>, byName: map<string, set<Key>>)
    returns (parents: map<Key, set<Key>>)
    ensures forall k :: Lookup(parents, k) == Dependents(packages, byName, k)
  {
    parents := map[];
    for i := 0 to |packages|
      invariant forall k :: Lookup(parents, k) == Dependents(packages[..i], byName, k)
    {
      ghost var was := parents;
      parents := AddEdges(parents, DependencyParentEdges(packages[i], byName));
      assert packages[..i + 1] == packages[..i] + [packages[i]];
      forall k ensures Lookup(parents, k) == Dependents(packages[..i + 1], byName, k) {
        assert Lookup(was, k) == Dependents(packages[..i], byName, k);
      }
    }
    assert packages[..|packages|] == packages;
  }

  /** A set in the arbitrary order in which Python iterates it. */
  method SetToSeq(s: set<Key>) returns (r: seq<Key>)
    ensures forall x :: x in r <==> x in s
  {
    r := [];
    var rest := s;
    while rest != {}
      invariant rest <= s
      invariant forall x :: x in r <==> x in s - rest
    {
      var x :| x in rest;
      r := r + [x];
      rest := rest - {x};
    }
  }

  ghost function AllParents(parents: map<Key, set<Key>>): set<Key> {
    set k, x | k in parents && x in parents[k] :: x
  }

  /** `visited` is done: everything above it is visited or still pending. */
  ghost predicate Frontier(up: Key -> set<Key>, from: Key, ancestor: string, visited: set<Key>, pending: seq<Key>) {
    && (forall x | x in up(from) :: x in visited || x in pending)
    && (forall x, y | x in visited && x.name != ancestor && y in up(x) :: y in visited || y in pending)
    && (forall x | x in visited && x.name != ancestor :: up(x) != {})
  }

  ghost predicate AllReached(up: Key -> set<Key>, from: Key, ancestor: string, ks: set<Key>) {
    forall x | x in ks :: Reaches(up, from, ancestor, x)
  }

  lemma SearchExhausted(up: Key -> set<Key>, from: Key, ancestor: string, visited: set<Key>)
    requires Frontier(up, from, ancestor, visited, [])
    requires AllReached(up, from, ancestor, visited)
    ensures NoRootBefore(up, from, ancestor)
    ensures AncestorReached(up, from, ancestor) <==> exists x :: x in visited && x.name == ancestor
  {
    forall k | Reaches(up, from, ancestor, k) ensures k in visited {
      var p: seq<Key> :| IsWalk(up, from, p) && p[|p| - 1] == k && !Crosses(ancestor, p[..|p| - 1]);
      ClosedSetHoldsWalk(up, from, ancestor, visited, p);
    }
  }

  /** One turn of the search: the first pending package is visited, `more` joins the queue. */
  lemma FrontierStep(up: Key -> set<Key>, from: Key, ancestor: string,
                     visited: set<Key>, pending: seq<Key>, more: seq<Key>)
    requires pending != []
    requires Frontier(up, from, ancestor, visited, pending)
    requires || pending[0] in visited || pending[0].name == ancestor
             || (up(pending[0]) != {} && forall y | y in up(pending[0]) :: y in more)
    ensures Frontier(up, from, ancestor, visited + {pending[0]}, pending[1..] + more)
  {
  }

  lemma ReachedStep(up: Key -> set<Key>, from: Key, ancestor: string, k: Key)
    requires Reaches(up, from, ancestor, k) && k.name != ancestor
    ensures AllReached(up, from, ancestor, up(k))
    ensures NoRootBefore(up, from, ancestor) ==> up(k) != {}
  {
    forall x | x in up(k) ensures Reaches(up, from, ancestor, x) {
      ExtendReach(up, from, ancestor, k, x);
    }
  }

  lemma ReachedStart(up: Key -> set<Key>, from: Key, ancestor: string)
    ensures AllReached(up, from, ancestor, up(from))
  {
    forall x | x in up(from) ensures Reaches(up, from, ancestor, x) {
      StartReach(up, from, ancestor, x);
    }
  }

  /** Breadth-first search upwards from the vulnerable package, cut at the ancestor.
      `seen` is every package that has ever been queued. */
  method ReversePathsCrossExpectedAncestor(parents: map<Key, set<Key>>, from: Key, ancestor: string)
    returns (ok: bool)
    ensures ok <==> OnlyThrough(MapUp(parents), from, ancestor)
  {
    ghost var up, all := MapUp(parents), AllParents(parents);
    ReachedStart(up, from, ancestor);
    var pending := SetToSeq(Lookup(parents, from));
    var visited: set<Key> := {};
    var foundPath := false;
    ghost var seen := up(from);
    assert seen <= all;
    while pending != []
      invariant visited <= seen <= all && forall x | x in pending :: x in seen
      invariant AllReached(up, from, ancestor, seen)
      invariant Frontier(up, from, ancestor, visited, pending)
      invariant foundPath <==> exists x :: x in visited && x.name == ancestor
      decreases all - visited, |pending|
    {
      var parent := pending[0];
      var more: seq<Key> := [];
      if parent !in visited {
        if parent.name == ancestor {
          foundPath := true;
        } else {
          var parentDependencies := Lookup(parents, parent);
          ReachedStep(up, from, ancestor, parent);
          if parentDependencies == {} {
            OnlyThroughByReach(up, from, ancestor);
            return false;
          }
          more := SetToSeq(parentDependencies);
          seen := seen + up(parent);
        }
      }
      FrontierStep(up, from, ancestor, visited, pending, more);
      pending, visited := pending[1..] + more, visited + {parent};
    }
    SearchExhausted(up, from, ancestor, visited);
    OnlyThroughByReach(up, from, ancestor);
    return foundPath;
  }

  /** The map the script builds holds exactly the dependency relation of the lockfile. */
  lemma ParentMapIsDependsOn(packages: seq<Package>, byName: map<string, set<Key>>, parent: Key, k: Key)
    requires Indexes(byName, packages)
    ensures parent in Dependents(packages, byName, k) <==> DependsOn(packages, parent, k)
  {
    if parent in Dependents(packages, byName, k) {
      var p: Package, e :| p in packages && e in DependencyParentEdges(p, byName) && e.0 == k && e.1 == parent;
      var item: Value :| item in p["dependencies"].items && item.Str? && k in DependencyKeys(item.s, byName);
      ResolvesIsDependencyKeys(packages, byName, item.s, k);
      assert Lists(p, item.s);
    }
    if DependsOn(packages, parent, k) {
      var p: Package, d: string :|
        p in packages && Is(p, parent) && Lists(p, d) && Resolves(packages, d, k);
      ResolvesIsDependencyKeys(packages, byName, d, k);
      assert Str(d).Str? && Str(d).s == d;
      assert (k, parent) in DependencyParentEdges(p, byName);
    }
  }

  lemma {:induction false} FirstSpaceEndsName(name: string, rest: string)
    requires ' ' !in name
    ensures FirstSpace(name + " " + rest) == |name|
  {
    if name == [] {
      assert name + " " + rest == " " + rest;
    } else {
      assert (name + " " + rest)[1..] == name[1..] + " " + rest;
      FirstSpaceEndsName(name[1..], rest);
    }
  }

  lemma ResolvesIsDependencyKeys(packages: seq<Package>, byName: map<string, set<Key>>, d: string, k: Key)
    requires Indexes(byName, packages)
    ensures k in DependencyKeys(d, byName) <==> Resolves(packages, d, k)
  {
    var n := FirstSpace(d);
    if n < |d| {
      assert d == d[..n] + " " + d[n + 1..];
      if ' ' !in k.name && d == k.name + " " + k.version {
        FirstSpaceEndsName(k.name, k.version);
        assert d[..n] == k.name && d[n + 1..] == k.version;
      }
    } else {
      assert d[..n] == d;
    }
  }

  ghost function LockedKeys(packages: seq<Package>): set<Key> {
    set p | p in packages && PackageKey(p).Some? :: PackageKey(p).value
  }

  lemma LockedKeysAreLocked(packages: seq<Package>, k: Key)
    ensures k in LockedKeys(packages) <==> Locked(packages, k)
  {
    if k in LockedKeys(packages) {
      var p :| p in packages && PackageKey(p) == Some(k);
      KeyIsNameAndVersion(p, k);
    }
    if Locked(packages, k) {
      var p :| p in packages && Is(p, k);
      KeyIsNameAndVersion(p, k);
    }
  }

  ghost function LockfileUp(packages: seq<Package>): Key -> set<Key> {
    k => set parent | parent in LockedKeys(packages) && DependsOn(packages, parent, k)
  }

  lemma LockfileUpIsDependsOn(packages: seq<Package>, parent: Key, k: Key)
    ensures parent in LockfileUp(packages)(k) <==> DependsOn(packages, parent, k)
  {
    LockedKeysAreLocked(packages, parent);
  }

  lemma {:induction false} SameEdgesSameWalks(up: Key -> set<Key>, other: Key -> set<Key>, from: Key, p: seq<Key>)
    requires forall k :: up(k) == other(k)
    ensures IsWalk(up, from, p) <==> IsWalk(other, from, p)
  {
    if |p| > 1 { SameEdgesSameWalks(up, other, from, p[..|p| - 1]); }
  }

  lemma SameEdgesSameVerdict(up: Key -> set<Key>, other: Key -> set<Key>, from: Key, ancestor: string)
    requires forall k :: up(k) == other(k)
    ensures OnlyThrough(up, from, ancestor) <==> OnlyThrough(other, from, ancestor)
  {
    forall p ensures IsWalk(up, from, p) <==> IsWalk(other, from, p) {
      SameEdgesSameWalks(up, other, from, p);
    }
  }

  method HasOnlyExpectedDependencyPaths(packages: seq<Package>, vulnerable: Key, ancestor: string)
    returns (ok: bool)
    ensures ok <==> (Locked(packages, vulnerable) ==> OnlyThrough(LockfileUp(packages), vulnerable, ancestor))
  {
    var byName := BuildPackagesByName(packages);
    if vulnerable !in Lookup(byName, vulnerable.name) {
      return true;
    }
    var parents := BuildParentMap(packages, byName);
    ok := ReversePathsCrossExpectedAncestor(parents, vulnerable, ancestor);
    forall k ensures MapUp(parents)(k) == LockfileUp(packages)(k) {
      assert Lookup(parents, k) == Dependents(packages, byName, k);
      forall parent ensures parent in Dependents(packages, byName, k) <==> parent in LockfileUp(packages)(k) {
        ParentMapIsDependsOn(packages, byName, parent, k);
        LockfileUpIsDependsOn(packages, parent, k);
      }
    }
    SameEdgesSameVerdict(MapUp(parents), LockfileUp(packages), vulnerable, ancestor);
  }

  // ---------- Endless paths in a lockfile ----------

  /** For a lockfile the check accepts: every reverse path, however it goes on, meets the
      ancestor exactly when no dependency cycle without it can be entered before it. */
  lemma AcceptedPathsExactly(packages: seq<Package>, vulnerable: Key, ancestor: string)
    ensures OnlyThrough(LockfileUp(packages), vulnerable, ancestor) ==>
              (EveryPathCrosses(LockfileUp(packages), vulnerable, ancestor, |LockedKeys(packages)|) <==>
               !CycleBefore(LockfileUp(packages), vulnerable, ancestor))
  {
    if OnlyThrough(LockfileUp(packages), vulnerable, ancestor) {
      EveryPathExactly(LockfileUp(packages), LockedKeys(packages), vulnerable, ancestor);
    }
  }

  function Entry(name: string, dependencies: seq<Value>): Package {
    map["name" := Str(name), "version" := Str("1"), "dependencies" := List(dependencies)]
  }

  /** `a` and `b` depend on each other, and both `a` and `e` on `v`. */
  function CyclicLockfile(v: string, a: string, b: string, e: string): seq<Package> {
    [Entry(v, []), Entry(a, [Str(v), Str(b)]), Entry(b, [Str(a)]), Entry(e, [Str(v)])]
  }

  ghost predicate Distinct(v: string, a: string, b: string, e: string) {
    && v != a && v != b && v != e && a != b && a != e && b != e
    && ' ' !in v && ' ' !in a && ' ' !in b && ' ' !in e
  }

  lemma EntryFacts(name: string, dependencies: seq<Value>)
    ensures PackageKey(Entry(name, dependencies)) == Some(Key(name, "1"))
    ensures forall d :: Lists(Entry(name, dependencies), d) <==> Str(d) in dependencies
  {
  }

  /** A package that lists bare names depends on the locked packages of those names. */
  lemma ListsIsDependsOn(packages: seq<Package>, p: Package, parent: Key, k: Key)
    requires p in packages && forall q | q in packages :: Is(q, parent) <==> q == p
    requires forall d | Lists(p, d) :: ' ' !in d
    requires ' ' !in k.name
    ensures DependsOn(packages, parent, k) <==> Lists(p, k.name) && Locked(packages, k)
  {
    if Lists(p, k.name) && Locked(packages, k) {
      assert Resolves(packages, k.name, k);
    }
  }

  lemma CyclicKeys(v: string, a: string, b: string, e: string)
    requires Distinct(v, a, b, e)
    ensures var packages := CyclicLockfile(v, a, b, e);
            && (forall i | 0 <= i < 4 :: packages[i] in packages)
            && forall q | q in packages ::
                 && (PackageKey(q) == Some(Key(v, "1")) <==> q == packages[0])
                 && (PackageKey(q) == Some(Key(a, "1")) <==> q == packages[1])
                 && (PackageKey(q) == Some(Key(b, "1")) <==> q == packages[2])
                 && (PackageKey(q) == Some(Key(e, "1")) <==> q == packages[3])
                 && PackageKey(q).Some? && PackageKey(q).value in {Key(v, "1"), Key(a, "1"), Key(b, "1"), Key(e, "1")}
  {
    EntryFacts(v, []);
    EntryFacts(a, [Str(v), Str(b)]);
    EntryFacts(b, [Str(a)]);
    EntryFacts(e, [Str(v)]);
  }

  lemma CyclicDepends(v: string, a: string, b: string, e: string, k: string)
    requires Distinct(v, a, b, e) && k in {v, a, b}
    ensures var packages := CyclicLockfile(v, a, b, e);
            && !DependsOn(packages, Key(v, "1"), Key(k, "1"))
            && (DependsOn(packages, Key(a, "1"), Key(k, "1")) <==> k in {v, b})
            && (DependsOn(packages, Key(b, "1"), Key(k, "1")) <==> k == a)
            && (DependsOn(packages, Key(e, "1"), Key(k, "1")) <==> k == v)
  {
    var packages := CyclicLockfile(v, a, b, e);
    CyclicKeys(v, a, b, e);
    assert PackageKey(packages[if k == v then 0 else if k == a then 1 else 2]) == Some(Key(k, "1"));
    EntryFacts(v, []);
    EntryFacts(a, [Str(v), Str(b)]);
    EntryFacts(b, [Str(a)]);
    EntryFacts(e, [Str(v)]);
    ListsIsDependsOn(packages, packages[0], Key(v, "1"), Key(k, "1"));
    ListsIsDependsOn(packages, packages[1], Key(a, "1"), Key(k, "1"));
    ListsIsDependsOn(packages, packages[2], Key(b, "1"), Key(k, "1"));
    ListsIsDependsOn(packages, packages[3], Key(e, "1"), Key(k, "1"));
  }

  lemma CyclicEdges(v: string, a: string, b: string, e: string, k: string)
    requires Distinct(v, a, b, e) && k in {v, a, b}
    ensures LockfileUp(CyclicLockfile(v, a, b, e))(Key(k, "1")) ==
            if k == v then {Key(a, "1"), Key(e, "1")} else if k == a then {Key(b, "1")} else {Key(a, "1")}
  {
    CyclicKeys(v, a, b, e);
    CyclicDepends(v, a, b, e, k);
  }

  /** The check accepts every such lockfile, although one can go on asking who depends on
      this for ever without meeting `e`. */
  lemma CyclicLockfileIsAccepted(v: string, a: string, b: string, e: string)
    requires Distinct(v, a, b, e)
    ensures var packages := CyclicLockfile(v, a, b, e);
            && Locked(packages, Key(v, "1")) && OnlyThrough(LockfileUp(packages), Key(v, "1"), e)
            && !EveryPathCrosses(LockfileUp(packages), Key(v, "1"), e, |LockedKeys(packages)|)
  {
    var packages := CyclicLockfile(v, a, b, e);
    assert packages[0] in packages && PackageKey(packages[0]) == Some(Key(v, "1"));
    CyclicEdges(v, a, b, e, v);
    CyclicEdges(v, a, b, e, a);
    CyclicEdges(v, a, b, e, b);
    CycleIsAccepted(LockfileUp(packages), Key(v, "1"), Key(a, "1"), Key(b, "1"), Key(e, "1"));
    AcceptedPathsExactly(packages, Key(v, "1"), e);
  }

  lemma CycleIsAccepted(up: Key -> set<Key>, v: Key, a: Key, b: Key, e: Key)
    requires a.name != e.name && b.name != e.name
    requires up(v) == {a, e} && up(a) == {b} && up(b) == {a}
    ensures OnlyThrough(up, v, e.name) && CycleBefore(up, v, e.name)
  {
    StartReach(up, v, e.name, e);
    forall k | Reaches(up, v, e.name, k) ensures k.name == e.name || up(k) != {} {
      var q: seq<Key> :| IsWalk(up, v, q) && q[|q| - 1] == k && !Crosses(e.name, q[..|q| - 1]);
      ClosedSetHoldsWalk(up, v, e.name, {a, b, e}, q);
    }
    OnlyThroughByReach(up, v, e.name);
    StartReach(up, v, e.name, a);
    assert [b, a][..1] == [b] && IsWalk(up, a, [b]);
    assert Returns(up, e.name, a, [b, a]);
  }
}
