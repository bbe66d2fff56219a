/**
 Session and thread resolution for many users and channels.

 `resolve_thread` takes three map locks and a session lock in turn. Each region under
 a lock is one atomic step here, and any number of callers may be part-way through.
 Identifiers come from one counter, so a fresh one differs from all seen before.
 */
module Sessions {
  import opened Prelude

  type Uuid = nat

  datatype ThreadKey = ThreadKey(user: string, channel: string, external: Option<string>)

  datatype Session = Session(user: string, active: Option<Uuid>, threads: set<Uuid>)

  /** `store` holds what is behind the shared session handles, also of pruned ones. */
  datatype State = State(
    sessions: map<string, Uuid>,
    store: map<Uuid, Session>,
    threadMap: map<ThreadKey, Uuid>,
    undo: map<Uuid, Uuid>,
    next: Uuid)

  // ---------- What each locked region does ----------

  function ThreadsOf(s: State, session: Uuid): set<Uuid> {
    if session in s.store then s.store[session].threads else {}
  }

  function NewSession(s: State, user: string): State {
    s.(store := s.store[s.next := Session(user, None, {})], next := s.next + 1)
  }

  function WithSession(s: State, user: string): State {
    if user in s.sessions then s else NewSession(s, user).(sessions := s.sessions[user := s.next])
  }

  /** An id that comes from outside: later ones differ from it. */
  function Noted(s: State, id: Uuid): State {
    s.(next := if s.next <= id then id + 1 else s.next)
  }

  /** Another part of the agent, or hydration from the database, puts a thread in a session. */
  function AddThread(s: State, session: Uuid, thread: Uuid): State {
    if session !in s.store then s else
    var was := s.store[session];
    Noted(s, thread).(store := s.store[session := Session(was.user, Some(thread), was.threads + {thread})])
  }

  function CreateThread(s: State, session: Uuid): State {
    AddThread(s, session, s.next)
  }

  function BindKey(s: State, key: ThreadKey, thread: Uuid): State {
    s.(threadMap := s.threadMap[key := thread])
  }

  predicate MappedSomewhere(s: State, thread: Uuid) {
    thread in s.threadMap.Values
  }

  function EnsureUndo(s: State, thread: Uuid): State {
    if thread in s.undo then s else ReplaceUndo(s, thread)
  }

  function ReplaceUndo(s: State, thread: Uuid): State {
    s.(undo := s.undo[thread := s.next], next := s.next + 1)
  }

  // ---------- One call of resolve_thread ----------

  /** Where a call stands: the next locked region it will enter. */
  datatype Pc =
    | Find
    | Insert
    | Mapped(session: Uuid)
    | Elsewhere(session: Uuid, named: Uuid)
    | Contains(session: Uuid, named: Uuid)
    | Adopt(session: Uuid, named: Uuid)
    | AdoptUndo(session: Uuid, thread: Uuid)
    | Create(session: Uuid)
    | StoreMap(session: Uuid, thread: Uuid)
    | StoreUndo(session: Uuid, thread: Uuid)
    | Done(session: Uuid, thread: Uuid)

  datatype Call = Call(key: ThreadKey, pc: Pc)

  function NamedThread(parse: string -> Option<Uuid>, key: ThreadKey): Option<Uuid> {
    if key.external.Some? then parse(key.external.value) else None
  }

  function CallStep(parse: string -> Option<Uuid>, s: State, c: Call): (State, Call) {
    match c.pc
    case Find =>
      (s, c.(pc := if c.key.user in s.sessions then Mapped(s.sessions[c.key.user]) else Insert))
    case Insert =>
      var s' := WithSession(s, c.key.user);
      (s', c.(pc := Mapped(s'.sessions[c.key.user])))
    case Mapped(session) =>
      if c.key in s.threadMap && s.threadMap[c.key] in ThreadsOf(s, session)
      then (s, c.(pc := Done(session, s.threadMap[c.key])))
      else
        var named := NamedThread(parse, c.key);
        (s, c.(pc := if named.Some? then Elsewhere(session, named.value) else Create(session)))
    case Elsewhere(session, named) =>
      (s, c.(pc := if MappedSomewhere(s, named) then Create(session) else Contains(session, named)))
    case Contains(session, named) =>
      (s, c.(pc := if named in ThreadsOf(s, session) then Adopt(session, named) else Create(session)))
    case Adopt(session, named) =>
      if MappedSomewhere(s, named) then (s, c.(pc := Create(session)))
      else (BindKey(s, c.key, named), c.(pc := AdoptUndo(session, named)))
    case AdoptUndo(session, thread) =>
      (EnsureUndo(s, thread), c.(pc := Done(session, thread)))
    case Create(session) =>
      (CreateThread(s, session), c.(pc := StoreMap(session, s.next)))
    case StoreMap(session, thread) =>
      (BindKey(s, c.key, thread), c.(pc := StoreUndo(session, thread)))
    case StoreUndo(session, thread) =>
      (ReplaceUndo(s, thread), c.(pc := Done(session, thread)))
    case Done(_, _) => (s, c)
  }

  predicate HasSession(pc: Pc) { !pc.Find? && !pc.Insert? }

  predicate HasThread(pc: Pc) { pc.AdoptUndo? || pc.StoreMap? || pc.StoreUndo? || pc.Done? }

  // ---------- All callers together ----------

  /** `claims` records every key a thread was ever created, adopted or registered for. */
  datatype World = World(s: State, calls: seq<Call>, claims: set<(Uuid, ThreadKey)>)

  datatype Step =
    | Begin(key: ThreadKey)
    | Advance(i: nat)
    | OtherSession(user: string)
    | OtherThread(session: Uuid, thread: Uuid)
    | UndoFor(thread: Uuid)
    | RegisterMap(key: ThreadKey, thread: Uuid)
    | RegisterSession(user: string, session: Uuid)
    | PruneSessions(users: set<string>)
    | PruneMap(users: set<string>)
    | PruneUndo(threads: set<Uuid>)

  ghost predicate Enabled(w: World, st: Step) {
    match st
    case Advance(i) => i < |w.calls|
    case RegisterSession(_, session) => session in w.s.store
    case _ => true
  }

  ghost function NewClaims(before: Pc, after: Call): set<(Uuid, ThreadKey)> {
    if !HasThread(before) && (after.pc.AdoptUndo? || after.pc.StoreMap?) then {(after.pc.thread, after.key)} else {}
  }

  ghost function Apply(parse: string -> Option<Uuid>, w: World, st: Step): World {
    match st
    case Begin(key) => w.(calls := w.calls + [Call(key, Find)])
    case Advance(i) =>
      if |w.calls| <= i then w else
      var (s', c') := CallStep(parse, w.s, w.calls[i]);
      World(s', w.calls[i := c'], w.claims + NewClaims(w.calls[i].pc, c'))
    case OtherSession(user) => w.(s := NewSession(w.s, user))
    case OtherThread(session, thread) => w.(s := AddThread(w.s, session, thread))
    case UndoFor(thread) => w.(s := EnsureUndo(w.s, thread))
    case RegisterMap(key, thread) =>
      w.(s := BindKey(Noted(w.s, thread), key, thread), claims := w.claims + {(thread, key)})
    case RegisterSession(user, session) =>
      if user in w.s.sessions then w else w.(s := w.s.(sessions := w.s.sessions[user := session]))
    case PruneSessions(users) => w.(s := w.s.(sessions := w.s.sessions - users))
    case PruneMap(users) =>
      w.(s := w.s.(threadMap := map k | k in w.s.threadMap && k.user !in users :: w.s.threadMap[k]))
    case PruneUndo(threads) => w.(s := w.s.(undo := w.s.undo - threads))
  }

  ghost function Run(parse: string -> Option<Uuid>, w: World, steps: seq<Step>): World {
    if steps == [] then w
    else Apply(parse, Run(parse, w, steps[..|steps| - 1]), steps[|steps| - 1])
  }

  ghost predicate Legal(parse: string -> Option<Uuid>, w: World, steps: seq<Step>) {
    steps == [] ||
    (Legal(parse, w, steps[..|steps| - 1]) && Enabled(Run(parse, w, steps[..|steps| - 1]), steps[|steps| - 1]))
  }

  /** No step of the run is of the given kind at the moment it is taken. */
  ghost predicate Avoids(parse: string -> Option<Uuid>, w: World, steps: seq<Step>, bad: (World, Step) -> bool) {
    steps == [] ||
    (Avoids(parse, w, steps[..|steps| - 1], bad) && !bad(Run(parse, w, steps[..|steps| - 1]), steps[|steps| - 1]))
  }

  ghost const START: World := World(State(map[], map[], map[], map[], 0), [], {})

  // ---------- Every interleaving: a returned thread is in the returned session ----------

  ghost predicate StateOk(s: State) {
    && (forall k | k in s.threadMap :: s.threadMap[k] < s.next)
    && (forall x | x in s.store :: x < s.next)
    && (forall x, t | x in s.store && t in s.store[x].threads :: t < s.next)
    && (forall u | u in s.sessions :: s.sessions[u] in s.store)
  }

  ghost predicate CallOk(s: State, c: Call) {
    && (HasSession(c.pc) ==> c.pc.session in s.store)
    && (c.pc.Adopt? ==> c.pc.named in s.store[c.pc.session].threads)
    && (HasThread(c.pc) ==> c.pc.thread in s.store[c.pc.session].threads)
  }

  ghost predicate ClaimsOk(w: World) {
    && (forall k | k in w.s.threadMap :: (w.s.threadMap[k], k) in w.claims)
    && (forall c | c in w.calls && HasThread(c.pc) :: (c.pc.thread, c.key) in w.claims)
    && (forall x | x in w.claims :: x.0 < w.s.next)
  }

  ghost predicate Inv(w: World) {
    && StateOk(w.s)
    && (forall c | c in w.calls :: CallOk(w.s, c))
    && ClaimsOk(w)
  }

  /** Sessions are never emptied and never change hands. */
  ghost predicate Grows(s: State, s': State) {
    && s.next <= s'.next
    && forall x | x in s.store ::
         x in s'.store && s'.store[x].user == s.store[x].user && s.store[x].threads <= s'.store[x].threads
  }

  lemma WithSessionOk(s: State, user: string)
    requires StateOk(s)
    ensures var s' := WithSession(s, user); StateOk(s') && Grows(s, s') && s'.sessions[user] in s'.store
  {
  }

  lemma AddThreadOk(s: State, session: Uuid, thread: Uuid)
    requires StateOk(s)
    ensures var s' := AddThread(s, session, thread);
            StateOk(s') && Grows(s, s') && (session in s.store ==> thread in s'.store[session].threads)
  {
  }

  lemma CallStepOk(parse: string -> Option<Uuid>, s: State, c: Call)
    requires StateOk(s) && CallOk(s, c)
    ensures var (s', c') := CallStep(parse, s, c);
            StateOk(s') && CallOk(s', c') && Grows(s, s') && c'.key == c.key
  {
    match c.pc
    case Insert => WithSessionOk(s, c.key.user);
    case Create(session) => AddThreadOk(s, session, s.next);
    case _ =>
  }

  /** One call: what it holds and what the map holds are claimed, before and after. */
  lemma CallStepClaims(parse: string -> Option<Uuid>, s: State, c: Call, claims: set<(Uuid, ThreadKey)>)
    requires StateOk(s) && CallOk(s, c)
    requires HasThread(c.pc) ==> (c.pc.thread, c.key) in claims
    requires forall k | k in s.threadMap :: (s.threadMap[k], k) in claims
    ensures var (s', c') := CallStep(parse, s, c);
            var claims' := claims + NewClaims(c.pc, c');
            && (HasThread(c'.pc) ==> (c'.pc.thread, c.key) in claims')
            && (forall k | k in s'.threadMap :: (s'.threadMap[k], k) in claims')
            && (forall x | x in NewClaims(c.pc, c') :: x.0 < s'.next)
  {
  }

  lemma AdvanceClaims(parse: string -> Option<Uuid>, w: World, i: nat)
    requires Inv(w) && i < |w.calls|
    ensures ClaimsOk(Apply(parse, w, Advance(i)))
  {
    assert w.calls[i] in w.calls;
    CallStepOk(parse, w.s, w.calls[i]);
    CallStepClaims(parse, w.s, w.calls[i], w.claims);
    var w' := Apply(parse, w, Advance(i));
    forall d | d in w'.calls && HasThread(d.pc) ensures (d.pc.thread, d.key) in w'.claims {
      assert d == w'.calls[i] || d in w.calls;
    }
  }

  lemma OtherStepOk(parse: string -> Option<Uuid>, w: World, st: Step)
    requires Inv(w) && Enabled(w, st) && !st.Advance?
    ensures var w' := Apply(parse, w, st); StateOk(w'.s) && Grows(w.s, w'.s) && ClaimsOk(w')
  {
    if st.OtherThread? { AddThreadOk(w.s, st.session, st.thread); }
  }

  lemma StepKeepsInv(parse: string -> Option<Uuid>, w: World, st: Step)
    requires Inv(w) && Enabled(w, st)
    ensures Inv(Apply(parse, w, st)) && Grows(w.s, Apply(parse, w, st).s)
  {
    var w' := Apply(parse, w, st);
    if st.Advance? {
      assert w.calls[st.i] in w.calls;
      CallStepOk(parse, w.s, w.calls[st.i]);
      AdvanceClaims(parse, w, st.i);
    } else {
      OtherStepOk(parse, w, st);
    }
    forall c | c in w'.calls ensures CallOk(w'.s, c) {
      assert c in w.calls || (st.Begin? && c.pc.Find?) || (st.Advance? && c == CallStep(parse, w.s, w.calls[st.i]).1);
    }
  }

  lemma {:induction false} ReachableInv(parse: string -> Option<Uuid>, w: World, steps: seq<Step>)
    requires Inv(w) && Legal(parse, w, steps)
    ensures Inv(Run(parse, w, steps))
  {
    if steps != [] {
      ReachableInv(parse, w, steps[..|steps| - 1]);
      StepKeepsInv(parse, Run(parse, w, steps[..|steps| - 1]), steps[|steps| - 1]);
    }
  }

  /** Whatever else runs, pruning and registration included. */
  lemma ReturnedThreadIsInSession(parse: string -> Option<Uuid>, steps: seq<Step>, i: nat)
    requires Legal(parse, START, steps)
    requires i < |Run(parse, START, steps).calls| && Run(parse, START, steps).calls[i].pc.Done?
    ensures var w := Run(parse, START, steps);
            var c := w.calls[i];
            c.pc.session in w.s.store && c.pc.thread in w.s.store[c.pc.session].threads
  {
    ReachableInv(parse, START, steps);
    var w := Run(parse, START, steps);
    assert w.calls[i] in w.calls;
  }

  // ---------- The session is the user's own ----------

  ghost predicate OwnCall(s: State, c: Call)
    requires CallOk(s, c)
  {
    HasSession(c.pc) ==> s.store[c.pc.session].user == c.key.user
  }

  ghost predicate OwnSessions(w: World)
    requires Inv(w)
  {
    OwnTables(w.s) && forall c | c in w.calls :: OwnCall(w.s, c)
  }

  /** A registration brings a session made for somebody else. */
  ghost predicate RegistersForeign(w: World, st: Step) {
    && st.RegisterSession? && st.user !in w.s.sessions
    && st.session in w.s.store && w.s.store[st.session].user != st.user
  }

  ghost predicate OwnTables(s: State)
    requires StateOk(s)
  {
    forall u | u in s.sessions :: s.store[s.sessions[u]].user == u
  }

  lemma OwnCallStep(parse: string -> Option<Uuid>, s: State, c: Call)
    requires StateOk(s) && CallOk(s, c) && OwnTables(s) && OwnCall(s, c)
    ensures var (s', c') := CallStep(parse, s, c); StateOk(s') && CallOk(s', c') && OwnTables(s') && OwnCall(s', c')
  {
    CallStepOk(parse, s, c);
  }

  lemma OwnAdvance(parse: string -> Option<Uuid>, w: World, i: nat)
    requires Inv(w) && OwnSessions(w) && i < |w.calls|
    ensures Inv(Apply(parse, w, Advance(i))) && OwnSessions(Apply(parse, w, Advance(i)))
  {
    var w' := Apply(parse, w, Advance(i));
    StepKeepsInv(parse, w, Advance(i));
    assert w.calls[i] in w.calls;
    OwnCallStep(parse, w.s, w.calls[i]);
    forall c | c in w'.calls ensures OwnCall(w'.s, c) {
      assert c in w.calls || c == CallStep(parse, w.s, w.calls[i]).1;
    }
  }

  /** Sessions stay with their users exactly when a step does not register a foreign one. */
  lemma OwnSessionsExactly(parse: string -> Option<Uuid>, w: World, st: Step)
    requires Inv(w) && OwnSessions(w) && Enabled(w, st)
    ensures Inv(Apply(parse, w, st)) && (OwnSessions(Apply(parse, w, st)) <==> !RegistersForeign(w, st))
  {
    StepKeepsInv(parse, w, st);
    if st.Advance? {
      OwnAdvance(parse, w, st.i);
    } else if RegistersForeign(w, st) {
      assert st.user in Apply(parse, w, st).s.sessions;
    } else {
      assert forall c | c in Apply(parse, w, st).calls :: c in w.calls || c.pc.Find?;
    }
  }

  /** If every step avoids that, every session a call has is its user's own. */
  lemma {:induction false} SessionsAreOwn(parse: string -> Option<Uuid>, steps: seq<Step>)
    requires Legal(parse, START, steps) && Avoids(parse, START, steps, RegistersForeign)
    ensures Inv(Run(parse, START, steps)) && OwnSessions(Run(parse, START, steps))
  {
    if steps != [] {
      var head := steps[..|steps| - 1];
      SessionsAreOwn(parse, head);
      OwnSessionsExactly(parse, Run(parse, START, head), steps[|steps| - 1]);
    }
  }

  // ---------- One session per user ----------

  predicate InFlight(pc: Pc) { HasSession(pc) && !pc.Done? }

  ghost predicate OneSession(w: World) {
    forall c | c in w.calls && InFlight(c.pc) ::
      c.key.user in w.s.sessions && w.s.sessions[c.key.user] == c.pc.session
  }

  ghost predicate PrunesHeldSession(w: World, st: Step) {
    st.PruneSessions? && exists c :: c in w.calls && InFlight(c.pc) && c.key.user in st.users
  }

  /** The calls in flight have their users' current sessions, exactly as long as no step
      prunes a session that one of them has. */
  lemma OneSessionExactly(parse: string -> Option<Uuid>, w: World, st: Step)
    requires OneSession(w) && Enabled(w, st)
    ensures OneSession(Apply(parse, w, st)) <==> !PrunesHeldSession(w, st)
  {
    var w' := Apply(parse, w, st);
    if st.Advance? {
      forall d | d in w'.calls && InFlight(d.pc)
        ensures d.key.user in w'.s.sessions && w'.s.sessions[d.key.user] == d.pc.session
      {
        assert d == CallStep(parse, w.s, w.calls[st.i]).1 || d in w.calls;
      }
    }
  }

  lemma SameUserSameSession(parse: string -> Option<Uuid>, steps: seq<Step>, i: nat, j: nat)
    requires Legal(parse, START, steps) && Avoids(parse, START, steps, PrunesHeldSession)
    requires var calls := Run(parse, START, steps).calls;
             && i < |calls| && j < |calls| && InFlight(calls[i].pc) && InFlight(calls[j].pc)
             && calls[i].key.user == calls[j].key.user
    ensures var calls := Run(parse, START, steps).calls; calls[i].pc.session == calls[j].pc.session
  {
    OneSessionRun(parse, steps);
    var calls := Run(parse, START, steps).calls;
    assert calls[i] in calls && calls[j] in calls;
  }

  lemma {:induction false} OneSessionRun(parse: string -> Option<Uuid>, steps: seq<Step>)
    requires Legal(parse, START, steps) && Avoids(parse, START, steps, PrunesHeldSession)
    ensures OneSession(Run(parse, START, steps))
  {
    if steps != [] {
      var head := steps[..|steps| - 1];
      OneSessionRun(parse, head);
      OneSessionExactly(parse, Run(parse, START, head), steps[|steps| - 1]);
    }
  }

  /** All calls of the user, finished ones too, have the user's current session. */
  ghost predicate Faithful(w: World, user: string) {
    forall c | c in w.calls && HasSession(c.pc) && c.key.user == user ::
      user in w.s.sessions && w.s.sessions[user] == c.pc.session
  }

  predicate PrunesUser(st: Step, user: string) { st.PruneSessions? && user in st.users }

  lemma FaithfulStep(parse: string -> Option<Uuid>, w: World, st: Step, user: string)
    requires Faithful(w, user) && Enabled(w, st) && !PrunesUser(st, user)
    ensures Faithful(Apply(parse, w, st), user)
  {
    var w' := Apply(parse, w, st);
    if st.Advance? {
      forall d | d in w'.calls && HasSession(d.pc) && d.key.user == user
        ensures user in w'.s.sessions && w'.s.sessions[user] == d.pc.session
      {
        assert d == CallStep(parse, w.s, w.calls[st.i]).1 || d in w.calls;
      }
    }
  }

  lemma {:induction false} FaithfulRun(parse: string -> Option<Uuid>, steps: seq<Step>, user: string)
    requires Legal(parse, START, steps) && forall st | st in steps :: !PrunesUser(st, user)
    ensures Faithful(Run(parse, START, steps), user)
  {
    if steps != [] {
      var head := steps[..|steps| - 1];
      assert steps[|steps| - 1] in steps;
      FaithfulRun(parse, head, user);
      FaithfulStep(parse, Run(parse, START, head), steps[|steps| - 1], user);
    }
  }

  /** As long as a user's session is never pruned all calls of that user ever get one session. */
  lemma OneSessionPerUser(parse: string -> Option<Uuid>, steps: seq<Step>, i: nat, j: nat)
    requires Legal(parse, START, steps)
    requires var calls := Run(parse, START, steps).calls;
             && i < |calls| && j < |calls| && HasSession(calls[i].pc) && HasSession(calls[j].pc)
             && calls[i].key.user == calls[j].key.user
             && forall st | st in steps :: !PrunesUser(st, calls[i].key.user)
    ensures var calls := Run(parse, START, steps).calls; calls[i].pc.session == calls[j].pc.session
  {
    var calls := Run(parse, START, steps).calls;
    FaithfulRun(parse, steps, calls[i].key.user);
    assert calls[i] in calls && calls[j] in calls;
  }

  // ---------- Channel isolation of the thread map ----------

  ghost predicate OneToOne(m: map<ThreadKey, Uuid>) {
    forall a, b | a in m && b in m && m[a] == m[b] :: a == b
  }

  /** A thread was created but its mapping is not stored yet. */
  ghost predicate Pending(w: World, thread: Uuid) {
    exists i :: 0 <= i < |w.calls| && w.calls[i].pc.StoreMap? && w.calls[i].pc.thread == thread
  }

  ghost predicate Isolated(w: World) {
    && OneToOne(w.s.threadMap)
    && (forall k | k in w.s.threadMap :: !Pending(w, w.s.threadMap[k]))
    && (forall i, j | 0 <= i < j < |w.calls| && w.calls[i].pc.StoreMap? && w.calls[j].pc.StoreMap? ::
          w.calls[i].pc.thread != w.calls[j].pc.thread)
  }

  /** An external id names a thread in the window between its creation and its mapping. */
  ghost predicate AdoptsPending(w: World, st: Step) {
    && st.Advance? && st.i < |w.calls|
    && w.calls[st.i].pc.Adopt?
    && !MappedSomewhere(w.s, w.calls[st.i].pc.named)
    && Pending(w, w.calls[st.i].pc.named)
  }

  ghost predicate RegistersTaken(w: World, st: Step) {
    && st.RegisterMap?
    && (Pending(w, st.thread) || exists k :: k in w.s.threadMap && k != st.key && w.s.threadMap[k] == st.thread)
  }

  ghost predicate BreaksIsolation(w: World, st: Step) {
    AdoptsPending(w, st) || RegistersTaken(w, st)
  }

  /** The thread a call's next region gives it, if it does. */
  function Gains(s: State, c: Call): Option<Uuid> {
    if c.pc.Mapped? && c.key in s.threadMap && s.threadMap[c.key] in ThreadsOf(s, c.pc.session)
    then Some(s.threadMap[c.key])
    else if c.pc.Adopt? && !MappedSomewhere(s, c.pc.named) then Some(c.pc.named)
    else if c.pc.Create? then Some(s.next)
    else None
  }

  /** The binding a call's next region stores in the map, if it does. */
  function Stores(s: State, c: Call): Option<Uuid> {
    if c.pc.StoreMap? then Some(c.pc.thread)
    else if c.pc.Adopt? && !MappedSomewhere(s, c.pc.named) then Some(c.pc.named)
    else None
  }

  /** What an advancing call can do to the map, the claims and its own thread, with the rest
      of it hidden. */
  ghost predicate BindsOnly(w: World, w': World, i: nat) {
    && i < |w.calls| && |w'.calls| == |w.calls|
    && (forall j | 0 <= j < |w.calls| && j != i :: w'.calls[j] == w.calls[j])
    && w'.calls[i].key == w.calls[i].key
    && (w'.calls[i].pc.StoreMap? <==> w.calls[i].pc.Create?)
    && (HasThread(w.calls[i].pc) ==> HasThread(w'.calls[i].pc) && w'.calls[i].pc.thread == w.calls[i].pc.thread)
    && (!HasThread(w.calls[i].pc) ==>
          && (HasThread(w'.calls[i].pc) <==> Gains(w.s, w.calls[i]).Some?)
          && (HasThread(w'.calls[i].pc) ==> w'.calls[i].pc.thread == Gains(w.s, w.calls[i]).value))
    && w'.s.threadMap == (if Stores(w.s, w.calls[i]).Some?
                          then w.s.threadMap[w.calls[i].key := Stores(w.s, w.calls[i]).value]
                          else w.s.threadMap)
    && w'.claims == (if w.calls[i].pc.Create? || (w.calls[i].pc.Adopt? && Gains(w.s, w.calls[i]).Some?)
                     then w.claims + {(Gains(w.s, w.calls[i]).value, w.calls[i].key)}
                     else w.claims)
  }

  lemma AdvanceBindsOnly(parse: string -> Option<Uuid>, w: World, i: nat)
    requires i < |w.calls|
    ensures BindsOnly(w, Apply(parse, w, Advance(i)), i)
  {}

  lemma IsolatedAdvance(w: World, w': World, i: nat)
    requires Inv(w) && Isolated(w) && BindsOnly(w, w', i) && !AdoptsPending(w, Advance(i))
    ensures Isolated(w')
  {
    var c := w.calls[i];
    assert c in w.calls;
    forall t | Pending(w', t) ensures Pending(w, t) || (c.pc.Create? && t == w.s.next) {
      var j :| 0 <= j < |w'.calls| && w'.calls[j].pc.StoreMap? && w'.calls[j].pc.thread == t;
      assert j != i ==> w'.calls[j] == w.calls[j];
    }
    if c.pc.StoreMap? {
      assert Pending(w, c.pc.thread);
      assert !Pending(w', c.pc.thread);
    }
    if c.pc.Create? {
      forall j | 0 <= j < |w.calls| && w.calls[j].pc.StoreMap? ensures w.calls[j].pc.thread < w.s.next {
        assert w.calls[j] in w.calls;
      }
    }
  }

  lemma IsolationBroken(parse: string -> Option<Uuid>, w: World, st: Step)
    requires Inv(w) && Enabled(w, st) && BreaksIsolation(w, st)
    ensures !Isolated(Apply(parse, w, st))
  {
    var w' := Apply(parse, w, st);
    if AdoptsPending(w, st) {
      var c := w.calls[st.i];
      var j :| 0 <= j < |w.calls| && w.calls[j].pc.StoreMap? && w.calls[j].pc.thread == c.pc.named;
      assert w'.calls[j] == w.calls[j] && Pending(w', c.pc.named) && w'.s.threadMap[c.key] == c.pc.named;
    } else {
      assert w'.calls == w.calls && w'.s.threadMap[st.key] == st.thread;
      if Pending(w, st.thread) {
        assert Pending(w', st.thread);
      } else {
        var k :| k in w.s.threadMap && k != st.key && w.s.threadMap[k] == st.thread;
        assert w'.s.threadMap[k] == st.thread;
      }
    }
  }

  /** Isolation survives a step exactly when the step does not bind a thread that another
      call is still creating, or that a registration finds bound under another key. */
  lemma IsolationExactly(parse: string -> Option<Uuid>, w: World, st: Step)
    requires Inv(w) && Isolated(w) && Enabled(w, st)
    ensures Isolated(Apply(parse, w, st)) <==> !BreaksIsolation(w, st)
  {
    var w' := Apply(parse, w, st);
    if BreaksIsolation(w, st) {
      IsolationBroken(parse, w, st);
    } else if st.Advance? {
      AdvanceBindsOnly(parse, w, st.i);
      IsolatedAdvance(w, w', st.i);
    } else if st.Begin? {
      forall t ensures Pending(w', t) <==> Pending(w, t) {
        if Pending(w, t) {
          var j :| 0 <= j < |w.calls| && w.calls[j].pc.StoreMap? && w.calls[j].pc.thread == t;
          assert w'.calls[j] == w.calls[j];
        }
      }
    } else {
      assert w'.calls == w.calls;
      assert forall t :: Pending(w', t) <==> Pending(w, t);
    }
  }

  lemma {:induction false} DistinctKeysDistinctThreads(parse: string -> Option<Uuid>, steps: seq<Step>)
    requires Legal(parse, START, steps) && Avoids(parse, START, steps, BreaksIsolation)
    ensures Isolated(Run(parse, START, steps)) && OneToOne(Run(parse, START, steps).s.threadMap)
  {
    if steps != [] {
      var head := steps[..|steps| - 1];
      DistinctKeysDistinctThreads(parse, head);
      ReachableInv(parse, START, head);
      IsolationExactly(parse, Run(parse, START, head), steps[|steps| - 1]);
    }
  }

  // ---------- Threads handed out over time ----------

  /** No thread was ever claimed for two keys. */
  ghost predicate Exclusive(w: World) {
    forall t, a, b | (t, a) in w.claims && (t, b) in w.claims :: a == b
  }

  ghost predicate Storing(w: World, t: Uuid, k: ThreadKey) {
    exists i :: 0 <= i < |w.calls| && w.calls[i].pc.StoreMap? && w.calls[i].pc.thread == t && w.calls[i].key == k
  }

  /** Every claim is in the map or about to be stored there. */
  ghost predicate ClaimsLive(w: World) {
    forall x | x in w.claims ::
      (x.1 in w.s.threadMap && w.s.threadMap[x.1] == x.0) || Storing(w, x.0, x.1)
  }

  /** A mapping is overwritten by another thread, or dropped. */
  ghost predicate Unbinds(w: World, st: Step) {
    match st
    case Advance(i) =>
      && i < |w.calls| && Stores(w.s, w.calls[i]).Some? && w.calls[i].key in w.s.threadMap
      && w.s.threadMap[w.calls[i].key] != Stores(w.s, w.calls[i]).value
    case RegisterMap(key, thread) => key in w.s.threadMap && w.s.threadMap[key] != thread
    case PruneMap(users) => exists k :: k in w.s.threadMap && k.user in users
    case _ => false
  }

  lemma LiveAdvance(w: World, w': World, i: nat)
    requires ClaimsLive(w) && BindsOnly(w, w', i) && !Unbinds(w, Advance(i))
    ensures ClaimsLive(w')
  {
    var c := w.calls[i];
    forall x | x in w'.claims
      ensures (x.1 in w'.s.threadMap && w'.s.threadMap[x.1] == x.0) || Storing(w', x.0, x.1)
    {
      if x !in w.claims {
        assert c.pc.Create? ==> w'.calls[i].pc.StoreMap? && w'.calls[i].pc.thread == x.0;
      } else if Storing(w, x.0, x.1) {
        var j :| 0 <= j < |w.calls| && w.calls[j].pc.StoreMap? && w.calls[j].pc.thread == x.0 && w.calls[j].key == x.1;
        assert j != i ==> w'.calls[j] == w.calls[j];
      }
    }
  }

  /** The claim is on record, and nothing in the tables or on its way there shows it. */
  ghost predicate Orphaned(w: World, t: Uuid, key: ThreadKey) {
    (t, key) in w.claims && !MappedSomewhere(w.s, t) && !Pending(w, t)
  }

  lemma OrphanIsNotLive(w: World, t: Uuid, key: ThreadKey)
    requires Orphaned(w, t, key)
    ensures !ClaimsLive(w)
  {
    assert Storing(w, t, key) ==> Pending(w, t);
    assert key in w.s.threadMap ==> w.s.threadMap[key] in w.s.threadMap.Values;
  }

  lemma UnbindAdvance(w: World, w': World, i: nat)
    requires Inv(w) && Isolated(w) && BindsOnly(w, w', i) && Unbinds(w, Advance(i))
    ensures Orphaned(w', w.s.threadMap[w.calls[i].key], w.calls[i].key)
  {
    var t := w.s.threadMap[w.calls[i].key];
    assert !Pending(w, t);
    forall j | 0 <= j < |w'.calls| && w'.calls[j].pc.StoreMap? ensures w'.calls[j].pc.thread != t {
      assert j != i ==> w'.calls[j] == w.calls[j];
    }
  }

  lemma StoringSame(w: World, w': World)
    requires w'.calls == w.calls
    ensures forall t, k :: Storing(w', t, k) <==> Storing(w, t, k)
  {
  }

  /** While keys are isolated, every claim stays live exactly when a step does not overwrite
      or drop a mapping. */
  lemma LiveExactly(parse: string -> Option<Uuid>, w: World, st: Step)
    requires Inv(w) && Isolated(w) && ClaimsLive(w) && Enabled(w, st)
    ensures ClaimsLive(Apply(parse, w, st)) <==> !Unbinds(w, st)
  {
    var w' := Apply(parse, w, st);
    if Unbinds(w, st) {
      var t, key := UnbindsOrphans(parse, w, st);
      OrphanIsNotLive(w', t, key);
    } else if st.Advance? {
      AdvanceBindsOnly(parse, w, st.i);
      LiveAdvance(w, w', st.i);
    } else if st.Begin? {
      forall t, k | Storing(w, t, k) ensures Storing(w', t, k) {
        var j :| 0 <= j < |w.calls| && w.calls[j].pc.StoreMap? && w.calls[j].pc.thread == t && w.calls[j].key == k;
        assert w'.calls[j] == w.calls[j];
      }
    } else {
      StoringSame(w, w');
    }
  }

  lemma UnbindOther(w: World, w': World, st: Step, key: ThreadKey)
    requires Inv(w) && Isolated(w) && key in w.s.threadMap && w'.calls == w.calls && w.claims <= w'.claims
    requires || (st.RegisterMap? && key == st.key && w.s.threadMap[key] != st.thread
                 && w'.s.threadMap == w.s.threadMap[st.key := st.thread])
             || (st.PruneMap? && key.user in st.users
                 && forall k | k in w'.s.threadMap ::
                      k.user !in st.users && k in w.s.threadMap && w'.s.threadMap[k] == w.s.threadMap[k])
    ensures Orphaned(w', w.s.threadMap[key], key)
  {
    assert !Pending(w, w.s.threadMap[key]);
  }

  lemma UnbindsOrphans(parse: string -> Option<Uuid>, w: World, st: Step) returns (t: Uuid, key: ThreadKey)
    requires Inv(w) && Isolated(w) && Enabled(w, st) && Unbinds(w, st)
    ensures Orphaned(Apply(parse, w, st), t, key)
  {
    if st.Advance? {
      AdvanceBindsOnly(parse, w, st.i);
      UnbindAdvance(w, Apply(parse, w, st), st.i);
      key := w.calls[st.i].key;
    } else {
      key :| key in w.s.threadMap && if st.RegisterMap? then key == st.key else key.user in st.users;
      UnbindOther(w, Apply(parse, w, st), st, key);
    }
    t := w.s.threadMap[key];
  }

  lemma LiveIsExclusive(w: World)
    requires Isolated(w) && ClaimsLive(w)
    ensures Exclusive(w)
  {
    forall t, a, b | (t, a) in w.claims && (t, b) in w.claims ensures a == b {
      assert forall k | k in w.s.threadMap && w.s.threadMap[k] == t :: !Pending(w, t);
      assert forall k | Storing(w, t, k) :: Pending(w, t);
    }
  }

  ghost predicate Endangers(w: World, st: Step) {
    BreaksIsolation(w, st) || Unbinds(w, st)
  }

  lemma {:induction false} LiveRun(parse: string -> Option<Uuid>, steps: seq<Step>)
    requires Legal(parse, START, steps) && Avoids(parse, START, steps, Endangers)
    ensures Isolated(Run(parse, START, steps)) && ClaimsLive(Run(parse, START, steps))
  {
    if steps != [] {
      var head := steps[..|steps| - 1];
      LiveRun(parse, head);
      ReachableInv(parse, START, head);
      IsolationExactly(parse, Run(parse, START, head), steps[|steps| - 1]);
      LiveExactly(parse, Run(parse, START, head), steps[|steps| - 1]);
    }
  }

  /** Over a whole run no thread is ever given to two different keys, if no step breaks the
      isolation of the map and none overwrites or drops a mapping. */
  lemma ThreadsNeverShared(parse: string -> Option<Uuid>, steps: seq<Step>, i: nat, j: nat)
    requires Legal(parse, START, steps) && Avoids(parse, START, steps, Endangers)
    requires var calls := Run(parse, START, steps).calls;
             && i < |calls| && j < |calls| && HasThread(calls[i].pc) && HasThread(calls[j].pc)
             && calls[i].key != calls[j].key
    ensures var calls := Run(parse, START, steps).calls; calls[i].pc.thread != calls[j].pc.thread
  {
    LiveRun(parse, steps);
    LiveIsExclusive(Run(parse, START, steps));
    ReachableInv(parse, START, steps);
    var calls := Run(parse, START, steps).calls;
    assert calls[i] in calls && calls[j] in calls;
  }

  /** A text longer than all channels in use. */
  lemma {:induction false} LongerThanAll(keys: set<ThreadKey>) returns (channel: string)
    ensures |channel| > 0 && forall k | k in keys :: |k.channel| < |channel|
    decreases |keys|
  {
    channel := " ";
    if keys != {} {
      var k :| k in keys;
      var rest := LongerThanAll(keys - {k});
      channel := rest + k.channel;
      assert forall x | x in keys :: x == k || x in keys - {k};
    }
  }

  /** The first step of a registration, which always uses the text of the thread's id. */
  ghost predicate Registers(text: Uuid -> string, st: Step) {
    st.RegisterMap? && st.key.external == Some(text(st.thread))
  }

  /** After a mapping was overwritten or dropped, registering its thread on another channel
      gives it to another key, and that neither breaks the isolation of the map nor touches a
      mapping. */
  lemma UnboundCanBeShared(parse: string -> Option<Uuid>, text: Uuid -> string, w: World, st: Step)
    requires Inv(w) && Isolated(w) && Enabled(w, st) && Unbinds(w, st)
    ensures var w' := Apply(parse, w, st);
            exists again :: Registers(text, again) && Enabled(w', again) && !Endangers(w', again)
                            && !Exclusive(Apply(parse, w', again))
  {
    var w' := Apply(parse, w, st);
    var t, key := UnbindsOrphans(parse, w, st);
    var channel := LongerThanAll(w'.s.threadMap.Keys + {key});
    var other := ThreadKey(key.user, channel, Some(text(t)));
    assert key in w'.s.threadMap.Keys + {key};
    assert other !in w'.s.threadMap && other != key;
    var again := RegisterMap(other, t);
    assert Registers(text, again) && Enabled(w', again) && !Endangers(w', again);
    assert (t, key) in Apply(parse, w', again).claims && (t, other) in Apply(parse, w', again).claims;
  }

  // ---------- One thread per key ----------

  ghost predicate Resolved(c: Call, k: ThreadKey) {
    c.key == k && HasThread(c.pc) && !c.pc.StoreMap?
  }

  /** Two calls for the key that have a thread have both stored or read it, and the map has
      it. So they have the same one. */
  ghost predicate Settled(w: World, k: ThreadKey) {
    && (forall i, j | 0 <= i < j < |w.calls| && w.calls[i].key == k && w.calls[j].key == k
          && HasThread(w.calls[i].pc) && HasThread(w.calls[j].pc) ::
          !w.calls[i].pc.StoreMap? && !w.calls[j].pc.StoreMap?)
    && (forall c | c in w.calls && Resolved(c, k) :: k in w.s.threadMap && w.s.threadMap[k] == c.pc.thread)
  }

  lemma SettledAgrees(w: World, k: ThreadKey, i: nat, j: nat)
    requires Settled(w, k) && i < |w.calls| && j < |w.calls| && w.calls[i].key == k && w.calls[j].key == k
    requires HasThread(w.calls[i].pc) && HasThread(w.calls[j].pc)
    ensures w.calls[i].pc.thread == w.calls[j].pc.thread
  {
    assert w.calls[i] in w.calls && w.calls[j] in w.calls;
  }

  /** A call creates or adopts although another call for its key has a thread, or finds the
      key mapped while another is about to overwrite that. */
  ghost predicate Overtakes(w: World, st: Step, k: ThreadKey) {
    && st.Advance? && st.i < |w.calls| && w.calls[st.i].key == k
    && Gains(w.s, w.calls[st.i]).Some?
    && exists d :: d in w.calls && d.key == k && HasThread(d.pc) && (w.calls[st.i].pc.Mapped? ==> d.pc.StoreMap?)
  }

  /** A registration or a prune changes the mapping of the key after some call resolved it. */
  ghost predicate Remaps(w: World, st: Step, k: ThreadKey) {
    && (exists d :: d in w.calls && Resolved(d, k))
    && ((st.RegisterMap? && st.key == k && k in w.s.threadMap && w.s.threadMap[k] != st.thread)
        || (st.PruneMap? && k.user in st.users))
  }

  lemma SettledAdvance(w: World, w': World, i: nat, k: ThreadKey)
    requires Settled(w, k) && BindsOnly(w, w', i) && !Overtakes(w, Advance(i), k)
    ensures Settled(w', k)
  {
    var c, c' := w.calls[i], w'.calls[i];
    assert c in w.calls && forall j | 0 <= j < |w.calls| :: w.calls[j] in w.calls;
    forall d | d in w'.calls && Resolved(d, k) ensures k in w'.s.threadMap && w'.s.threadMap[k] == d.pc.thread {
      var j :| 0 <= j < |w'.calls| && w'.calls[j] == d;
      assert j != i ==> d == w.calls[j];
    }
  }

  lemma OvertakenShows(w: World, w': World, i: nat, k: ThreadKey)
    requires Settled(w, k) && BindsOnly(w, w', i) && Overtakes(w, Advance(i), k)
    ensures !Settled(w', k)
  {
    var c' := w'.calls[i];
    var d :| d in w.calls && d.key == k && HasThread(d.pc) && (w.calls[i].pc.Mapped? ==> d.pc.StoreMap?);
    var j :| 0 <= j < |w.calls| && w.calls[j] == d;
    assert j != i && w'.calls[j] == d && d in w'.calls && c' in w'.calls;
    if !d.pc.StoreMap? && !c'.pc.StoreMap? {
      assert w.s.threadMap[k] == d.pc.thread && d.pc.thread in w.s.threadMap.Values;
      assert w'.s.threadMap[k] != d.pc.thread;
    }
  }

  lemma SettledOther(w: World, w': World, k: ThreadKey)
    requires Settled(w, k) && w.calls <= w'.calls && (forall c | c in w'.calls :: c in w.calls || c.pc.Find?)
    requires forall j | |w.calls| <= j < |w'.calls| :: w'.calls[j].pc.Find?
    requires (exists d :: d in w.calls && Resolved(d, k)) ==>
               k in w'.s.threadMap && k in w.s.threadMap && w'.s.threadMap[k] == w.s.threadMap[k]
    ensures Settled(w', k)
  {
  }

  /** The calls for a key stay settled exactly when none overtakes another and nothing remaps
      the key. */
  lemma SettledExactly(parse: string -> Option<Uuid>, w: World, st: Step, k: ThreadKey)
    requires Settled(w, k) && Enabled(w, st)
    ensures Settled(Apply(parse, w, st), k) <==> !Overtakes(w, st, k) && !Remaps(w, st, k)
  {
    var w' := Apply(parse, w, st);
    if st.Advance? {
      AdvanceBindsOnly(parse, w, st.i);
      if Overtakes(w, st, k) { OvertakenShows(w, w', st.i, k); } else { SettledAdvance(w, w', st.i, k); }
    } else if Remaps(w, st, k) {
      var d :| d in w.calls && Resolved(d, k);
      assert d in w'.calls;
    } else {
      SettledOther(w, w', k);
    }
  }

  // ---------- Calls for a key one after another ----------

  /** Calls for the key follow each other, and once one is done the next ones only look it up. */
  ghost predicate InTurn(w: World, k: ThreadKey) {
    forall i, j | 0 <= i < j < |w.calls| && w.calls[i].key == k && w.calls[j].key == k ::
      && w.calls[i].pc.Done?
      && (w.calls[j].pc.Find? || w.calls[j].pc.Insert? || w.calls[j].pc.Mapped? || w.calls[j].pc.Done?)
  }

  /** A call for the key begins before the last one is done, or the key is registered, or the
      key or its session is pruned. */
  ghost predicate Disturbs(w: World, st: Step, k: ThreadKey) {
    match st
    case Begin(key) => key == k && exists c :: c in w.calls && c.key == k && !c.pc.Done?
    case RegisterMap(key, _) => key == k
    case PruneMap(users) => k.user in users
    case PruneSessions(users) => k.user in users
    case _ => false
  }

  ghost function Disturbing(k: ThreadKey): (World, Step) -> bool {
    (w, st) => Disturbs(w, st, k)
  }

  ghost predicate Quiet(w: World, k: ThreadKey) {
    InTurn(w, k) && Settled(w, k) && Faithful(w, k.user)
  }

  lemma OnlyLooksUp(w: World, k: ThreadKey, i: nat, j: nat)
    requires Quiet(w, k) && i < |w.calls| && j < |w.calls| && w.calls[i].key == k && w.calls[j].key == k
    requires Gains(w.s, w.calls[i]).Some? && HasThread(w.calls[j].pc)
    ensures w.calls[i].pc.Mapped? && w.calls[j].pc.Done?
  {
  }

  lemma QuietIsNotOvertaken(w: World, st: Step, k: ThreadKey)
    requires Quiet(w, k)
    ensures !Overtakes(w, st, k)
  {
    if st.Advance? && st.i < |w.calls| && w.calls[st.i].key == k && Gains(w.s, w.calls[st.i]).Some? {
      forall d | d in w.calls && d.key == k && HasThread(d.pc)
        ensures w.calls[st.i].pc.Mapped? && !d.pc.StoreMap?
      {
        var j :| 0 <= j < |w.calls| && w.calls[j] == d;
        OnlyLooksUp(w, k, st.i, j);
      }
    }
  }

  /** After a finished call for the key the next one finds its mapping. */
  lemma NextLooksUp(parse: string -> Option<Uuid>, w: World, i: nat, j: nat, k: ThreadKey)
    requires Inv(w) && Quiet(w, k) && i < j < |w.calls| && w.calls[i].key == k && w.calls[j].key == k
    ensures var pc := CallStep(parse, w.s, w.calls[j]).1.pc; pc.Find? || pc.Insert? || pc.Mapped? || pc.Done?
  {
    assert w.calls[i] in w.calls && w.calls[j] in w.calls;
    assert w.calls[i].pc.Done? && Resolved(w.calls[i], k);
  }

  lemma InTurnAdvance(parse: string -> Option<Uuid>, w: World, i: nat, k: ThreadKey)
    requires Inv(w) && Quiet(w, k) && i < |w.calls|
    ensures InTurn(Apply(parse, w, Advance(i)), k)
  {
    var w' := Apply(parse, w, Advance(i));
    forall a, b | 0 <= a < b < |w'.calls| && w'.calls[a].key == k && w'.calls[b].key == k
      ensures w'.calls[a].pc.Done?
      ensures w'.calls[b].pc.Find? || w'.calls[b].pc.Insert? || w'.calls[b].pc.Mapped? || w'.calls[b].pc.Done?
    {
      assert w.calls[a].key == k && w.calls[b].key == k;
      NextLooksUp(parse, w, a, b, k);
    }
  }

  lemma QuietStep(parse: string -> Option<Uuid>, w: World, st: Step, k: ThreadKey)
    requires Inv(w) && Quiet(w, k) && Enabled(w, st) && !Disturbs(w, st, k)
    ensures Quiet(Apply(parse, w, st), k)
  {
    QuietIsNotOvertaken(w, st, k);
    SettledExactly(parse, w, st, k);
    FaithfulStep(parse, w, st, k.user);
    if st.Advance? {
      InTurnAdvance(parse, w, st.i, k);
    } else if st.Begin? {
      assert forall j | 0 <= j < |w.calls| :: w.calls[j] in w.calls;
    }
  }

  lemma {:induction false} QuietRun(parse: string -> Option<Uuid>, steps: seq<Step>, k: ThreadKey)
    requires Legal(parse, START, steps) && Avoids(parse, START, steps, Disturbing(k))
    ensures Quiet(Run(parse, START, steps), k)
  {
    if steps != [] {
      var head := steps[..|steps| - 1];
      QuietRun(parse, head, k);
      ReachableInv(parse, START, head);
      QuietStep(parse, Run(parse, START, head), steps[|steps| - 1], k);
    }
  }

  /** If calls for a key never overlap, and nothing registers or prunes the key or prunes its
      session, every call for it gets one session and one thread, whatever all other keys and
      users do in between. */
  lemma SameKeySameThread(parse: string -> Option<Uuid>, steps: seq<Step>, k: ThreadKey, i: nat, j: nat)
    requires Legal(parse, START, steps) && Avoids(parse, START, steps, Disturbing(k))
    requires var calls := Run(parse, START, steps).calls;
             && i < |calls| && j < |calls| && calls[i].key == k && calls[j].key == k
             && HasThread(calls[i].pc) && HasThread(calls[j].pc)
    ensures var calls := Run(parse, START, steps).calls;
            calls[i].pc.session == calls[j].pc.session && calls[i].pc.thread == calls[j].pc.thread
  {
    var w := Run(parse, START, steps);
    QuietRun(parse, steps, k);
    SettledAgrees(w, k, i, j);
    assert w.calls[i] in w.calls && w.calls[j] in w.calls;
  }

  // ---------- Undo managers ----------

  ghost predicate KeepsUndo(s: State, s': State) {
    forall t | t in s.undo :: t in s'.undo && s'.undo[t] == s.undo[t]
  }

  /** The creating call stores its manager over one that was handed out meanwhile. */
  ghost predicate OverwritesUndo(w: World, st: Step) {
    && st.Advance? && st.i < |w.calls|
    && w.calls[st.i].pc.StoreUndo? && w.calls[st.i].pc.thread in w.s.undo
  }

  ghost predicate PrunesUndo(w: World, st: Step) {
    st.PruneUndo? && exists t :: t in st.threads && t in w.s.undo
  }

  ghost predicate UndoOk(s: State) {
    forall t | t in s.undo :: s.undo[t] < s.next
  }

  lemma UndoKeptExactly(parse: string -> Option<Uuid>, w: World, st: Step)
    requires UndoOk(w.s) && Enabled(w, st)
    ensures UndoOk(Apply(parse, w, st).s)
    ensures KeepsUndo(w.s, Apply(parse, w, st).s) <==> !OverwritesUndo(w, st) && !PrunesUndo(w, st)
  {
    var w' := Apply(parse, w, st);
    if OverwritesUndo(w, st) {
      assert w'.s.undo[w.calls[st.i].pc.thread] == w.s.next;
    }
    if PrunesUndo(w, st) {
      var t :| t in st.threads && t in w.s.undo;
      assert t !in w'.s.undo;
    }
  }

  /** Different threads have different undo managers. */
  ghost predicate UndoDistinct(s: State) {
    forall a, b | a in s.undo && b in s.undo && s.undo[a] == s.undo[b] :: a == b
  }

  lemma UndoStaysDistinct(parse: string -> Option<Uuid>, w: World, st: Step)
    requires UndoOk(w.s) && UndoDistinct(w.s) && Enabled(w, st)
    ensures UndoOk(Apply(parse, w, st).s) && UndoDistinct(Apply(parse, w, st).s)
  {
    UndoKeptExactly(parse, w, st);
  }

  /** In every interleaving no two threads ever share an undo manager, so an undo in one
      conversation cannot reach another. */
  lemma {:induction false} ManagersAreNotShared(parse: string -> Option<Uuid>, steps: seq<Step>)
    requires Legal(parse, START, steps)
    ensures UndoOk(Run(parse, START, steps).s) && UndoDistinct(Run(parse, START, steps).s)
  {
    if steps != [] {
      var head := steps[..|steps| - 1];
      ManagersAreNotShared(parse, head);
      UndoStaysDistinct(parse, Run(parse, START, head), steps[|steps| - 1]);
    }
  }

  // ---------- Runs that show the conditions are met in practice ----------

  ghost predicate Reachable(parse: string -> Option<Uuid>, w: World) {
    ReachableWithout(parse, Never, w)
  }

  ghost predicate SplitKey(w: World) {
    exists c, d :: c in w.calls && d in w.calls && c.key == d.key
                   && HasThread(c.pc) && HasThread(d.pc) && c.pc.thread != d.pc.thread
  }

  /** `r` holds at the start and is kept by every step that `bad` does not exclude. */
  ghost predicate Closed(parse: string -> Option<Uuid>, r: World -> bool, bad: (World, Step) -> bool) {
    r(START) && forall w, st | r(w) && Enabled(w, st) && !bad(w, st) :: r(Apply(parse, w, st))
  }

  ghost predicate ReachableWithout(parse: string -> Option<Uuid>, bad: (World, Step) -> bool, w: World) {
    exists steps :: Legal(parse, START, steps) && Avoids(parse, START, steps, bad) && Run(parse, START, steps) == w
  }

  ghost function Reached(parse: string -> Option<Uuid>, bad: (World, Step) -> bool): World -> bool {
    w => ReachableWithout(parse, bad, w)
  }

  ghost predicate Never(w: World, st: Step) { false }

  lemma ReachableIsClosed(parse: string -> Option<Uuid>, bad: (World, Step) -> bool)
    ensures Closed(parse, Reached(parse, bad), bad)
  {
    assert Legal(parse, START, []) && Avoids(parse, START, [], bad) && Run(parse, START, []) == START;
    forall w, st | ReachableWithout(parse, bad, w) && Enabled(w, st) && !bad(w, st)
      ensures ReachableWithout(parse, bad, Apply(parse, w, st))
    {
      var steps :| Legal(parse, START, steps) && Avoids(parse, START, steps, bad) && Run(parse, START, steps) == w;
      var longer := steps + [st];
      assert longer[..|longer| - 1] == steps;
      assert Legal(parse, START, longer) && Avoids(parse, START, longer, bad);
      assert Run(parse, START, longer) == Apply(parse, w, st);
    }
  }

  /** Anything but a call's own step, or a call about to adopt. */
  ghost predicate Coarse(w: World, st: Step) {
    (!st.Begin? && !st.Advance?) || (st.Advance? && st.i < |w.calls| && w.calls[st.i].pc.Adopt?)
  }

  /** Anything but a call's own step, or a step that breaks the isolation of the map. */
  ghost predicate Outside(w: World, st: Step) {
    (!st.Begin? && !st.Advance?) || BreaksIsolation(w, st)
  }

  lemma CoarserClosed(parse: string -> Option<Uuid>, r: World -> bool, bad: (World, Step) -> bool)
    requires Closed(parse, r, bad) && forall w, st | bad(w, st) :: Coarse(w, st)
    ensures Closed(parse, r, Coarse)
  {
  }

  lemma ReachStep(parse: string -> Option<Uuid>, r: World -> bool, w: World, st: Step, w': World)
    requires Closed(parse, r, Coarse) && r(w) && Enabled(w, st) && !Coarse(w, st) && Apply(parse, w, st) == w'
    ensures r(w')
  {
  }

  lemma FreeStep(parse: string -> Option<Uuid>, r: World -> bool, w: World, st: Step, w': World)
    requires Closed(parse, r, Never) && r(w) && Enabled(w, st) && Apply(parse, w, st) == w'
    ensures r(w')
  {
  }

  lemma ReachAdvance(parse: string -> Option<Uuid>, r: World -> bool, w: World, i: nat, s': State, pc: Pc)
    returns (w': World)
    requires Closed(parse, r, Coarse) && r(w) && i < |w.calls| && !w.calls[i].pc.Adopt?
    requires CallStep(parse, w.s, w.calls[i]) == (s', w.calls[i].(pc := pc))
    ensures w' == World(s', w.calls[i := w.calls[i].(pc := pc)], w'.claims) && r(w')
  {
    w' := Apply(parse, w, Advance(i));
    ReachStep(parse, r, w, Advance(i), w');
  }

  /** A first call for `a` has opened session 0 and found no mapping. */
  ghost function OpenedBy(a: ThreadKey): State {
    State(map[a.user := 0], map[0 := Session(a.user, None, {})], map[], map[], 1)
  }

  lemma ReachAboutToCreate(parse: string -> Option<Uuid>, r: World -> bool, a: ThreadKey) returns (w: World)
    requires Closed(parse, r, Coarse) && a.external.None?
    ensures r(w) && w.s == OpenedBy(a) && w.calls == [Call(a, Create(0))]
  {
    w := START.(calls := [Call(a, Find)]);
    ReachStep(parse, r, START, Begin(a), w);
    w := ReachAdvance(parse, r, w, 0, START.s, Insert);
    w := ReachAdvance(parse, r, w, 0, OpenedBy(a), Mapped(0));
    w := ReachAdvance(parse, r, w, 0, OpenedBy(a), Create(0));
  }

  /** The call for `a` has created thread 1 and not stored its mapping. */
  lemma ReachCreatedNotMapped(parse: string -> Option<Uuid>, r: World -> bool, a: ThreadKey) returns (w: World)
    requires Closed(parse, r, Coarse) && a.external.None?
    ensures r(w) && w.s == CreateThread(OpenedBy(a), 0) && w.calls == [Call(a, StoreMap(0, 1))]
  {
    w := ReachAboutToCreate(parse, r, a);
    w := ReachAdvance(parse, r, w, 0, CreateThread(OpenedBy(a), 0), StoreMap(0, 1));
  }

  lemma ReachAboutToAdopt(parse: string -> Option<Uuid>, r: World -> bool, a: ThreadKey, b: ThreadKey)
    returns (w: World)
    requires Closed(parse, r, Coarse) && a.external.None? && a.user == b.user && NamedThread(parse, b) == Some(1)
    ensures r(w) && w.s == CreateThread(OpenedBy(a), 0)
    ensures w.calls == [Call(a, StoreMap(0, 1)), Call(b, Adopt(0, 1))]
  {
    var w0 := ReachCreatedNotMapped(parse, r, a);
    var s := w0.s;
    w := w0.(calls := [Call(a, StoreMap(0, 1)), Call(b, Find)]);
    ReachStep(parse, r, w0, Begin(b), w);
    w := ReachAdvance(parse, r, w, 1, s, Mapped(0));
    w := ReachAdvance(parse, r, w, 1, s, Elsewhere(0, 1));
    w := ReachAdvance(parse, r, w, 1, s, Contains(0, 1));
    w := ReachAdvance(parse, r, w, 1, s, Adopt(0, 1));
  }

  lemma WindowSharesThreadIn(parse: string -> Option<Uuid>, r: World -> bool, a: ThreadKey, b: ThreadKey)
    requires Closed(parse, r, Never) && a.external.None? && a.user == b.user && NamedThread(parse, b) == Some(1)
    ensures exists w :: r(w) && !OneToOne(w.s.threadMap)
  {
    CoarserClosed(parse, r, Never);
    var w0 := ReachAboutToAdopt(parse, r, a, b);
    var s1 := BindKey(w0.s, b, 1);
    var w := Apply(parse, w0, Advance(1));
    assert w == World(s1, [Call(a, StoreMap(0, 1)), Call(b, AdoptUndo(0, 1))], w.claims) && r(w);
    w := ReachAdvance(parse, r, w, 0, BindKey(s1, a, 1), StoreUndo(0, 1));
    assert w.s.threadMap[a] == w.s.threadMap[b] && a != b;
  }

  lemma WindowLosesUndoIn(parse: string -> Option<Uuid>, r: World -> bool, a: ThreadKey)
    requires Closed(parse, r, Never) && a.external.None?
    ensures exists w, st :: r(w) && Enabled(w, st) && OverwritesUndo(w, st)
  {
    CoarserClosed(parse, r, Never);
    var w := ReachCreatedNotMapped(parse, r, a);
    w := ReachAdvance(parse, r, w, 0, BindKey(w.s, a, 1), StoreUndo(0, 1));
    var w2 := w.(s := EnsureUndo(w.s, 1));
    FreeStep(parse, r, w, UndoFor(1), w2);
    assert Enabled(w2, Advance(0)) && OverwritesUndo(w2, Advance(0));
  }

  lemma ReachBothAboutToCreate(parse: string -> Option<Uuid>, r: World -> bool, a: ThreadKey) returns (w: World)
    requires Closed(parse, r, Coarse) && a.external.None?
    ensures r(w) && w.s == OpenedBy(a) && w.calls == [Call(a, Create(0)), Call(a, Create(0))]
  {
    var w0 := ReachAboutToCreate(parse, r, a);
    w := w0.(calls := [Call(a, Create(0)), Call(a, Find)]);
    ReachStep(parse, r, w0, Begin(a), w);
    w := ReachAdvance(parse, r, w, 1, w0.s, Mapped(0));
    w := ReachAdvance(parse, r, w, 1, w0.s, Create(0));
  }

  lemma SameKeyTwoThreadsIn(parse: string -> Option<Uuid>, r: World -> bool, a: ThreadKey)
    requires Closed(parse, r, Coarse) && a.external.None?
    ensures exists w :: r(w) && SplitKey(w)
  {
    var w := ReachBothAboutToCreate(parse, r, a);
    var s1 := CreateThread(w.s, 0);
    w := ReachAdvance(parse, r, w, 0, s1, StoreMap(0, 1));
    w := ReachAdvance(parse, r, w, 1, CreateThread(s1, 0), StoreMap(0, 2));
    assert w.calls[0] in w.calls && w.calls[1] in w.calls;
  }

  /** Both calls for `a` have created, the second one's mapping has replaced the first one's,
      and both are done. */
  ghost function Replaced(a: ThreadKey): State {
    State(map[a.user := 0], map[0 := Session(a.user, Some(2), {1, 2})], map[a := 2], map[1 := 3, 2 := 4], 5)
  }

  lemma ReachBothCreated(parse: string -> Option<Uuid>, r: World -> bool, a: ThreadKey) returns (w: World)
    requires Closed(parse, r, Coarse) && a.external.None?
    ensures r(w) && w.calls == [Call(a, StoreMap(0, 1)), Call(a, StoreMap(0, 2))]
    ensures w.s == OpenedBy(a).(store := map[0 := Session(a.user, Some(2), {1, 2})], next := 3)
  {
    w := ReachBothAboutToCreate(parse, r, a);
    var s1 := CreateThread(w.s, 0);
    w := ReachAdvance(parse, r, w, 0, s1, StoreMap(0, 1));
    w := ReachAdvance(parse, r, w, 1, CreateThread(s1, 0), StoreMap(0, 2));
    assert {} + {1} + {2} == {1, 2};
  }

  lemma ReachReplaced(parse: string -> Option<Uuid>, r: World -> bool, a: ThreadKey) returns (w: World)
    requires Closed(parse, r, Coarse) && a.external.None?
    ensures r(w) && w.calls == [Call(a, Done(0, 1)), Call(a, Done(0, 2))] && w.s == Replaced(a)
  {
    w := ReachBothCreated(parse, r, a);
    w := ReachAdvance(parse, r, w, 0, BindKey(w.s, a, 1), StoreUndo(0, 1));
    w := ReachAdvance(parse, r, w, 1, BindKey(w.s, a, 2), StoreUndo(0, 2));
    w := ReachAdvance(parse, r, w, 0, ReplaceUndo(w.s, 1), Done(0, 1));
    w := ReachAdvance(parse, r, w, 1, ReplaceUndo(w.s, 2), Done(0, 2));
    assert w.s.threadMap == map[a := 2] && w.s.undo == map[1 := 3, 2 := 4];
  }

  lemma ReachOrphanNamed(parse: string -> Option<Uuid>, r: World -> bool, a: ThreadKey, b: ThreadKey)
    returns (w: World)
    requires Closed(parse, r, Coarse) && a.external.None? && a.user == b.user && NamedThread(parse, b) == Some(1)
    ensures r(w) && w.calls == [Call(a, Done(0, 1)), Call(a, Done(0, 2)), Call(b, Adopt(0, 1))] && w.s == Replaced(a)
  {
    var w0 := ReachReplaced(parse, r, a);
    var s := w0.s;
    w := w0.(calls := [Call(a, Done(0, 1)), Call(a, Done(0, 2)), Call(b, Find)]);
    ReachStep(parse, r, w0, Begin(b), w);
    w := ReachAdvance(parse, r, w, 2, s, Mapped(0));
    w := ReachAdvance(parse, r, w, 2, s, Elsewhere(0, 1));
    w := ReachAdvance(parse, r, w, 2, s, Contains(0, 1));
    w := ReachAdvance(parse, r, w, 2, s, Adopt(0, 1));
  }

  lemma OrphanSharesThreadIn(parse: string -> Option<Uuid>, r: World -> bool, a: ThreadKey, b: ThreadKey)
    requires Closed(parse, r, Outside)
    requires a.external.None? && a.user == b.user && NamedThread(parse, b) == Some(1)
    ensures exists w :: r(w) && w.calls == [Call(a, Done(0, 1)), Call(a, Done(0, 2)), Call(b, Done(0, 1))]
  {
    CoarserClosed(parse, r, Outside);
    var w0 := ReachOrphanNamed(parse, r, a, b);
    assert !Outside(w0, Advance(2));
    var w := Apply(parse, w0, Advance(2));
    assert w == World(BindKey(w0.s, b, 1), w0.calls[2 := Call(b, AdoptUndo(0, 1))], w.claims) && r(w);
    w := ReachAdvance(parse, r, w, 2, EnsureUndo(w.s, 1), Done(0, 1));
  }

  lemma TwoSessionsIn(parse: string -> Option<Uuid>, r: World -> bool, a: ThreadKey)
    requires Closed(parse, r, Never)
    ensures exists w :: r(w) && w.calls == [Call(a, Mapped(0)), Call(a, Mapped(1))]
  {
    CoarserClosed(parse, r, Never);
    var w := START.(calls := [Call(a, Find)]);
    ReachStep(parse, r, START, Begin(a), w);
    w := ReachAdvance(parse, r, w, 0, START.s, Insert);
    w := ReachAdvance(parse, r, w, 0, OpenedBy(a), Mapped(0));
    var pruned := w.s.(sessions := map[]);
    var w1 := w.(s := pruned);
    assert w.s.sessions - {a.user} == map[];
    FreeStep(parse, r, w, PruneSessions({a.user}), w1);
    var w2 := w1.(calls := [Call(a, Mapped(0)), Call(a, Find)]);
    ReachStep(parse, r, w1, Begin(a), w2);
    w := ReachAdvance(parse, r, w2, 1, pruned, Insert);
    w := ReachAdvance(parse, r, w, 1, WithSession(pruned, a.user), Mapped(1));
    assert w.calls == [Call(a, Mapped(0)), Call(a, Mapped(1))];
  }

  /** Two keys end up on one thread: the second names the first one's new thread in the window. */
  lemma WindowSharesThread(parse: string -> Option<Uuid>, a: ThreadKey, b: ThreadKey)
    requires a.external.None? && a.user == b.user && NamedThread(parse, b) == Some(1)
    ensures exists w :: Reachable(parse, w) && !OneToOne(w.s.threadMap)
  {
    ReachableIsClosed(parse, Never);
    WindowSharesThreadIn(parse, Reached(parse, Never), a, b);
  }

  /** Two keys get one thread without any adoption in the window, registration or prune: two
      calls for the first key both create, the second mapping replaces the first, and the
      other key adopts the thread that is left without one. */
  lemma OrphanSharesThread(parse: string -> Option<Uuid>, a: ThreadKey, b: ThreadKey)
    requires a.external.None? && a.user == b.user && NamedThread(parse, b) == Some(1)
    ensures exists w :: ReachableWithout(parse, Outside, w)
                        && w.calls == [Call(a, Done(0, 1)), Call(a, Done(0, 2)), Call(b, Done(0, 1))] && a != b
  {
    ReachableIsClosed(parse, Outside);
    OrphanSharesThreadIn(parse, Reached(parse, Outside), a, b);
  }

  /** A manager handed out before the creating call stores its own is lost. */
  lemma WindowLosesUndo(parse: string -> Option<Uuid>, a: ThreadKey)
    requires a.external.None?
    ensures exists w, st :: Reachable(parse, w) && Enabled(w, st) && OverwritesUndo(w, st)
  {
    ReachableIsClosed(parse, Never);
    WindowLosesUndoIn(parse, Reached(parse, Never), a);
  }

  /** Two concurrent calls with one key may be given different threads. */
  lemma SameKeyTwoThreads(parse: string -> Option<Uuid>, a: ThreadKey)
    requires a.external.None?
    ensures exists w :: Reachable(parse, w) && SplitKey(w)
  {
    ReachableIsClosed(parse, Never);
    CoarserClosed(parse, Reached(parse, Never), Never);
    SameKeyTwoThreadsIn(parse, Reached(parse, Never), a);
  }

  /** A prune under a call in flight: two calls of one user with different sessions. */
  lemma TwoSessions(parse: string -> Option<Uuid>, a: ThreadKey)
    ensures exists w :: Reachable(parse, w) && w.calls == [Call(a, Mapped(0)), Call(a, Mapped(1))]
  {
    ReachableIsClosed(parse, Never);
    TwoSessionsIn(parse, Reached(parse, Never), a);
  }

  // ---------- A call that nobody interrupts ----------

  /** The whole of `resolve_thread` without interference: find the mapping, else adopt
      the named thread, else create one. Gives the tables, the session and the thread. */
  function Resolve(parse: string -> Option<Uuid>, s: State, key: ThreadKey): (State, Uuid, Uuid) {
    var s1 := WithSession(s, key.user);
    var session := s1.sessions[key.user];
    var named := NamedThread(parse, key);
    if key in s1.threadMap && s1.threadMap[key] in ThreadsOf(s1, session)
    then (s1, session, s1.threadMap[key])
    else if named.Some? && !MappedSomewhere(s1, named.value) && named.value in ThreadsOf(s1, session)
    then (EnsureUndo(BindKey(s1, key, named.value), named.value), session, named.value)
    else (ReplaceUndo(BindKey(CreateThread(s1, session), key, s1.next), s1.next), session, s1.next)
  }

  function StepsLeft(pc: Pc): nat {
    match pc
    case Find => 9
    case Insert => 8
    case Mapped(_) => 7
    case Elsewhere(_, _) => 6
    case Contains(_, _) => 5
    case Adopt(_, _) => 4
    case Create(_) => 3
    case StoreMap(_, _) => 2
    case AdoptUndo(_, _) => 1
    case StoreUndo(_, _) => 1
    case Done(_, _) => 0
  }

  /** The call's own steps, taken one after the other. */
  ghost function RunCall(parse: string -> Option<Uuid>, s: State, c: Call): (State, Call)
    decreases StepsLeft(c.pc)
  {
    if c.pc.Done? then (s, c) else
    var (s', c') := CallStep(parse, s, c);
    RunCall(parse, s', c')
  }

  lemma RunCallStep(parse: string -> Option<Uuid>, s: State, c: Call, s': State, pc: Pc)
    requires !c.pc.Done? && CallStep(parse, s, c) == (s', c.(pc := pc))
    ensures RunCall(parse, s, c) == RunCall(parse, s', c.(pc := pc))
  {}

  lemma UninterruptedStore(parse: string -> Option<Uuid>, s: State, key: ThreadKey, session: Uuid, t: Uuid)
    ensures RunCall(parse, s, Call(key, StoreMap(session, t))) ==
            (ReplaceUndo(BindKey(s, key, t), t), Call(key, Done(session, t)))
  {
    var bound := BindKey(s, key, t);
    RunCallStep(parse, s, Call(key, StoreMap(session, t)), bound, StoreUndo(session, t));
    RunCallStep(parse, bound, Call(key, StoreUndo(session, t)), ReplaceUndo(bound, t), Done(session, t));
  }

  lemma UninterruptedCreate(parse: string -> Option<Uuid>, s: State, key: ThreadKey, session: Uuid)
    ensures RunCall(parse, s, Call(key, Create(session))) ==
            (ReplaceUndo(BindKey(CreateThread(s, session), key, s.next), s.next), Call(key, Done(session, s.next)))
  {
    RunCallStep(parse, s, Call(key, Create(session)), CreateThread(s, session), StoreMap(session, s.next));
    UninterruptedStore(parse, CreateThread(s, session), key, session, s.next);
  }

  lemma UninterruptedNamed(parse: string -> Option<Uuid>, s: State, key: ThreadKey, session: Uuid, named: Uuid)
    ensures RunCall(parse, s, Call(key, Elsewhere(session, named))) ==
            if MappedSomewhere(s, named) || named !in ThreadsOf(s, session)
            then RunCall(parse, s, Call(key, Create(session)))
            else (EnsureUndo(BindKey(s, key, named), named), Call(key, Done(session, named)))
  {
    if MappedSomewhere(s, named) {
      RunCallStep(parse, s, Call(key, Elsewhere(session, named)), s, Create(session));
    } else {
      RunCallStep(parse, s, Call(key, Elsewhere(session, named)), s, Contains(session, named));
      if named !in ThreadsOf(s, session) {
        RunCallStep(parse, s, Call(key, Contains(session, named)), s, Create(session));
      } else {
        var s' := BindKey(s, key, named);
        RunCallStep(parse, s, Call(key, Contains(session, named)), s, Adopt(session, named));
        RunCallStep(parse, s, Call(key, Adopt(session, named)), s', AdoptUndo(session, named));
        RunCallStep(parse, s', Call(key, AdoptUndo(session, named)), EnsureUndo(s', named), Done(session, named));
      }
    }
  }

  /** The step machine without interference computes `Resolve`. */
  lemma UninterruptedIsResolve(parse: string -> Option<Uuid>, s: State, key: ThreadKey)
    ensures var (s', session, thread) := Resolve(parse, s, key);
            RunCall(parse, s, Call(key, Find)) == (s', Call(key, Done(session, thread)))
  {
    var s1 := WithSession(s, key.user);
    var session := s1.sessions[key.user];
    if key.user in s.sessions {
      RunCallStep(parse, s, Call(key, Find), s1, Mapped(session));
    } else {
      RunCallStep(parse, s, Call(key, Find), s, Insert);
      RunCallStep(parse, s, Call(key, Insert), s1, Mapped(session));
    }
    var named := NamedThread(parse, key);
    UninterruptedCreate(parse, s1, key, session);
    if key in s1.threadMap && s1.threadMap[key] in ThreadsOf(s1, session) {
      RunCallStep(parse, s1, Call(key, Mapped(session)), s1, Done(session, s1.threadMap[key]));
    } else if named.Some? {
      RunCallStep(parse, s1, Call(key, Mapped(session)), s1, Elsewhere(session, named.value));
      UninterruptedNamed(parse, s1, key, session, named.value);
    } else {
      RunCallStep(parse, s1, Call(key, Mapped(session)), s1, Create(session));
    }
  }

  lemma BindOk(s: State, key: ThreadKey, thread: Uuid)
    requires StateOk(s) && thread < s.next && !MappedSomewhere(s, thread)
    ensures var s' := BindKey(s, key, thread);
            StateOk(s') && Grows(s, s') && (OneToOne(s.threadMap) ==> OneToOne(s'.threadMap))
  {}

  /** A fresh thread in the session, bound to the key. */
  lemma CreateBindsKey(s: State, key: ThreadKey, session: Uuid)
    requires StateOk(s) && session in s.store
    ensures var s' := BindKey(CreateThread(s, session), key, s.next);
            && StateOk(s') && Grows(s, s') && s.next in ThreadsOf(s', session) && s'.sessions == s.sessions
            && (OneToOne(s.threadMap) ==> OneToOne(s'.threadMap))
  {
    AddThreadOk(s, session, s.next);
    BindOk(CreateThread(s, session), key, s.next);
  }

  /** The result is bound to the key, lies in the user's session, and without concurrency
      the window does not exist: a one-to-one map stays one-to-one. */
  lemma ResolveBindsKey(parse: string -> Option<Uuid>, s: State, key: ThreadKey)
    requires StateOk(s)
    ensures var (s', session, thread) := Resolve(parse, s, key);
            && StateOk(s') && Grows(s, s')
            && key.user in s'.sessions && s'.sessions[key.user] == session && session in s'.store
            && key in s'.threadMap && s'.threadMap[key] == thread && thread in ThreadsOf(s', session)
            && (OneToOne(s.threadMap) ==> OneToOne(s'.threadMap))
  {
    WithSessionOk(s, key.user);
    var s1 := WithSession(s, key.user);
    var session, named := s1.sessions[key.user], NamedThread(parse, key);
    if key in s1.threadMap && s1.threadMap[key] in ThreadsOf(s1, session) {
    } else if named.Some? && !MappedSomewhere(s1, named.value) && named.value in ThreadsOf(s1, session) {
      BindOk(s1, key, named.value);
    } else {
      CreateBindsKey(s1, key, session);
    }
  }

  /** The threads a user has before a call. */
  function Had(s: State, user: string): set<Uuid> {
    if user in s.sessions then ThreadsOf(s, s.sessions[user]) else {}
  }

  /** A call alone works in the user's session, or in a new empty one of the user's, adds at
      most its own thread there, and leaves all other sessions alone. */
  lemma ResolveUsesOneSession(parse: string -> Option<Uuid>, s: State, key: ThreadKey)
    requires StateOk(s)
    ensures var (s', session, thread) := Resolve(parse, s, key);
            && session in s'.store && ThreadsOf(s', session) == Had(s, key.user) + {thread}
            && (key.user in s.sessions ==> session == s.sessions[key.user])
            && (key.user !in s.sessions ==> session !in s.store && s'.store[session].user == key.user)
            && (forall x | x in s.store && x != session :: x in s'.store && s'.store[x] == s.store[x])
  {
    WithSessionOk(s, key.user);
  }

  /** Its thread is one the user had, or a new one that no table knew, which is then active
      with a manager of its own. It is new exactly when the key has no mapping into the session
      and the external id names no thread of the session that is free. */
  lemma ResolveFindsOrMakes(parse: string -> Option<Uuid>, s: State, key: ThreadKey)
    requires StateOk(s) && UndoOk(s)
    ensures var (s', session, thread) := Resolve(parse, s, key);
            var had := Had(s, key.user);
            && (thread !in had <==>
                && !(key in s.threadMap && s.threadMap[key] in had)
                && !(key.external.Some? && parse(key.external.value).Some? && parse(key.external.value).value in had
                     && parse(key.external.value).value !in s.threadMap.Values))
            && (thread !in had ==>
                && !MappedSomewhere(s, thread)
                && session in s'.store && s'.store[session].active == Some(thread)
                && thread in s'.undo && s'.undo[thread] !in s.undo.Values)
  {
    WithSessionOk(s, key.user);
  }

  /** A thread newly bound to a key has an undo manager, and no other thread's changes; an
      adopted one keeps the manager it had. */
  lemma ResolveGivesManager(parse: string -> Option<Uuid>, s: State, key: ThreadKey)
    requires StateOk(s)
    ensures var (s', session, thread) := Resolve(parse, s, key);
            && ((key in s.threadMap && s.threadMap[key] == thread) || thread in s'.undo)
            && forall t | t in s.undo && (t != thread || thread < s.next) :: t in s'.undo && s'.undo[t] == s.undo[t]
  {
  }

  /** Resolving the same key again gives the same session and thread and changes nothing. */
  lemma ResolveIsStable(parse: string -> Option<Uuid>, s: State, key: ThreadKey)
    requires StateOk(s)
    ensures var (s', session, thread) := Resolve(parse, s, key);
            Resolve(parse, s', key) == (s', session, thread)
  {
    ResolveBindsKey(parse, s, key);
  }

  class SessionManager {
    var sessions: map<string, Uuid>
    var store: map<Uuid, Session>
    var threadMap: map<ThreadKey, Uuid>
    var undo: map<Uuid, Uuid>
    var next: Uuid

    ghost function Tables(): State reads this {
      State(sessions, store, threadMap, undo, next)
    }

    constructor ()
      ensures Tables() == START.s
    {
      sessions, store, threadMap, undo, next := map[], map[], map[], map[], 0;
    }

    method GetOrCreateSession(user: string) returns (session: Uuid)
      modifies this
      ensures Tables() == WithSession(old(Tables()), user)
      ensures user in sessions && session == sessions[user]
    {
      if user in sessions {
        return sessions[user];
      }
      session := next;
      sessions := sessions[user := session];
      store := store[session := Session(user, None, {})];
      next := next + 1;
    }

    method GetUndoManager(thread: Uuid) returns (manager: Uuid)
      modifies this
      ensures Tables() == EnsureUndo(old(Tables()), thread)
      ensures thread in undo && manager == undo[thread]
      ensures old(UndoOk(Tables()) && UndoDistinct(Tables())) ==> UndoOk(Tables()) && UndoDistinct(Tables())
    {
      if thread !in undo {
        undo := undo[thread := next];
        next := next + 1;
      }
      manager := undo[thread];
    }

    method ResolveThread(parse: string -> Option<Uuid>, user: string, channel: string, external: Option<string>)
      returns (session: Uuid, thread: Uuid)
      requires StateOk(Tables())
      modifies this
      ensures StateOk(Tables())
      ensures (Tables(), session, thread) == Resolve(parse, old(Tables()), ThreadKey(user, channel, external))
    {
      var key := ThreadKey(user, channel, external);
      ResolveBindsKey(parse, Tables(), key);
      WithSessionOk(Tables(), user);
      session := GetOrCreateSession(user);
      if key in threadMap && threadMap[key] in store[session].threads {
        return session, threadMap[key];
      }
      var named := NamedThread(parse, key);
      if named.Some? && named.value !in threadMap.Values && named.value in store[session].threads {
        threadMap := threadMap[key := named.value];
        var _ := GetUndoManager(named.value);
        return session, named.value;
      }
      thread := BindNewThread(key, session);
    }

    method BindNewThread(key: ThreadKey, session: Uuid) returns (thread: Uuid)
      requires session in store
      modifies this
      ensures thread == old(next)
      ensures Tables() == ReplaceUndo(BindKey(CreateThread(old(Tables()), session), key, thread), thread)
    {
      thread := next;
      store := store[session := Session(store[session].user, Some(thread), store[session].threads + {thread})];
      next := next + 1;
      threadMap := threadMap[key := thread];
      undo := undo[thread := next];
      next := next + 1;
    }

    /** Registration binds the key without asking whether the thread is bound elsewhere, and
        takes the session it is given. */
    method RegisterThread(user: string, channel: string, text: string, thread: Uuid, session: Uuid)
      requires session in store
      modifies this
      ensures var bound := BindKey(Noted(old(Tables()), thread), ThreadKey(user, channel, Some(text)), thread);
              var ready := EnsureUndo(bound, thread);
              Tables() == ready.(sessions := if user in ready.sessions then ready.sessions
                                             else ready.sessions[user := session])
      ensures old(StateOk(Tables())) ==> StateOk(Tables())
    {
      if next <= thread {
        next := thread + 1;
      }
      threadMap := threadMap[ThreadKey(user, channel, Some(text)) := thread];
      var _ := GetUndoManager(thread);
      if user !in sessions {
        sessions := sessions[user := session];
      }
    }
  }
}
