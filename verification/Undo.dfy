/**
 Undo and redo over bounded checkpoint stacks, and the timeline with a cursor that the
 two stacks stand for.
 */
module Undo {
  import opened Prelude
  import opened Chat

  datatype Checkpoint = Checkpoint(id: nat, turn: nat, messages: seq<ChatMessage>, description: string)

  datatype Stacks = Stacks(undo: seq<Checkpoint>, redo: seq<Checkpoint>, max: nat)

  function Current(id: nat, turn: nat, messages: seq<ChatMessage>): Checkpoint {
    Checkpoint(id, turn, messages, "Turn " + Decimal("0123456789", turn))
  }

  function PushUndo(m: Stacks, c: Checkpoint): Stacks {
    m.(undo := Newest(m.undo + [c], m.max))
  }

  function Saved(m: Stacks, c: Checkpoint): Stacks {
    PushUndo(m.(redo := []), c)
  }

  function Undone(m: Stacks, c: Checkpoint): (Stacks, Option<Checkpoint>) {
    if m.undo == [] then (m, None)
    else (m.(redo := m.redo + [c], undo := m.undo[..|m.undo| - 1]), Some(m.undo[|m.undo| - 1]))
  }

  function Redone(m: Stacks, c: Checkpoint): (Stacks, Option<Checkpoint>) {
    if m.redo == [] then (m, None)
    else (PushUndo(m, c).(redo := m.redo[..|m.redo| - 1]), Some(m.redo[|m.redo| - 1]))
  }

  /** Index of the first checkpoint with the id, or the length. */
  function PositionOfId(s: seq<Checkpoint>, id: nat): (n: nat)
    ensures n <= |s| && (n < |s| ==> s[n].id == id) && forall i | 0 <= i < n :: s[i].id != id
  {
    if s == [] || s[0].id == id then 0 else 1 + PositionOfId(s[1..], id)
  }

  function Restored(m: Stacks, id: nat): (Stacks, Option<Checkpoint>) {
    var n := PositionOfId(m.undo, id);
    if n == |m.undo| then (m, None) else (m.(redo := [], undo := m.undo[..n]), Some(m.undo[n]))
  }

  class UndoManager {
    var undoStack: seq<Checkpoint>
    var redoStack: seq<Checkpoint>
    var maxCheckpoints: nat

    ghost function Value(): Stacks reads this {
      Stacks(undoStack, redoStack, maxCheckpoints)
    }

    constructor ()
      ensures Value() == Stacks([], [], 20)
    {
      undoStack, redoStack, maxCheckpoints := [], [], 20;
    }

    method PushUndoStack(c: Checkpoint)
      modifies this
      ensures Value() == PushUndo(old(Value()), c)
    {
      undoStack := undoStack + [c];
      while |undoStack| > maxCheckpoints
        invariant redoStack == old(redoStack) && maxCheckpoints == old(maxCheckpoints)
        invariant undoStack == Newest(old(undoStack) + [c], |undoStack|)
        invariant |undoStack| <= |old(undoStack)| + 1
        invariant |undoStack| >= maxCheckpoints || undoStack == old(undoStack) + [c]
      {
        undoStack := undoStack[1..];
      }
    }

    method Save(id: nat, turn: nat, messages: seq<ChatMessage>, description: string)
      modifies this
      ensures Value() == Saved(old(Value()), Checkpoint(id, turn, messages, description))
    {
      redoStack := [];
      PushUndoStack(Checkpoint(id, turn, messages, description));
    }

    method UndoOnce(id: nat, turn: nat, messages: seq<ChatMessage>) returns (r: Option<Checkpoint>)
      modifies this
      ensures (Value(), r) == Undone(old(Value()), Current(id, turn, messages))
      ensures old(undoStack) == [] ==> r.None? && Value() == old(Value())
      ensures old(undoStack) != [] ==>
                && r.Some? && old(undoStack) == undoStack + [r.value]
                && redoStack == old(redoStack)
                   + [Checkpoint(id, turn, messages, "Turn " + Decimal("0123456789", turn))]
    {
      if undoStack == [] {
        return None;
      }
      redoStack := redoStack + [Current(id, turn, messages)];
      r := Some(undoStack[|undoStack| - 1]);
      undoStack := undoStack[..|undoStack| - 1];
    }

    method RedoOnce(id: nat, turn: nat, messages: seq<ChatMessage>) returns (r: Option<Checkpoint>)
      modifies this
      ensures (Value(), r) == Redone(old(Value()), Current(id, turn, messages))
      ensures old(redoStack) == [] ==> r.None? && Value() == old(Value())
      ensures old(redoStack) != [] ==>
                && r.Some? && old(redoStack) == redoStack + [r.value]
                && undoStack == Newest(old(undoStack)
                   + [Checkpoint(id, turn, messages, "Turn " + Decimal("0123456789", turn))], maxCheckpoints)
    {
      if redoStack == [] {
        return None;
      }
      PushUndoStack(Current(id, turn, messages));
      r := Some(redoStack[|redoStack| - 1]);
      redoStack := redoStack[..|redoStack| - 1];
    }

    method Restore(id: nat) returns (r: Option<Checkpoint>)
      modifies this
      ensures (Value(), r) == Restored(old(Value()), id)
    {
      var pos := 0;
      while pos < |undoStack| && undoStack[pos].id != id
        invariant pos <= |undoStack|
        invariant forall i | 0 <= i < pos :: undoStack[i].id != id
      {
        pos := pos + 1;
      }
      assert pos == PositionOfId(undoStack, id);
      if pos == |undoStack| {
        return None;
      }
      redoStack := [];
      while |undoStack| > pos + 1
        invariant redoStack == [] && maxCheckpoints == old(maxCheckpoints)
        invariant pos < |undoStack| <= |old(undoStack)| && undoStack == old(undoStack)[..|undoStack|]
      {
        undoStack := undoStack[..|undoStack| - 1];
      }
      r := Some(undoStack[pos]);
      undoStack := undoStack[..pos];
      assert undoStack == old(undoStack)[..pos];
    }

    method Clear()
      modifies this
      ensures Value() == old(Value()).(undo := [], redo := [])
    {
      undoStack, redoStack := [], [];
    }
  }

  // ---------- The timeline ----------

  /** What the conversation is restored from. */
  datatype Snap = Snap(turn: nat, messages: seq<ChatMessage>)

  function View(c: Checkpoint): Snap {
    Snap(c.turn, c.messages)
  }

  function Views(s: seq<Checkpoint>): seq<Snap> {
    seq(|s|, i requires 0 <= i < |s| => View(s[i]))
  }

  function Reversed<T>(s: seq<T>): seq<T> {
    seq(|s|, i requires 0 <= i < |s| => s[|s| - 1 - i])
  }

  /** The manager together with the conversation, which adopts every checkpoint it is given. */
  datatype World = World(m: Stacks, now: Snap)

  datatype Cursor = Cursor(line: seq<Snap>, at: nat)

  function Timeline(w: World): Cursor {
    Cursor(Views(w.m.undo) + [w.now] + Reversed(Views(w.m.redo)), |w.m.undo|)
  }

  datatype Op =
    | Work(snap: Snap)
    | SaveOp(id: nat, description: string)
    | UndoOp(id: nat)
    | RedoOp(id: nat)
    | RestoreOp(id: nat)
    | ClearOp

  function Adopt(m: Stacks, given: Option<Checkpoint>, now: Snap): World {
    World(m, if given.Some? then View(given.value) else now)
  }

  function Apply(w: World, op: Op): World {
    match op
    case Work(snap) => w.(now := snap)
    case SaveOp(id, description) => w.(m := Saved(w.m, Checkpoint(id, w.now.turn, w.now.messages, description)))
    case UndoOp(id) => var r := Undone(w.m, Current(id, w.now.turn, w.now.messages)); Adopt(r.0, r.1, w.now)
    case RedoOp(id) => var r := Redone(w.m, Current(id, w.now.turn, w.now.messages)); Adopt(r.0, r.1, w.now)
    case RestoreOp(id) => var r := Restored(w.m, id); Adopt(r.0, r.1, w.now)
    case ClearOp => w.(m := w.m.(undo := [], redo := []))
  }

  /** The same operations on a timeline. `pos` is where `restore` finds its checkpoint. */
  function Move(max: nat, c: Cursor, op: Op, pos: nat): Cursor
    requires c.at < |c.line|
  {
    match op
    case Work(snap) => c.(line := c.line[c.at := snap])
    case SaveOp(_, _) =>
      var past := Newest(c.line[..c.at + 1], max);
      Cursor(past + [c.line[c.at]], |past|)
    case UndoOp(_) => if c.at == 0 then c else c.(at := c.at - 1)
    case RedoOp(_) => if c.at + 1 == |c.line| then c else c.(at := c.at + 1)
    case RestoreOp(_) => if pos < c.at then Cursor(c.line[..pos + 1], pos) else c
    case ClearOp => Cursor([c.line[c.at]], 0)
  }

  /** Together the stacks stay within the limit. */
  ghost predicate Bounded(m: Stacks) {
    |m.undo| + |m.redo| <= m.max
  }

  lemma UndoMoves(w: World, id: nat)
    ensures Timeline(Apply(w, UndoOp(id))) == Move(w.m.max, Timeline(w), UndoOp(id), 0)
  {
  }

  lemma RedoMoves(w: World, id: nat)
    requires Bounded(w.m)
    ensures Timeline(Apply(w, RedoOp(id))) == Move(w.m.max, Timeline(w), RedoOp(id), 0)
  {
  }

  lemma SaveMoves(w: World, id: nat, description: string)
    ensures Timeline(Apply(w, SaveOp(id, description))) == Move(w.m.max, Timeline(w), SaveOp(id, description), 0)
  {
    var w', c := Apply(w, SaveOp(id, description)), Timeline(w);
    assert c.line[..c.at + 1] == Views(w.m.undo + [Checkpoint(id, w.now.turn, w.now.messages, description)]);
    assert Views(w'.m.undo) == Newest(c.line[..c.at + 1], w.m.max);
  }

  lemma RestoreMoves(w: World, id: nat)
    ensures Timeline(Apply(w, RestoreOp(id))) == Move(w.m.max, Timeline(w), RestoreOp(id), PositionOfId(w.m.undo, id))
  {
  }

  /** Every operation does to the stacks what it should do to a timeline, and the bound
      that keeps `redo` from dropping history is kept. */
  lemma StacksRefineTimeline(w: World, op: Op)
    requires Bounded(w.m)
    ensures Bounded(Apply(w, op).m) && Apply(w, op).m.max == w.m.max
    ensures Timeline(Apply(w, op)) ==
            Move(w.m.max, Timeline(w), op, if op.RestoreOp? then PositionOfId(w.m.undo, op.id) else 0)
  {
    match op
    case Work(snap) =>
      assert Timeline(Apply(w, op)).line == Timeline(w).line[|w.m.undo| := snap];
    case SaveOp(id, description) => SaveMoves(w, id, description);
    case UndoOp(id) => UndoMoves(w, id);
    case RedoOp(id) => RedoMoves(w, id);
    case RestoreOp(id) => RestoreMoves(w, id);
    case ClearOp =>
  }

  function Run(w: World, ops: seq<Op>): World
    decreases |ops|
  {
    if ops == [] then w else Run(Apply(w, ops[0]), ops[1..])
  }

  /** From a new manager no run of operations exceeds the bound, so `redo` never evicts. */
  lemma {:induction false} ReachableIsBounded(w: World, ops: seq<Op>)
    requires Bounded(w.m)
    ensures Bounded(Run(w, ops).m) && Run(w, ops).m.max == w.m.max
    decreases |ops|
  {
    if ops != [] {
      StacksRefineTimeline(w, ops[0]);
      ReachableIsBounded(Apply(w, ops[0]), ops[1..]);
    }
  }

  ghost predicate AllUndos(ops: seq<Op>) {
    forall op | op in ops :: op.UndoOp?
  }

  ghost predicate AllRedos(ops: seq<Op>) {
    forall op | op in ops :: op.RedoOp?
  }

  lemma {:induction false} RunUndos(w: World, ops: seq<Op>)
    requires Bounded(w.m) && |ops| <= |w.m.undo| && AllUndos(ops)
    ensures Timeline(Run(w, ops)) == Timeline(w).(at := Timeline(w).at - |ops|)
    ensures Bounded(Run(w, ops).m)
    decreases |ops|
  {
    if ops != [] {
      assert ops[0] in ops;
      StacksRefineTimeline(w, ops[0]);
      RunUndos(Apply(w, ops[0]), ops[1..]);
    }
  }

  lemma {:induction false} RunRedos(w: World, ops: seq<Op>)
    requires Bounded(w.m) && |ops| <= |w.m.redo| && AllRedos(ops)
    ensures Timeline(Run(w, ops)) == Timeline(w).(at := Timeline(w).at + |ops|)
    ensures Bounded(Run(w, ops).m)
    decreases |ops|
  {
    if ops != [] {
      assert ops[0] in ops;
      StacksRefineTimeline(w, ops[0]);
      RunRedos(Apply(w, ops[0]), ops[1..]);
    }
  }

  /** As many undos and then as many redos lead back to the same conversation, with the
      same states before and after it. Only checkpoint ids and descriptions may differ. */
  lemma UndosThenRedos(w: World, undos: seq<Op>, redos: seq<Op>)
    requires Bounded(w.m) && |undos| == |redos| <= |w.m.undo|
    requires AllUndos(undos) && AllRedos(redos)
    ensures var w' := Run(Run(w, undos), redos);
            && w'.now == w.now && Views(w'.m.undo) == Views(w.m.undo) && Views(w'.m.redo) == Views(w.m.redo)
  {
    RunUndos(w, undos);
    var mid := Run(w, undos);
    assert |mid.m.redo| == |Timeline(mid).line| - 1 - Timeline(mid).at;
    RunRedos(mid, redos);
    TimelineDetermines(w, Run(mid, redos));
  }

  /** A timeline and its cursor fix everything the user can get back to. */
  lemma TimelineDetermines(w: World, v: World)
    requires Timeline(w) == Timeline(v)
    ensures w.now == v.now && Views(w.m.undo) == Views(v.m.undo) && Views(w.m.redo) == Views(v.m.redo)
  {
    var line, n := Timeline(w).line, |w.m.undo|;
    assert line[..n] == Views(w.m.undo) && line[..n] == Views(v.m.undo);
    assert line[n] == w.now && line[n] == v.now;
    var a, b := Views(w.m.redo), Views(v.m.redo);
    assert line[n + 1..] == Reversed(a) && line[n + 1..] == Reversed(b);
    forall i | 0 <= i < |a| ensures a[i] == b[i] {
      assert Reversed(a)[|a| - 1 - i] == Reversed(b)[|a| - 1 - i];
    }
  }

  /** A checkpoint just saved is found by its id, whole, and restoring it leaves what was saved
      before it, up to the limit. */
  lemma RestoreFindsSaved(m: Stacks, c: Checkpoint)
    requires m.max >= 1 && forall x | x in m.undo :: x.id != c.id
    ensures Restored(Saved(m, c), c.id) == (Stacks(Newest(m.undo, m.max - 1), [], m.max), Some(c))
  {
    var saved := Saved(m, c).undo;
    var kept := Newest(m.undo, m.max - 1);
    assert saved == kept + [c];
    assert forall i | 0 <= i < |kept| :: saved[i] == kept[i] && kept[i] in m.undo;
    assert saved[|kept|] == c;
    assert PositionOfId(saved, c.id) == |kept|;
  }

  /** The documented constant total needs the bound: `redo` keeps `undo_count + redo_count`
      exactly when the undo stack is not yet full. */
  lemma RedoKeepsTotalExactly(m: Stacks, c: Checkpoint)
    requires m.redo != []
    ensures var m' := Redone(m, c).0;
            |m'.undo| + |m'.redo| == |m.undo| + |m.redo| <==> |m.undo| < m.max
  {}

  /** Contrary to the comment on the manager, `restore` also changes the total: a found
      checkpoint always leaves strictly fewer. */
  lemma RestoreShrinksTotal(m: Stacks, id: nat)
    ensures var (m', r) := Restored(m, id);
            && (r.Some? <==> exists c :: c in m.undo && c.id == id)
            && (r.Some? ==> |m'.undo| + |m'.redo| < |m.undo| + |m.redo| && m'.undo + [r.value] <= m.undo)
            && (r.None? ==> m' == m)
  {
  }
}
