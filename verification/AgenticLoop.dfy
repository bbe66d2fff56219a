/**
 The shared agentic loop: ask the model, run its tool calls or handle its text, repeat.
 The delegate and the model are the environment: a script says what they answer in each
 iteration and what they leave in the conversation context.
 */
module AgenticLoop {
  import opened Prelude
  import opened Chat

  datatype Context = Context(messages: seq<ChatMessage>, tools: seq<string>, forceText: bool)

  datatype Signal = Proceed | StopLoop | Inject(message: string)

  datatype Outcome = Response(text: string) | Stopped | MaxIterations | NeedApproval

  datatype Output = Text(text: string) | ToolCalls(calls: seq<string>)

  datatype ToolsResult = ToolsDone | ToolsEnd(outcome: Outcome) | ToolsError

  /** What the environment does in one iteration: each callback is given the context and
      gives back what it leaves there. No output from the model is an error. */
  datatype Script = Script(
    signal: Signal,
    before: Context -> (Context, Option<Outcome>),
    llm: Context -> (Context, Option<Output>),
    onNudge: Context -> Context,
    onText: Context -> (Context, Option<Outcome>),
    onTools: Context -> (Context, ToolsResult))

  datatype Config = Config(maxIterations: nat, nudging: bool, maxNudges: nat)

  /** `signals` is the recogniser of text that announces a tool call; `nudge` the reply to it. */
  datatype Setup = Setup(config: Config, signals: string -> bool, nudge: string)

  predicate ShouldNudge(s: Setup, c: Context, nudges: nat, text: string) {
    var enabled := s.config.nudging && nudges < s.config.maxNudges;
    var expected := c.tools != [] && !c.forceText;
    enabled && expected && s.signals(text)
  }

  datatype End = Done(outcome: Outcome) | Failed

  /** How an iteration went. The model was not asked when the delegate stopped the loop
      by a signal or ended it before the call. */
  datatype Kind = Signalled | EndedBefore | CallFailed | Nudge | IntentText | OtherText | Tools

  predicate Asks(k: Kind) { !k.Signalled? && !k.EndedBefore? }

  /** The state after an iteration. An iteration without an end is completed. */
  datatype Turn = Turn(kind: Kind, context: Context, nudges: nat, end: Option<End>)

  function Pushed(c: Context, m: ChatMessage): Context {
    c.(messages := c.messages + [m])
  }

  function EndWith(outcome: Option<Outcome>): Option<End> {
    if outcome.Some? then Some(Done(outcome.value)) else None
  }

  function OnText(s: Setup, script: Script, c: Context, nudges: nat, text: string): Turn {
    if ShouldNudge(s, c, nudges, text) then
      var replied := Pushed(script.onNudge(c), ChatMessage(Assistant, text));
      Turn(Nudge, Pushed(replied, ChatMessage(User, s.nudge)), nudges + 1, None)
    else
      var (c', outcome) := script.onText(c);
      if s.signals(text) then Turn(IntentText, c', nudges, EndWith(outcome))
      else Turn(OtherText, c', 0, EndWith(outcome))
  }

  function AfterTools(r: ToolsResult): Option<End> {
    match r
    case ToolsDone => None
    case ToolsEnd(outcome) => Some(Done(outcome))
    case ToolsError => Some(Failed)
  }

  function OnTools(script: Script, c: Context): Turn {
    var (c', r) := script.onTools(c);
    Turn(Tools, c', 0, AfterTools(r))
  }

  /** One iteration from a context and a count of nudges in a row. */
  function Iterate(s: Setup, script: Script, c: Context, nudges: nat): Turn {
    if script.signal.StopLoop? then Turn(Signalled, c, nudges, Some(Done(Stopped))) else
    var c0 := if script.signal.Inject? then Pushed(c, ChatMessage(User, script.signal.message)) else c;
    var (c1, early) := script.before(c0);
    if early.Some? then Turn(EndedBefore, c1, nudges, EndWith(early)) else
    var (c2, output) := script.llm(c1);
    if output.None? then Turn(CallFailed, c2, nudges, Some(Failed)) else
    match output.value
    case Text(text) => OnText(s, script, c2, nudges, text)
    case ToolCalls(_) => OnTools(script, c2)
  }

  /** All iterations of a run, from iteration `i` on. */
  function Turns(s: Setup, scripts: nat -> Script, c: Context, nudges: nat, i: nat): seq<Turn>
    decreases s.config.maxIterations - i
  {
    if i >= s.config.maxIterations then [] else
    var t := Iterate(s, scripts(i + 1), c, nudges);
    [t] + if t.end.Some? then [] else Turns(s, scripts, t.context, t.nudges, i + 1)
  }

  // ---------- What every run satisfies ----------

  /** A tool call or a text that announces none. */
  predicate Resets(k: Kind) { k.Tools? || k.OtherText? }

  function CountNudges(turns: seq<Turn>): nat {
    if turns == [] then 0 else (if turns[0].kind.Nudge? then 1 else 0) + CountNudges(turns[1..])
  }

  ghost predicate NoReset(turns: seq<Turn>) {
    forall t | t in turns :: !Resets(t.kind)
  }

  /** The counter goes up with a nudge, which is below the limit, and back with a reset. */
  predicate Counted(max: nat, nudges: nat, turns: seq<Turn>)
    decreases |turns|
  {
    turns != [] ==>
      && (turns[0].kind.Nudge? ==> nudges < max && turns[0].nudges == nudges + 1)
      && (!turns[0].kind.Nudge? && !Resets(turns[0].kind) ==> turns[0].nudges == nudges)
      && (Resets(turns[0].kind) ==> turns[0].nudges == 0)
      && Counted(max, turns[0].nudges, turns[1..])
  }

  lemma {:induction false} TurnsAreCounted(s: Setup, scripts: nat -> Script, c: Context, nudges: nat, i: nat)
    ensures Counted(s.config.maxNudges, nudges, Turns(s, scripts, c, nudges, i))
    decreases s.config.maxIterations - i
  {
    if i < s.config.maxIterations {
      var t := Iterate(s, scripts(i + 1), c, nudges);
      if t.end.None? {
        var rest := Turns(s, scripts, t.context, t.nudges, i + 1);
        TurnsAreCounted(s, scripts, t.context, t.nudges, i + 1);
        assert ([t] + rest)[1..] == rest;
      }
    }
  }

  lemma {:induction false} CountedFromStart(max: nat, nudges: nat, turns: seq<Turn>, n: nat)
    requires nudges <= max && Counted(max, nudges, turns) && n <= |turns| && NoReset(turns[..n])
    ensures CountNudges(turns[..n]) <= max - nudges
    decreases n
  {
    if n > 0 {
      assert turns[0] in turns[..n] && turns[..n][1..] == turns[1..][..n - 1];
      assert forall t | t in turns[1..][..n - 1] :: t in turns[..n];
      CountedFromStart(max, turns[0].nudges, turns[1..], n - 1);
    }
  }

  lemma {:induction false} CountedSuffix(max: nat, nudges: nat, turns: seq<Turn>, from: nat) returns (n: nat)
    requires nudges <= max && Counted(max, nudges, turns) && from <= |turns|
    ensures n <= max && Counted(max, n, turns[from..])
    decreases from
  {
    if from == 0 {
      n := nudges;
      assert turns[from..] == turns;
    } else {
      n := CountedSuffix(max, turns[0].nudges, turns[1..], from - 1);
      assert turns[1..][from - 1..] == turns[from..];
    }
  }

  /** Between two replies that reset the counter there are at most `max_tool_intent_nudges`
      nudges, wherever the stretch begins. */
  lemma NudgesAreBounded(s: Setup, scripts: nat -> Script, c: Context, nudges: nat, i: nat, from: nat, to: nat)
    requires nudges <= s.config.maxNudges
    requires var turns := Turns(s, scripts, c, nudges, i); from <= to <= |turns| && NoReset(turns[from..to])
    ensures CountNudges(Turns(s, scripts, c, nudges, i)[from..to]) <= s.config.maxNudges
  {
    var max, turns := s.config.maxNudges, Turns(s, scripts, c, nudges, i);
    TurnsAreCounted(s, scripts, c, nudges, i);
    var n := CountedSuffix(max, nudges, turns, from);
    assert turns[from..][..to - from] == turns[from..to];
    CountedFromStart(max, n, turns[from..], to - from);
  }

  /** The loop asks the model at most `max_iterations` times; every iteration but the last
      is completed; and the loop runs out only after completing all of them. */
  lemma {:induction false} RunShape(s: Setup, scripts: nat -> Script, c: Context, nudges: nat, i: nat)
    requires i <= s.config.maxIterations
    ensures var turns := Turns(s, scripts, c, nudges, i);
            && |turns| <= s.config.maxIterations - i
            && (forall k | 0 <= k < |turns| - 1 :: turns[k].end.None?)
            && (|turns| < s.config.maxIterations - i ==> turns != [] && turns[|turns| - 1].end.Some?)
    decreases s.config.maxIterations - i
  {
    if i < s.config.maxIterations {
      var t := Iterate(s, scripts(i + 1), c, nudges);
      if t.end.None? {
        RunShape(s, scripts, t.context, t.nudges, i + 1);
      }
    }
  }

  /** What `before_llm_call` leaves and decides. */
  function Prepared(script: Script, c: Context): (Context, Option<Outcome>) {
    script.before(if script.signal.Inject? then Pushed(c, ChatMessage(User, script.signal.message)) else c)
  }

  /** The context and the output that the model's call gives, if the iteration gets to it. */
  function Called(script: Script, c: Context): (Context, Option<Output>) {
    script.llm(Prepared(script, c).0)
  }

  /** Each way an iteration can go, in terms of what the delegate and the model answer: which
      of them ends the loop and how, whose context is left, and when the counter restarts. */
  lemma IterationFollowsCallbacks(s: Setup, script: Script, c: Context, nudges: nat)
    ensures var t := Iterate(s, script, c, nudges);
            var (ready, early), (seen, reply) := Prepared(script, c), Called(script, c);
            && (script.signal.StopLoop? ==> t.context == c && t.end == Some(Done(Stopped)))
            && (!script.signal.StopLoop? && early.Some? ==> t.context == ready && t.end == Some(Done(early.value)))
            && (!script.signal.StopLoop? && early.None? ==>
                && (reply.None? ==> t.context == seen && t.end == Some(Failed))
                && (reply.Some? && reply.value.Text? && !t.kind.Nudge? ==>
                    && t.context == script.onText(seen).0
                    && (forall o :: t.end == Some(Done(o)) <==> script.onText(seen).1 == Some(o))
                    && t.end != Some(Failed)
                    && t.nudges == if s.signals(reply.value.text) then nudges else 0)
                && (reply.Some? && reply.value.ToolCalls? ==>
                    && t.context == script.onTools(seen).0
                    && (forall o :: t.end == Some(Done(o)) <==> script.onTools(seen).1 == ToolsEnd(o))
                    && (t.end == Some(Failed) <==> script.onTools(seen).1.ToolsError?)
                    && t.nudges == 0))
  {
  }

  /** The context and the count an iteration of a run begins with. */
  function Given(c: Context, nudges: nat, turns: seq<Turn>, k: nat): (Context, nat)
    requires k <= |turns|
  {
    if k == 0 then (c, nudges) else (turns[k - 1].context, turns[k - 1].nudges)
  }

  /** Every iteration of a run begins with what the one before it left. */
  lemma {:induction false} TurnsChain(s: Setup, scripts: nat -> Script, c: Context, nudges: nat, i: nat, k: nat)
    requires k < |Turns(s, scripts, c, nudges, i)|
    ensures var turns := Turns(s, scripts, c, nudges, i);
            var (before, count) := Given(c, nudges, turns, k);
            turns[k] == Iterate(s, scripts(i + k + 1), before, count)
    decreases k
  {
    var turns := Turns(s, scripts, c, nudges, i);
    if k > 0 {
      var t := turns[0];
      assert t.end.None? && turns[1..] == Turns(s, scripts, t.context, t.nudges, i + 1);
      TurnsChain(s, scripts, t.context, t.nudges, i + 1, k - 1);
      assert i + 1 + (k - 1) + 1 == i + k + 1 && turns[k] == turns[1..][k - 1];
    }
  }

  /** What the callbacks of one iteration decide, taken in the order in which they are asked. */
  function Decision(s: Setup, script: Script, c: Context, nudges: nat): Option<End> {
    var (seen, reply) := Called(script, c);
    if script.signal.StopLoop? then Some(Done(Stopped))
    else if Prepared(script, c).1.Some? then Some(Done(Prepared(script, c).1.value))
    else match reply
      case None => Some(Failed)
      case Some(Text(text)) => if ShouldNudge(s, seen, nudges, text) then None else EndWith(script.onText(seen).1)
      case Some(ToolCalls(_)) => AfterTools(script.onTools(seen).1)
  }

  /** The run ends with the first decision any callback makes, and runs out of iterations
      exactly when none of them makes one. */
  lemma RunEndsWithFirstDecision(s: Setup, scripts: nat -> Script, c: Context, k: nat)
    requires k < |Turns(s, scripts, c, 0, 0)|
    ensures var turns := Turns(s, scripts, c, 0, 0);
            var (before, count) := Given(c, 0, turns, k);
            var decision := Decision(s, scripts(k + 1), before, count);
            && turns[k].end == decision
            && (k + 1 < |turns| ==> decision.None?)
            && (k + 1 == |turns| ==>
                EndOf(turns) == if decision.Some? then decision.value else Done(MaxIterations))
            && (k + 1 == |turns| < s.config.maxIterations ==> decision.Some?)
  {
    TurnsChain(s, scripts, c, 0, 0, k);
    RunShape(s, scripts, c, 0, 0);
    var (before, count) := Given(c, 0, Turns(s, scripts, c, 0, 0), k);
    DecisionIsEnd(s, scripts(k + 1), before, count);
  }

  lemma DecisionIsEnd(s: Setup, script: Script, c: Context, nudges: nat)
    ensures Iterate(s, script, c, nudges).end == Decision(s, script, c, nudges)
  {
  }

  /** An iteration nudges exactly when neither a signal nor the delegate ends it before the
      model's call, and the reply is a text that announces a tool call, with nudging on, below
      the limit and with tools on offer. It then leaves the context as the delegate leaves it,
      plus that reply and the nudge. */
  lemma NudgeAppendsReplyThenNudge(s: Setup, script: Script, c: Context, nudges: nat)
    ensures var t, (seen, reply) := Iterate(s, script, c, nudges), Called(script, c);
            && (t.kind.Nudge? <==>
                && !script.signal.StopLoop? && Prepared(script, c).1.None?
                && reply.Some? && reply.value.Text? && s.signals(reply.value.text)
                && s.config.nudging && nudges < s.config.maxNudges && seen.tools != [] && !seen.forceText)
            && (t.kind.Nudge? ==>
                && t.context == script.onNudge(seen).(messages := script.onNudge(seen).messages
                                + [ChatMessage(Assistant, reply.value.text), ChatMessage(User, s.nudge)])
                && t.nudges == nudges + 1 && t.end.None?)
  {
    var (seen, reply) := Called(script, c);
    if reply.Some? && reply.value.Text? {
      var left := script.onNudge(seen).messages;
      var said, nudge := ChatMessage(Assistant, reply.value.text), ChatMessage(User, s.nudge);
      assert left + [said] + [nudge] == left + [said, nudge];
    }
  }

  // ---------- The loop ----------

  function EndOf(turns: seq<Turn>): End {
    if turns != [] && turns[|turns| - 1].end.Some? then turns[|turns| - 1].end.value else Done(MaxIterations)
  }

  /** The numbers 1, 2, 3 and so on. */
  function UpTo(n: nat): seq<nat> {
    seq(n, k => k + 1)
  }

  function Completed(turns: seq<Turn>): nat {
    if turns != [] && turns[|turns| - 1].end.Some? then |turns| - 1 else |turns|
  }

  function Asked(turns: seq<Turn>): nat {
    if turns != [] && !Asks(turns[|turns| - 1].kind) then |turns| - 1 else |turns|
  }

  /** The body of the loop up to `after_iteration`. */
  method RunIteration(s: Setup, script: Script, start: Context, nudgesSoFar: nat) returns (t: Turn)
    ensures t == Iterate(s, script, start, nudgesSoFar)
  {
    var context, nudges := start, nudgesSoFar;
    match script.signal {
      case Proceed =>
      case StopLoop => return Turn(Signalled, context, nudges, Some(Done(Stopped)));
      case Inject(message) => context := Pushed(context, ChatMessage(User, message));
    }
    var early := script.before(context);
    context := early.0;
    if early.1.Some? {
      return Turn(EndedBefore, context, nudges, Some(Done(early.1.value)));
    }
    var output := script.llm(context);
    context := output.0;
    if output.1.None? {
      return Turn(CallFailed, context, nudges, Some(Failed));
    }
    match output.1.value {
      case Text(text) =>
        if ShouldNudge(s, context, nudges, text) {
          nudges := nudges + 1;
          context := script.onNudge(context);
          context := Pushed(context, ChatMessage(Assistant, text));
          context := Pushed(context, ChatMessage(User, s.nudge));
          return Turn(Nudge, context, nudges, None);
        }
        if !s.signals(text) {
          nudges := 0;
        }
        var action := script.onText(context);
        return Turn(if s.signals(text) then IntentText else OtherText, action.0, nudges, EndWith(action.1));
      case ToolCalls(_) =>
        nudges := 0;
        var r := script.onTools(context);
        return Turn(Tools, r.0, nudges, AfterTools(r.1));
    }
  }

  lemma TurnsStep(s: Setup, scripts: nat -> Script, c: Context, nudges: nat, i: nat, turns: seq<Turn>, t: Turn)
    requires i < s.config.maxIterations && t == Iterate(s, scripts(i + 1), c, nudges)
    ensures turns + Turns(s, scripts, c, nudges, i) ==
            (turns + [t]) + if t.end.Some? then [] else Turns(s, scripts, t.context, t.nudges, i + 1)
  {
  }

  lemma CompletedAsks(s: Setup, script: Script, c: Context, nudges: nat)
    ensures var t := Iterate(s, script, c, nudges); t.end.None? ==> Asks(t.kind)
  {}

  lemma UpToNext(n: nat)
    ensures UpTo(n) + [n + 1] == UpTo(n + 1)
  {}

  /** `asked` and `after` are the iteration numbers that `call_llm` and `after_iteration`
      are called with, in call order. */
  method RunAgenticLoop(s: Setup, scripts: nat -> Script, start: Context)
    returns (end: End, context: Context, asked: seq<nat>, after: seq<nat>, ghost turns: seq<Turn>)
    ensures turns == Turns(s, scripts, start, 0, 0)
    ensures end == EndOf(turns) && context == if turns == [] then start else turns[|turns| - 1].context
    ensures after == UpTo(Completed(turns))
    ensures asked == UpTo(Asked(turns)) && |asked| <= s.config.maxIterations
  {
    var nudges := 0;
    context, asked, after, turns := start, [], [], [];
    var iteration := 1;
    while iteration <= s.config.maxIterations
      invariant 1 <= iteration <= s.config.maxIterations + 1
      invariant |turns| == iteration - 1 && asked == UpTo(iteration - 1) && after == UpTo(iteration - 1)
      invariant Turns(s, scripts, start, 0, 0) == turns + Turns(s, scripts, context, nudges, iteration - 1)
      invariant turns != [] ==> turns[|turns| - 1].end.None? && Asks(turns[|turns| - 1].kind)
      invariant turns != [] ==> turns[|turns| - 1].context == context
      invariant turns == [] ==> context == start
      decreases s.config.maxIterations + 1 - iteration
    {
      var t := RunIteration(s, scripts(iteration), context, nudges);
      TurnsStep(s, scripts, context, nudges, iteration - 1, turns, t);
      CompletedAsks(s, scripts(iteration), context, nudges);
      UpToNext(iteration - 1);
      turns := turns + [t];
      context, nudges := t.context, t.nudges;
      if Asks(t.kind) {
        asked := asked + [iteration];
      }
      if t.end.Some? {
        return t.end.value, context, asked, after, turns;
      }
      after := after + [iteration];
      iteration := iteration + 1;
    }
    end := Done(MaxIterations);
  }
}
