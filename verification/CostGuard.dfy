/**
 Cost guardrails: a daily budget with a cached "exceeded" flag, and an hourly action limit
 over a lazily drained window of timestamps. Checking and recording are separate calls, and
 each takes its locks one after the other, so callers interleave between the regions.
 Money is exact (`real`), instants are nanoseconds since the clock's origin.
 */
module CostGuard {
  import opened Prelude

  const HOUR: nat := 3_600_000_000_000

  const U64_MAX: nat := 0xFFFF_FFFF_FFFF_FFFF

  datatype Config = Config(maxCents: Option<nat>, maxActions: Option<nat>)

  datatype Guard = Guard(total: real, resetDate: int, exceeded: bool, window: seq<nat>)

  datatype Verdict = Allowed | DailyBudget(spent: nat, limit: nat) | HourlyRate(actions: nat, limit: nat)

  // ---------- What each locked region does ----------

  function Trunc(x: real): int {
    if x >= 0.0 then x.Floor else -((-x).Floor)
  }

  /** Whole cents; an amount that does not parse as u64 (negative, or too large) counts as zero. */
  function ToCents(usd: real): nat {
    var cents := Trunc(usd * 100.0);
    if 0 <= cents <= U64_MAX then cents else 0
  }

  predicate OverBudget(cfg: Config, total: real) {
    cfg.maxCents.Some? && ToCents(total) >= cfg.maxCents.value
  }

  /** The budget comparison of `check_allowed`, under the daily lock. */
  function Compared(cfg: Config, g: Guard): Guard {
    if OverBudget(cfg, g.total) then g.(exceeded := true) else g
  }

  function Charged(cfg: Config, g: Guard, today: int, cost: real): Guard {
    var day := if today != g.resetDate then g.(total := 0.0, resetDate := today, exceeded := false) else g;
    Compared(cfg, day.(total := day.total + cost))
  }

  function DropBefore(window: seq<nat>, cutoff: nat): seq<nat> {
    if window != [] && window[0] < cutoff then DropBefore(window[1..], cutoff) else window
  }

  /** No cutoff exists within the first hour of the clock. */
  function Drained(window: seq<nat>, now: nat): seq<nat> {
    if now < HOUR then window else DropBefore(window, now - HOUR)
  }

  function DailySpend(g: Guard, today: int): real {
    if today != g.resetDate then 0.0 else g.total
  }

  /** Whole cents, cut off and not rounded; an amount below zero or past u64 counts as none. */
  lemma CentsAreTruncated(usd: real)
    ensures 0.0 <= usd && ToCents(usd) != 0 ==> ToCents(usd) as real <= usd * 100.0 < ToCents(usd) as real + 1.0
    ensures 0.01 <= usd && usd * 100.0 < U64_MAX as real + 1.0 <==> ToCents(usd) != 0
  {
  }

  // ---------- The guard ----------

  function SaturatingAdd(a: nat, b: nat): nat {
    if a + b > U32_MAX then U32_MAX else a + b
  }

  function SaturatingSub(a: nat, b: nat): nat {
    if a < b then 0 else a - b
  }

  datatype Usage = Usage(input: nat, output: nat, cacheRead: nat, cacheCreation: nat)

  function CallCost(u: Usage, readDiscount: real, writeMultiplier: real, inputRate: real, outputRate: real): real {
    var uncached := SaturatingSub(u.input, SaturatingAdd(u.cacheRead, u.cacheCreation));
    var discount := if readDiscount == 0.0 then 1.0 else readDiscount;
    inputRate * uncached as real + inputRate * u.cacheRead as real / discount
    + inputRate * u.cacheCreation as real * writeMultiplier + outputRate * u.output as real
  }

  lemma CallCostIsNonNegative(u: Usage, readDiscount: real, writeMultiplier: real, inputRate: real, outputRate: real)
    requires readDiscount >= 0.0 && writeMultiplier >= 0.0 && inputRate >= 0.0 && outputRate >= 0.0
    ensures CallCost(u, readDiscount, writeMultiplier, inputRate, outputRate) >= 0.0
  {
    var discount := if readDiscount == 0.0 then 1.0 else readDiscount;
    ProductIsNonNegative(inputRate, SaturatingSub(u.input, SaturatingAdd(u.cacheRead, u.cacheCreation)) as real);
    ProductIsNonNegative(inputRate, u.cacheRead as real);
    QuotientIsNonNegative(inputRate * u.cacheRead as real, discount);
    ProductIsNonNegative(inputRate, u.cacheCreation as real);
    ProductIsNonNegative(inputRate * u.cacheCreation as real, writeMultiplier);
    ProductIsNonNegative(outputRate, u.output as real);
  }

  lemma ProductIsNonNegative(x: real, y: real)
    requires x >= 0.0 && y >= 0.0
    ensures x * y >= 0.0
  {}

  lemma QuotientIsNonNegative(x: real, y: real)
    requires x >= 0.0 && y > 0.0
    ensures x / y >= 0.0
  {
  }

  /** The price list of a call. */
  datatype Prices = Prices(readDiscount: real, writeMultiplier: real, inputRate: real, outputRate: real)

  function Cost(u: Usage, p: Prices): real {
    CallCost(u, p.readDiscount, p.writeMultiplier, p.inputRate, p.outputRate)
  }

  const U32_MAX: nat := 0xFFFF_FFFF

  /** Token counts are u32, and cached tokens are part of the input. */
  predicate CachedWithinInput(u: Usage) {
    u.cacheRead + u.cacheCreation <= u.input <= U32_MAX
  }

  /** No usage costs nothing, and one more output token adds the output rate. */
  lemma CostOfOutput(u: Usage, p: Prices)
    ensures Cost(Usage(0, 0, 0, 0), p) == 0.0
    ensures Cost(u.(output := u.output + 1), p) == Cost(u, p) + p.outputRate
  {
    OneMore(p.outputRate, u.output);
    OneMore(p.inputRate, 0);
    SumOverDiscount(0.0, 0.0, if p.readDiscount == 0.0 then 1.0 else p.readDiscount);
    SumTimes(0.0, 0.0, p.writeMultiplier);
  }

  /** One more input token that is not cached adds the input rate. */
  lemma CostOfInput(u: Usage, p: Prices)
    requires CachedWithinInput(u)
    ensures Cost(u.(input := u.input + 1), p) == Cost(u, p) + p.inputRate
  {
    OneMore(p.inputRate, u.input - (u.cacheRead + u.cacheCreation));
  }

  /** Reading an input token from the cache replaces its rate by the discounted one; a
      discount of zero counts as none. */
  lemma CostOfCacheRead(u: Usage, p: Prices)
    requires CachedWithinInput(u) && u.cacheRead + u.cacheCreation < u.input
    ensures Cost(u.(cacheRead := u.cacheRead + 1), p) == Cost(u, p) - p.inputRate
            + (if p.readDiscount == 0.0 then p.inputRate else p.inputRate / p.readDiscount)
  {
    OneMore(p.inputRate, u.input - (u.cacheRead + u.cacheCreation) - 1);
    OneMore(p.inputRate, u.cacheRead);
    var discount := if p.readDiscount == 0.0 then 1.0 else p.readDiscount;
    SumOverDiscount(p.inputRate * u.cacheRead as real, p.inputRate, discount);
  }

  /** Writing an input token to the cache replaces its rate by the multiplied one. */
  lemma CostOfCacheWrite(u: Usage, p: Prices)
    requires CachedWithinInput(u) && u.cacheRead + u.cacheCreation < u.input
    ensures Cost(u.(cacheCreation := u.cacheCreation + 1), p) ==
            Cost(u, p) - p.inputRate + p.inputRate * p.writeMultiplier
  {
    OneMore(p.inputRate, u.input - (u.cacheRead + u.cacheCreation) - 1);
    OneMore(p.inputRate, u.cacheCreation);
    SumTimes(p.inputRate * u.cacheCreation as real, p.inputRate, p.writeMultiplier);
  }

  lemma OneMore(rate: real, n: nat)
    ensures rate * (n + 1) as real == rate * n as real + rate
    ensures rate * 0.0 == 0.0
  {
    assert (n + 1) as real == n as real + 1.0;
  }

  lemma SumOverDiscount(x: real, y: real, d: real)
    requires d != 0.0
    ensures (x + y) / d == x / d + y / d && 0.0 / d == 0.0
  {
  }

  lemma SumTimes(x: real, y: real, m: real)
    ensures (x + y) * m == x * m + y * m && 0.0 * m == 0.0
  {
  }

  /** Cached tokens beyond the input make the rest of the input free, not negative. */
  lemma ExcessCacheIsFree(u: Usage, p: Prices)
    requires u.input <= u.cacheRead + u.cacheCreation && u.input <= U32_MAX
    ensures Cost(u, p) == Cost(u.(input := 0), p)
  {
  }

  class CostGuard {
    const cfg: Config
    var total: real
    var resetDate: int
    var budgetExceeded: bool
    var actionWindow: seq<nat>

    ghost function Value(): Guard reads this {
      Guard(total, resetDate, budgetExceeded, actionWindow)
    }

    constructor (config: Config, today: int)
      ensures cfg == config && Value() == Guard(0.0, today, false, [])
    {
      cfg, total, resetDate, budgetExceeded, actionWindow := config, 0.0, today, false, [];
    }

    method DrainWindow(now: nat)
      modifies this`actionWindow
      ensures actionWindow == Drained(old(actionWindow), now)
    {
      if now >= HOUR {
        var cutoff := now - HOUR;
        while actionWindow != [] && actionWindow[0] < cutoff
          invariant DropBefore(actionWindow, cutoff) == DropBefore(old(actionWindow), cutoff)
          decreases |actionWindow|
        {
          actionWindow := actionWindow[1..];
        }
      }
    }

    method CheckAllowed(now: nat) returns (v: Verdict)
      modifies this
      ensures v.DailyBudget? <==> old(budgetExceeded) || OverBudget(cfg, old(total))
      ensures v.DailyBudget? ==> v.spent == ToCents(total) && actionWindow == old(actionWindow)
      ensures v.DailyBudget? ==> v.limit == if cfg.maxCents.Some? then cfg.maxCents.value else 0
      ensures v.HourlyRate? ==> cfg.maxActions == Some(v.limit) && v.actions == |actionWindow| >= v.limit
      ensures v.Allowed? && cfg.maxActions.Some? ==> |actionWindow| < cfg.maxActions.value
      ensures !v.DailyBudget? ==>
                actionWindow == if cfg.maxActions.Some? then Drained(old(actionWindow), now) else old(actionWindow)
      ensures total == old(total) && resetDate == old(resetDate)
      ensures budgetExceeded == (old(budgetExceeded) || OverBudget(cfg, old(total)))
    {
      if budgetExceeded {
        return DailyBudget(ToCents(total), if cfg.maxCents.Some? then cfg.maxCents.value else 0);
      }
      if cfg.maxCents.Some? {
        var spent := ToCents(total);
        if spent >= cfg.maxCents.value {
          budgetExceeded := true;
          return DailyBudget(spent, cfg.maxCents.value);
        }
      }
      if cfg.maxActions.Some? {
        DrainWindow(now);
        var count := |actionWindow|;
        if count >= cfg.maxActions.value {
          return HourlyRate(count, cfg.maxActions.value);
        }
      }
      return Allowed;
    }

    method RecordLlmCall(u: Usage, readDiscount: real, writeMultiplier: real, inputRate: real, outputRate: real,
                         today: int, now: nat)
      returns (cost: real)
      modifies this
      ensures cost == CallCost(u, readDiscount, writeMultiplier, inputRate, outputRate)
      ensures Value() == Charged(cfg, old(Value()), today, cost).(window := old(actionWindow) + [now])
      ensures resetDate == today && total == (if today == old(resetDate) then old(total) else 0.0) + cost
      ensures budgetExceeded == (OverBudget(cfg, total) || (old(budgetExceeded) && today == old(resetDate)))
      ensures actionWindow == old(actionWindow) + [now]
    {
      cost := CallCost(u, readDiscount, writeMultiplier, inputRate, outputRate);
      if today != resetDate {
        total, resetDate, budgetExceeded := 0.0, today, false;
      }
      total := total + cost;
      if cfg.maxCents.Some? {
        var spent := ToCents(total);
        if spent >= cfg.maxCents.value {
          budgetExceeded := true;
        }
      }
      actionWindow := actionWindow + [now];
    }

    method ActionsThisHour(now: nat) returns (n: nat)
      modifies this`actionWindow
      ensures actionWindow == Drained(old(actionWindow), now) && n == |actionWindow|
    {
      DrainWindow(now);
      n := |actionWindow|;
    }
  }

  // ---------- All callers together ----------

  /** `checked` callers have passed the budget comparison, `pending` the whole check, and
      `charged` have added their cost but not yet their timestamp. `history` holds every
      timestamp ever pushed, `records` every cost with its date. */
  datatype World = World(
    g: Guard,
    checked: nat,
    pending: nat,
    charged: nat,
    history: seq<nat>,
    records: seq<(int, real)>,
    clock: nat)

  datatype Step =
    | DenyByFlag
    | CompareBudget
    | CheckWindow(now: nat)
    | ReadWindow(now: nat)
    | Charge(today: int, cost: real)
    | Push(now: nat)
    | Abandon

  ghost predicate Enabled(w: World, st: Step) {
    match st
    case DenyByFlag => w.g.exceeded
    case CompareBudget => true
    case CheckWindow(now) => w.checked > 0 && now >= w.clock
    case ReadWindow(now) => now >= w.clock
    case Charge(_, cost) => w.pending > 0 && cost >= 0.0
    case Push(now) => w.charged > 0 && now >= w.clock
    case Abandon => w.pending > 0
  }

  predicate WindowAllows(cfg: Config, window: seq<nat>) {
    cfg.maxActions.Some? ==> |window| < cfg.maxActions.value
  }

  ghost function Apply(cfg: Config, w: World, st: Step): World
    requires Enabled(w, st)
  {
    match st
    case DenyByFlag => w
    case CompareBudget =>
      w.(g := Compared(cfg, w.g), checked := if OverBudget(cfg, w.g.total) then w.checked else w.checked + 1)
    case CheckWindow(now) =>
      var window := if cfg.maxActions.Some? then Drained(w.g.window, now) else w.g.window;
      w.(g := w.g.(window := window), clock := now, checked := w.checked - 1,
         pending := if WindowAllows(cfg, window) then w.pending + 1 else w.pending)
    case ReadWindow(now) => w.(g := w.g.(window := Drained(w.g.window, now)), clock := now)
    case Charge(today, cost) =>
      w.(g := Charged(cfg, w.g, today, cost), pending := w.pending - 1, charged := w.charged + 1,
         records := w.records + [(today, cost)])
    case Push(now) =>
      w.(g := w.g.(window := w.g.window + [now]), charged := w.charged - 1, history := w.history + [now], clock := now)
    case Abandon => w.(pending := w.pending - 1)
  }

  ghost predicate Legal(cfg: Config, w: World, steps: seq<Step>)
    decreases |steps|
  {
    steps == [] || (Enabled(w, steps[0]) && Legal(cfg, Apply(cfg, w, steps[0]), steps[1..]))
  }

  ghost function Run(cfg: Config, w: World, steps: seq<Step>): World
    requires Legal(cfg, w, steps)
    decreases |steps|
  {
    if steps == [] then w else Run(cfg, Apply(cfg, w, steps[0]), steps[1..])
  }

  ghost function Start(today: int): World {
    World(Guard(0.0, today, false, []), 0, 0, 0, [], [], 0)
  }

  // ---------- The drained window agrees with the whole history ----------

  /** Actions within the hour before `now`. */
  function Trailing(history: seq<nat>, now: nat): seq<nat> {
    Filter((t: nat) => now <= t + HOUR, history)
  }

  ghost predicate Sorted(s: seq<nat>) {
    forall i, j | 0 <= i < j < |s| :: s[i] <= s[j]
  }

  ghost predicate NoneAfter(s: seq<nat>, time: nat) {
    forall t | t in s :: t <= time
  }

  ghost predicate AllExpired(s: seq<nat>, now: nat) {
    forall t | t in s :: t + HOUR < now
  }

  /** The window is a suffix of the history, and what was dropped is over an hour old. */
  ghost predicate WindowOk(w: World) {
    && Sorted(w.history)
    && NoneAfter(w.history, w.clock)
    && exists gone :: w.history == gone + w.g.window && AllExpired(gone, w.clock)
  }

  lemma {:induction false} DropBeforeIsFilter(window: seq<nat>, cutoff: nat) returns (gone: seq<nat>)
    requires Sorted(window)
    ensures DropBefore(window, cutoff) == Filter((t: nat) => cutoff <= t, window)
    ensures window == gone + DropBefore(window, cutoff) && forall t | t in gone :: t < cutoff
  {
    if window != [] && window[0] < cutoff {
      gone := DropBeforeIsFilter(window[1..], cutoff);
      gone := [window[0]] + gone;
    } else {
      gone := [];
      forall t | t in window ensures cutoff <= t {
        var i :| 0 <= i < |window| && window[i] == t;
        assert window[0] <= window[i];
      }
      FilterAll((t: nat) => cutoff <= t, window);
    }
  }

  lemma {:induction false} FilterSame(f: nat -> bool, g: nat -> bool, s: seq<nat>)
    requires forall t | t in s :: f(t) == g(t)
    ensures Filter(f, s) == Filter(g, s)
  {
    if s != [] { FilterSame(f, g, s[1..]); }
  }

  /** Draining the sorted window splits off what has expired and keeps the trailing hour. */
  lemma DrainSplits(window: seq<nat>, now: nat) returns (gone: seq<nat>)
    requires Sorted(window)
    ensures window == gone + Drained(window, now) && AllExpired(gone, now)
    ensures Drained(window, now) == Trailing(window, now)
  {
    if now < HOUR {
      gone := [];
      FilterAll((t: nat) => now <= t + HOUR, window);
    } else {
      gone := DropBeforeIsFilter(window, now - HOUR);
      FilterSame((t: nat) => now <= t + HOUR, (t: nat) => now - HOUR <= t, window);
    }
  }

  lemma SortedSuffix(a: seq<nat>, b: seq<nat>)
    requires Sorted(a + b)
    ensures Sorted(b)
  {
    forall i, j | 0 <= i < j < |b| ensures b[i] <= b[j] {
      assert (a + b)[|a| + i] <= (a + b)[|a| + j];
    }
  }

  /** Draining at `now` leaves exactly the actions of the trailing hour. */
  lemma DrainGivesTrailing(w: World, now: nat)
    requires WindowOk(w) && now >= w.clock
    ensures Drained(w.g.window, now) == Trailing(w.history, now)
    ensures WindowOk(w.(g := w.g.(window := Drained(w.g.window, now)), clock := now))
  {
    var gone :| w.history == gone + w.g.window && AllExpired(gone, w.clock);
    SortedSuffix(gone, w.g.window);
    var more := DrainSplits(w.g.window, now);
    FilterConcat((t: nat) => now <= t + HOUR, gone, w.g.window);
    FilterNone((t: nat) => now <= t + HOUR, gone);
    assert w.history == (gone + more) + Drained(w.g.window, now);
    assert AllExpired(gone + more, now);
  }

  lemma PushKeepsWindow(w: World, now: nat)
    requires WindowOk(w) && now >= w.clock
    ensures WindowOk(w.(g := w.g.(window := w.g.window + [now]), history := w.history + [now], clock := now))
  {
    var gone :| w.history == gone + w.g.window && AllExpired(gone, w.clock);
    assert w.history + [now] == gone + (w.g.window + [now]);
    forall i, j | 0 <= i < j < |w.history + [now]| ensures (w.history + [now])[i] <= (w.history + [now])[j] {
      assert w.history[i] in w.history;
    }
  }

  lemma StepKeepsWindow(cfg: Config, w: World, st: Step)
    requires WindowOk(w) && Enabled(w, st)
    ensures WindowOk(Apply(cfg, w, st))
  {
    match st
    case CheckWindow(now) =>
      DrainGivesTrailing(w, now);
      var gone :| w.history == gone + w.g.window && AllExpired(gone, w.clock);
      assert AllExpired(gone, now);
    case ReadWindow(now) => DrainGivesTrailing(w, now);
    case Push(now) => PushKeepsWindow(w, now);
    case _ =>
  }

  lemma {:induction false} RunKeepsWindow(cfg: Config, w: World, steps: seq<Step>)
    requires WindowOk(w) && Legal(cfg, w, steps)
    ensures WindowOk(Run(cfg, w, steps))
    decreases |steps|
  {
    if steps != [] {
      StepKeepsWindow(cfg, w, steps[0]);
      RunKeepsWindow(cfg, Apply(cfg, w, steps[0]), steps[1..]);
    }
  }

  lemma StartWindowOk(today: int)
    ensures WindowOk(Start(today))
  {
    assert Start(today).history == [] + Start(today).g.window && AllExpired([], 0);
  }

  /** In every interleaving, whatever was drained before: the count a drain reports is the
      number of all recorded actions of the trailing hour. */
  lemma WindowCountIsExact(cfg: Config, today: int, steps: seq<Step>, now: nat)
    requires Legal(cfg, Start(today), steps) && now >= Run(cfg, Start(today), steps).clock
    ensures var w := Run(cfg, Start(today), steps);
            |Drained(w.g.window, now)| == |Trailing(w.history, now)|
  {
    StartWindowOk(today);
    RunKeepsWindow(cfg, Start(today), steps);
    DrainGivesTrailing(Run(cfg, Start(today), steps), now);
  }

  // ---------- How far the hourly limit can be overrun ----------

  /** Callers that have passed the check and whose action is not in the window yet. */
  function InBetween(w: World): nat {
    w.pending + w.charged
  }

  ghost predicate AtMostInBetween(cfg: Config, w: World, steps: seq<Step>, k: nat)
    requires Legal(cfg, w, steps)
    decreases |steps|
  {
    InBetween(w) <= k && (steps == [] || AtMostInBetween(cfg, Apply(cfg, w, steps[0]), steps[1..], k))
  }

  ghost predicate RateOk(w: World, limit: nat, k: nat) {
    |Trailing(w.history, w.clock)| + InBetween(w) <= limit - 1 + k
  }

  lemma {:induction false} TrailingShrinks(history: seq<nat>, t: nat, t': nat)
    requires t <= t'
    ensures |Trailing(history, t')| <= |Trailing(history, t)|
  {
    if history != [] { TrailingShrinks(history[1..], t, t'); }
  }

  lemma TrailingPush(history: seq<nat>, now: nat)
    ensures |Trailing(history + [now], now)| == |Trailing(history, now)| + 1
  {
    FilterConcat((t: nat) => now <= t + HOUR, history, [now]);
  }

  lemma StepKeepsRate(cfg: Config, w: World, st: Step, limit: nat, k: nat)
    requires cfg.maxActions == Some(limit) && k >= 1
    requires WindowOk(w) && Enabled(w, st) && RateOk(w, limit, k) && InBetween(Apply(cfg, w, st)) <= k
    ensures RateOk(Apply(cfg, w, st), limit, k)
  {
    match st
    case CheckWindow(now) =>
      TrailingShrinks(w.history, w.clock, now);
      DrainGivesTrailing(w, now);
    case ReadWindow(now) => TrailingShrinks(w.history, w.clock, now);
    case Push(now) =>
      TrailingShrinks(w.history, w.clock, now);
      TrailingPush(w.history, now);
    case _ =>
  }

  lemma {:induction false} RunKeepsRate(cfg: Config, w: World, steps: seq<Step>, limit: nat, k: nat)
    requires cfg.maxActions == Some(limit) && k >= 1 && WindowOk(w) && RateOk(w, limit, k)
    requires Legal(cfg, w, steps) && AtMostInBetween(cfg, w, steps, k)
    ensures RateOk(Run(cfg, w, steps), limit, k)
    decreases |steps|
  {
    if steps != [] {
      StepKeepsWindow(cfg, w, steps[0]);
      StepKeepsRate(cfg, w, steps[0], limit, k);
      RunKeepsRate(cfg, Apply(cfg, w, steps[0]), steps[1..], limit, k);
    }
  }

  /** With at most `k` callers between check and record, no interleaving has more than
      `limit - 1 + k` actions recorded in the trailing hour or still to be recorded. */
  lemma HourlyOverrunIsBounded(cfg: Config, today: int, steps: seq<Step>, limit: nat, k: nat)
    requires cfg.maxActions == Some(limit) && k >= 1
    requires Legal(cfg, Start(today), steps) && AtMostInBetween(cfg, Start(today), steps, k)
    ensures var w := Run(cfg, Start(today), steps);
            |Trailing(w.history, w.clock)| + InBetween(w) <= limit - 1 + k
  {
    StartWindowOk(today);
    RunKeepsRate(cfg, Start(today), steps, limit, k);
  }

  /** `r` is kept by every step that leaves at most `k` callers between check and record. */
  ghost predicate KeptUpTo(cfg: Config, r: World -> bool, k: nat) {
    forall w, st | r(w) && Enabled(w, st) && InBetween(Apply(cfg, w, st)) <= k :: r(Apply(cfg, w, st))
  }

  lemma Keep(cfg: Config, r: World -> bool, k: nat, w: World, st: Step) returns (w': World)
    requires KeptUpTo(cfg, r, k) && r(w) && Enabled(w, st) && InBetween(Apply(cfg, w, st)) <= k
    ensures w' == Apply(cfg, w, st) && r(w')
  {
    w' := Apply(cfg, w, st);
  }

  /** All actions so far happened at the clock's origin; `p` callers have passed the check. */
  ghost predicate AtOrigin(w: World, p: nat) {
    w.checked == 0 && w.pending == p && w.charged == 0 && w.g.window == w.history && w.clock == 0
  }

  lemma {:induction false} FillWindow(cfg: Config, r: World -> bool, k: nat, n: nat, w: World) returns (w': World)
    requires cfg.maxCents.None? && cfg.maxActions.Some? && k >= 1 && KeptUpTo(cfg, r, k)
    requires r(w) && AtOrigin(w, 0) && |w.history| + n < cfg.maxActions.value
    ensures r(w') && AtOrigin(w', 0) && |w'.history| == |w.history| + n
    decreases n
  {
    w' := w;
    if n > 0 {
      w' := Keep(cfg, r, k, w', CompareBudget);
      w' := Keep(cfg, r, k, w', CheckWindow(0));
      w' := Keep(cfg, r, k, w', Charge(0, 0.0));
      w' := Keep(cfg, r, k, w', Push(0));
      w' := FillWindow(cfg, r, k, n - 1, w');
    }
  }

  lemma {:induction false} PassTogether(cfg: Config, r: World -> bool, k: nat, p: nat, w: World) returns (w': World)
    requires cfg.maxCents.None? && cfg.maxActions.Some? && p <= k && KeptUpTo(cfg, r, k)
    requires r(w) && AtOrigin(w, p) && |w.history| < cfg.maxActions.value
    ensures r(w') && AtOrigin(w', k) && w'.history == w.history
    decreases k - p
  {
    w' := w;
    if p < k {
      w' := Keep(cfg, r, k, w', CompareBudget);
      w' := Keep(cfg, r, k, w', CheckWindow(0));
      w' := PassTogether(cfg, r, k, p + 1, w');
    }
  }

  lemma {:induction false} RunSnoc(cfg: Config, w: World, steps: seq<Step>, st: Step, k: nat)
    requires Legal(cfg, w, steps) && AtMostInBetween(cfg, w, steps, k)
    requires Enabled(Run(cfg, w, steps), st) && InBetween(Apply(cfg, Run(cfg, w, steps), st)) <= k
    ensures Legal(cfg, w, steps + [st]) && AtMostInBetween(cfg, w, steps + [st], k)
    ensures Run(cfg, w, steps + [st]) == Apply(cfg, Run(cfg, w, steps), st)
    decreases |steps|
  {
    if steps == [] {
      assert steps + [st] == [st] && [st][1..] == [];
    } else {
      assert (steps + [st])[1..] == steps[1..] + [st];
      RunSnoc(cfg, Apply(cfg, w, steps[0]), steps[1..], st, k);
    }
  }

  ghost predicate ReachedUpTo(cfg: Config, k: nat, w: World) {
    exists steps ::
      Legal(cfg, Start(0), steps) && AtMostInBetween(cfg, Start(0), steps, k) && Run(cfg, Start(0), steps) == w
  }

  ghost function Reached(cfg: Config, k: nat): World -> bool {
    w => ReachedUpTo(cfg, k, w)
  }

  lemma ReachedIsKept(cfg: Config, k: nat)
    ensures KeptUpTo(cfg, Reached(cfg, k), k) && Reached(cfg, k)(Start(0))
  {
    assert Legal(cfg, Start(0), []) && AtMostInBetween(cfg, Start(0), [], k) && Run(cfg, Start(0), []) == Start(0);
    forall w, st | ReachedUpTo(cfg, k, w) && Enabled(w, st) && InBetween(Apply(cfg, w, st)) <= k
      ensures ReachedUpTo(cfg, k, Apply(cfg, w, st))
    {
      var steps :|
        Legal(cfg, Start(0), steps) && AtMostInBetween(cfg, Start(0), steps, k) && Run(cfg, Start(0), steps) == w;
      RunSnoc(cfg, Start(0), steps, st, k);
    }
  }

  lemma OverrunIn(cfg: Config, r: World -> bool, limit: nat, k: nat) returns (w: World)
    requires cfg == Config(None, Some(limit)) && limit >= 1 && k >= 1 && KeptUpTo(cfg, r, k) && r(Start(0))
    ensures r(w) && |Trailing(w.history, w.clock)| + InBetween(w) == limit - 1 + k
  {
    w := FillWindow(cfg, r, k, limit - 1, Start(0));
    w := PassTogether(cfg, r, k, 0, w);
    FilterAll((t: nat) => w.clock <= t + HOUR, w.history);
  }

  /** The bound is attained for every limit and every number of callers. */
  lemma HourlyOverrunIsAttained(limit: nat, k: nat)
    requires limit >= 1 && k >= 1
    ensures exists w :: ReachedUpTo(Config(None, Some(limit)), k, w)
                        && |Trailing(w.history, w.clock)| + InBetween(w) == limit - 1 + k
  {
    var cfg := Config(None, Some(limit));
    ReachedIsKept(cfg, k);
    var w := OverrunIn(cfg, Reached(cfg, k), limit, k);
  }

  // ---------- The budget flag ----------

  ghost predicate FlagOk(cfg: Config, g: Guard) {
    g.exceeded ==> OverBudget(cfg, g.total)
  }

  predicate FitsU64(usd: real) {
    Trunc(usd * 100.0) <= U64_MAX
  }

  /** A charge on the same day overflows the cents and forgets a budget that was spent. */
  ghost predicate ForgetsSpending(cfg: Config, g: Guard, today: int, cost: real) {
    && g.exceeded && today == g.resetDate
    && cfg.maxCents.Some? && cfg.maxCents.value > 0
    && !FitsU64(g.total + cost)
  }

  /** The cached flag never denies more than the comparison would, exactly as long as no
      charge takes the total's cents past u64. */
  lemma FlagOkExactly(cfg: Config, g: Guard, today: int, cost: real)
    requires FlagOk(cfg, g) && g.total >= 0.0 && cost >= 0.0
    ensures FlagOk(cfg, Charged(cfg, g, today, cost)) <==> !ForgetsSpending(cfg, g, today, cost)
  {
  }

  /** A spent one-cent budget and a charge of a quintillion dollars. */
  lemma OverflowForgetsSpending(today: int)
    ensures var cfg, g := Config(Some(1), None), Guard(1.0, today, true, []);
            FlagOk(cfg, g) && !FlagOk(cfg, Charged(cfg, g, today, 1_000_000_000_000_000_000.0))
  {
  }

  ghost predicate AllChargesFit(cfg: Config, w: World, steps: seq<Step>)
    requires Legal(cfg, w, steps)
    decreases |steps|
  {
    steps == [] ||
    (!(steps[0].Charge? && ForgetsSpending(cfg, w.g, steps[0].today, steps[0].cost))
     && AllChargesFit(cfg, Apply(cfg, w, steps[0]), steps[1..]))
  }

  lemma {:induction false} FlagDeniesOnlyOverBudget(cfg: Config, w: World, steps: seq<Step>)
    requires FlagOk(cfg, w.g) && w.g.total >= 0.0 && Legal(cfg, w, steps) && AllChargesFit(cfg, w, steps)
    ensures FlagOk(cfg, Run(cfg, w, steps).g)
    decreases |steps|
  {
    if steps != [] {
      if steps[0].Charge? {
        FlagOkExactly(cfg, w.g, steps[0].today, steps[0].cost);
      }
      FlagDeniesOnlyOverBudget(cfg, Apply(cfg, w, steps[0]), steps[1..]);
    }
  }

  /** A step clears the flag exactly when it is a charge dated differently from the counter
      and itself below the limit. */
  lemma OnlyNewDayChargeClearsFlag(cfg: Config, w: World, st: Step)
    requires Enabled(w, st) && w.g.exceeded
    ensures !Apply(cfg, w, st).g.exceeded <==> st.Charge? && st.today != w.g.resetDate && !OverBudget(cfg, st.cost)
  {
  }

  /** Nobody is past the budget comparison, and the budget is spent. */
  ghost predicate Shut(cfg: Config, w: World) {
    w.checked == 0 && w.pending == 0 && OverBudget(cfg, w.g.total)
  }

  /** Once the budget is spent and the calls in flight are through, the guard denies for
      good: only a recorded call resets the counter, and no call is let through to be
      recorded. A new date changes nothing but what `daily_spend` reports. */
  lemma {:induction false} DenialIsPermanent(cfg: Config, w: World, steps: seq<Step>, today: int)
    requires Shut(cfg, w) && Legal(cfg, w, steps)
    ensures var w' := Run(cfg, w, steps);
            && Shut(cfg, w') && w'.g.total == w.g.total && w'.g.resetDate == w.g.resetDate
            && (today != w.g.resetDate ==> DailySpend(w'.g, today) == 0.0)
    decreases |steps|
  {
    if steps != [] {
      DenialIsPermanent(cfg, Apply(cfg, w, steps[0]), steps[1..], today);
    }
  }

  // ---------- The daily total ----------

  /** Sum of the newest records that carry the date. */
  function SpentOn(records: seq<(int, real)>, date: int): real {
    if records == [] || records[|records| - 1].0 != date then 0.0
    else records[|records| - 1].1 + SpentOn(records[..|records| - 1], date)
  }

  ghost predicate TotalOk(w: World) {
    && w.g.total == SpentOn(w.records, w.g.resetDate)
    && (w.records != [] ==> w.records[|w.records| - 1].0 == w.g.resetDate)
  }

  /** What `daily_spend` reports: the charges of the current stretch of that date. */
  lemma DailySpendIsSum(cfg: Config, start: int, steps: seq<Step>, today: int)
    requires Legal(cfg, Start(start), steps)
    ensures var w := Run(cfg, Start(start), steps);
            DailySpend(w.g, today) == if today == w.g.resetDate then SpentOn(w.records, today) else 0.0
  {
    TotalIsSumOfDay(cfg, Start(start), steps);
  }

  /** The counter is the sum of the charges made since the date last changed. */
  lemma {:induction false} TotalIsSumOfDay(cfg: Config, w: World, steps: seq<Step>)
    requires TotalOk(w) && Legal(cfg, w, steps)
    ensures TotalOk(Run(cfg, w, steps))
    decreases |steps|
  {
    if steps != [] {
      var w' := Apply(cfg, w, steps[0]);
      if steps[0].Charge? {
        assert w'.records[..|w'.records| - 1] == w.records;
      }
      TotalIsSumOfDay(cfg, w', steps[1..]);
    }
  }
}
