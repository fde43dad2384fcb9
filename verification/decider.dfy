/**
 * `default_decider.py`: the built-in reconnect policy. Times and delays are reals, the random draw of
 * `random_between` is a parameter in [0, 1), and the clock is the time passed with each event.
 */
module Deciders {
  import opened Wrappers

  datatype Policy = Policy(
    baseDelay: real, factor: real, maxDelay: real, stableReset: real,
    reconnectOnNormalClose: bool, policyViolationIsTerminal: bool,
    restartMin: real, restartMax: real, tryLaterMin: real, tryLaterMax: real,
    rapidUptime: real, rapidWindow: real, rapidFirst: real, rapidSecond: real,
    cooldownBase: real, cooldownStep: real, cooldownMax: real,
    suppressCount: nat, lowRatio: real, highRatio: real)

  /** The validation of `ReconnectPolicy`. */
  predicate PolicyOk(p: Policy) {
    && p.baseDelay >= 0.0 && p.factor > 0.0 && p.maxDelay >= 0.0 && p.stableReset > 0.0
    && 0.0 <= p.restartMin <= p.restartMax && 0.0 <= p.tryLaterMin <= p.tryLaterMax
    && p.rapidUptime >= 0.0 && p.rapidWindow > 0.0 && p.rapidFirst >= 0.0 && p.rapidSecond >= 0.0
    && 0.0 <= p.cooldownBase <= p.cooldownMax && p.cooldownStep >= 0.0
    && 0.0 <= p.lowRatio <= p.highRatio
  }

  const DEFAULTS := Policy(
    0.5, 2.0, 30.0, 60.0, true, true, 1.0, 5.0, 30.0, 60.0, 5.0, 60.0, 2.0, 10.0, 60.0, 30.0, 300.0, 10, 0.25, 1.0)

  /** `Terminal` is a stop with a terminal error. */
  datatype Decision = Proceed(delay: real) | Stop | Terminal

  datatype Event = Connecting | Connected | Disconnected(code: Option<nat>) | ConnectFailed(forbidden: bool)

  const NORMAL_CLOSURE := 1000
  const GOING_AWAY := 1001
  const POLICY_VIOLATION := 1008
  const SERVICE_RESTART := 1012
  const TRY_AGAIN_LATER := 1013

  // Delays

  function Max(a: real, b: real): real {
    if a >= b then a else b
  }

  function Min(a: real, b: real): real {
    if a <= b then a else b
  }

  function Power(factor: real, n: nat): real {
    if n == 0 then 1.0 else factor * Power(factor, n - 1)
  }

  function ExponentialDelay(p: Policy, attempt: nat): real {
    Min(p.maxDelay, p.baseDelay * Power(p.factor, attempt))
  }

  function RandomBetween(minDelay: real, maxDelay: real, draw: real): real {
    var low := Max(0.0, minDelay);
    var high := Max(low, maxDelay);
    if high == low then low else low + draw * (high - low)
  }

  function Scaled(delay: real, ratio: real): real {
    delay * ratio
  }

  function Floor(p: Policy, rapidCount: nat): real {
    if rapidCount == 0 then 0.0
    else if rapidCount == 1 then p.rapidFirst
    else if rapidCount == 2 then p.rapidSecond
    else Min(p.cooldownBase + p.cooldownStep * (rapidCount - 3) as real, p.cooldownMax)
  }

  /** `_backoff` */
  function Backoff(p: Policy, rapidCount: nat, attempt: nat, draw: real): real {
    var delay := Max(ExponentialDelay(p, attempt), Floor(p, rapidCount));
    if delay <= 0.0 then 0.0
    else if rapidCount < 3 then RandomBetween(delay / 2.0, delay, draw)
    else RandomBetween(Scaled(delay, p.lowRatio), Scaled(delay, p.highRatio), draw)
  }

  function CloseRange(p: Policy, code: Option<nat>): Option<(real, real)> {
    if code == Some(SERVICE_RESTART) then Some((p.restartMin, p.restartMax))
    else if code == Some(TRY_AGAIN_LATER) then Some((p.tryLaterMin, p.tryLaterMax))
    else None
  }

  function StopForClose(p: Policy, code: Option<nat>): Option<Decision> {
    if (code == Some(NORMAL_CLOSURE) || code == Some(GOING_AWAY)) && !p.reconnectOnNormalClose then Some(Stop)
    else if code == Some(POLICY_VIOLATION) && p.policyViolationIsTerminal then Some(Terminal)
    else None
  }

  // The decider's state

  datatype Memory = Memory(attempt: nat, rapid: seq<real>, connectedAt: real)

  /** The pruning loop of `_suppressed`. */
  function Prune(rapid: seq<real>, now: real, window: real): seq<real> {
    if rapid != [] && now - rapid[0] > window then Prune(rapid[1..], now, window) else rapid
  }

  function Recorded(p: Policy, rapid: seq<real>, now: real, uptime: real): seq<real> {
    Prune(if uptime < p.rapidUptime then rapid + [now] else rapid, now, p.rapidWindow)
  }

  predicate Suppresses(p: Policy, rapidCount: nat) {
    p.suppressCount > 0 && rapidCount >= p.suppressCount
  }

  function AfterClose(p: Policy, m: Memory, now: real, code: Option<nat>, draw: real, rangeDraw: real): (Memory, Decision) {
    if StopForClose(p, code).Some? then (m, StopForClose(p, code).value)
    else
      var uptime := now - m.connectedAt;
      var rapid := Recorded(p, m.rapid, now, uptime);
      if Suppresses(p, |rapid|) then (m.(rapid := rapid), Terminal)
      else
        var n := if uptime >= p.stableReset then m.(attempt := 0, rapid := []) else m.(attempt := m.attempt + 1, rapid := rapid);
        var delay := Backoff(p, |n.rapid|, n.attempt, draw);
        var range := CloseRange(p, code);
        (n, Proceed(if range.None? then delay else Max(delay, RandomBetween(range.value.0, range.value.1, rangeDraw))))
  }

  function AfterConnectFailure(p: Policy, m: Memory, now: real, forbidden: bool, draw: real): (Memory, Decision) {
    if forbidden then (m, Terminal)
    else
      var rapid := Recorded(p, m.rapid, now, 0.0);
      if Suppresses(p, |rapid|) then (m.(rapid := rapid), Terminal)
      else (m.(attempt := m.attempt + 1, rapid := rapid), Proceed(Backoff(p, |rapid|, m.attempt, draw)))
  }

  /** `__call__` */
  function Decide(p: Policy, m: Memory, e: Event, now: real, draw: real, rangeDraw: real): (Memory, Decision) {
    match e
    case Connecting => (m, Proceed(0.0))
    case Connected => (m.(connectedAt := now), Proceed(0.0))
    case Disconnected(code) => AfterClose(p, m, now, code, draw, rangeDraw)
    case ConnectFailed(forbidden) => AfterConnectFailure(p, m, now, forbidden, draw)
  }

  // Every decision is a valid ReconnectDecision, and the backoff stays in its range

  lemma {:induction false} PowerPositive(factor: real, n: nat)
    requires factor > 0.0
    ensures Power(factor, n) > 0.0
  {
    if n > 0 {
      PowerPositive(factor, n - 1);
    }
  }

  lemma ProductNonNegative(a: real, b: real)
    requires a >= 0.0 && b >= 0.0
    ensures a * b >= 0.0 && Scaled(a, b) >= 0.0
  {
  }

  lemma ScaleKeepsOrder(a: real, b: real, c: real)
    requires a <= b && c >= 0.0
    ensures a * c <= b * c && c * a <= c * b
    ensures Scaled(a, c) <= Scaled(b, c) && Scaled(c, a) <= Scaled(c, b)
  {
    ProductNonNegative(b - a, c);
    assert (b - a) * c == b * c - a * c;
  }

  lemma RandomInRange(minDelay: real, maxDelay: real, draw: real)
    requires 0.0 <= minDelay <= maxDelay && 0.0 <= draw < 1.0
    ensures minDelay <= RandomBetween(minDelay, maxDelay, draw) <= maxDelay
  {
    var width := maxDelay - minDelay;
    ProductNonNegative(draw, width);
    ScaleKeepsOrder(draw, 1.0, width);
    assert Max(0.0, minDelay) == minDelay && Max(minDelay, maxDelay) == maxDelay;
    assert RandomBetween(minDelay, maxDelay, draw) == if maxDelay == minDelay then minDelay else minDelay + draw * width;
  }

  lemma RandomIs(minDelay: real, maxDelay: real, draw: real)
    requires 0.0 <= minDelay < maxDelay
    ensures RandomBetween(minDelay, maxDelay, draw) == minDelay + Scaled(draw, maxDelay - minDelay)
  {
  }

  lemma ScaledDifference(a: real, b: real, width: real)
    requires a < b && width > 0.0
    ensures Scaled(b, width) - Scaled(a, width) == Scaled(b - a, width) > 0.0
  {
    assert (b - a) * width == b * width - a * width;
  }

  /** The draw decides the jitter: the lower end for 0, and evenly upwards from there. */
  lemma DrawsSpread(minDelay: real, maxDelay: real, a: real, b: real)
    requires 0.0 <= minDelay < maxDelay && a < b
    ensures RandomBetween(minDelay, maxDelay, 0.0) == minDelay
    ensures RandomBetween(minDelay, maxDelay, a) < RandomBetween(minDelay, maxDelay, b)
    ensures RandomBetween(minDelay, maxDelay, b) - RandomBetween(minDelay, maxDelay, a) == Scaled(b - a, maxDelay - minDelay)
  {
    hide RandomBetween, Scaled;
    NothingScaled(maxDelay - minDelay);
    RandomIs(minDelay, maxDelay, 0.0);
    RandomIs(minDelay, maxDelay, a);
    RandomIs(minDelay, maxDelay, b);
    ScaledDifference(a, b, maxDelay - minDelay);
  }

  lemma FloorNonNegative(p: Policy, rapidCount: nat)
    requires PolicyOk(p)
    ensures Floor(p, rapidCount) >= 0.0
    ensures rapidCount >= 3 ==> Floor(p, rapidCount) >= p.cooldownBase
  {
    if rapidCount >= 3 {
      ProductNonNegative(p.cooldownStep, (rapidCount - 3) as real);
    }
  }

  lemma JitterInRange(delay: real, low: real, high: real, base: real, draw: real)
    requires 0.0 <= low <= high && 0.0 <= base <= delay && 0.0 <= draw < 1.0
    ensures 0.0 <= Scaled(base, low) <= Scaled(delay, low) <= RandomBetween(Scaled(delay, low), Scaled(delay, high), draw)
    ensures RandomBetween(Scaled(delay, low), Scaled(delay, high), draw) <= Scaled(delay, high)
    ensures delay == 0.0 ==> Scaled(delay, low) == 0.0 == Scaled(delay, high)
  {
    ProductNonNegative(base, low);
    ScaleKeepsOrder(base, delay, low);
    ScaleKeepsOrder(low, high, delay);
    RandomInRange(Scaled(delay, low), Scaled(delay, high), draw);
    if delay == 0.0 {
      NothingScaled(low);
      NothingScaled(high);
    }
    hide RandomBetween, Scaled;
  }

  lemma NothingScaled(ratio: real)
    ensures Scaled(0.0, ratio) == 0.0
  {
  }

  /** The base delay multiplied by the factor n times. */
  function Growth(p: Policy, n: nat): real {
    if n == 0 then p.baseDelay else p.factor * Growth(p, n - 1)
  }

  /** The wait before jitter: the growth up to its cap, but no less than what repeated rapid disconnects require: nothing, the first and
      the second rapid delay, then a cooldown that grows by its step up to its own cap. */
  predicate IsWait(p: Policy, rapidCount: nat, attempt: nat, wait: real) {
    var growth := if Growth(p, attempt) <= p.maxDelay then Growth(p, attempt) else p.maxDelay;
    var cooldown := p.cooldownBase + p.cooldownStep * (rapidCount - 3) as real;
    var least := match rapidCount
      case 0 => 0.0
      case 1 => p.rapidFirst
      case 2 => p.rapidSecond
      case _ => if cooldown <= p.cooldownMax then cooldown else p.cooldownMax;
    wait >= growth && wait >= least && (wait == growth || wait == least)
  }

  lemma {:induction false} GrowthIsPower(p: Policy, n: nat)
    ensures Growth(p, n) == p.baseDelay * Power(p.factor, n)
  {
    if n > 0 {
      GrowthIsPower(p, n - 1);
      assert p.factor * (p.baseDelay * Power(p.factor, n - 1)) == p.baseDelay * (p.factor * Power(p.factor, n - 1));
    }
  }

  lemma CappedPower(p: Policy, n: nat, growth: real)
    requires growth == p.baseDelay * Power(p.factor, n)
    ensures ExponentialDelay(p, n) == Min(p.maxDelay, growth)
  {
    hide Power;
  }

  lemma GrowthIsDelay(p: Policy, n: nat)
    ensures ExponentialDelay(p, n) == if Growth(p, n) <= p.maxDelay then Growth(p, n) else p.maxDelay
  {
    hide Growth, Power, ExponentialDelay;
    GrowthIsPower(p, n);
    CappedPower(p, n, Growth(p, n));
  }

  lemma GrowthStep(p: Policy, n: nat)
    ensures Growth(p, 0) == p.baseDelay && Growth(p, n + 1) == Scaled(p.factor, Growth(p, n))
  {
  }

  lemma WaitIs(p: Policy, rapidCount: nat, attempt: nat)
    ensures IsWait(p, rapidCount, attempt, Max(ExponentialDelay(p, attempt), Floor(p, rapidCount)))
  {
    hide Growth, ExponentialDelay;
    GrowthIsDelay(p, attempt);
  }

  lemma CappedGrowth(factor: real, delay: real, cap: real)
    requires factor >= 1.0 && delay >= 0.0 && cap >= 0.0
    ensures Scaled(factor, delay) >= delay && Scaled(factor, cap) >= cap
    ensures delay >= cap ==> Scaled(factor, delay) >= cap
  {
    ScaleKeepsOrder(1.0, factor, delay);
    ScaleKeepsOrder(1.0, factor, cap);
  }

  /** The delay of the first attempt is the base, and for factors of at least one each further attempt multiplies it, up to the cap. */
  lemma DelayGrows(p: Policy, n: nat)
    requires PolicyOk(p) && p.factor >= 1.0
    ensures ExponentialDelay(p, 0) == Min(p.maxDelay, p.baseDelay)
    ensures ExponentialDelay(p, n + 1) == Min(p.maxDelay, Scaled(p.factor, ExponentialDelay(p, n)))
    ensures ExponentialDelay(p, n) <= ExponentialDelay(p, n + 1)
  {
    hide Growth, ExponentialDelay, Scaled;
    GrowthStep(p, n);
    GrowthIsDelay(p, 0);
    GrowthIsDelay(p, n);
    GrowthIsDelay(p, n + 1);
    GrowthNonNegative(p, n);
    CappedGrowth(p.factor, Growth(p, n), p.maxDelay);
  }

  lemma {:induction false} GrowthNonNegative(p: Policy, n: nat)
    requires PolicyOk(p)
    ensures Growth(p, n) >= 0.0
  {
    if n > 0 {
      GrowthNonNegative(p, n - 1);
      ProductNonNegative(p.factor, Growth(p, n - 1));
    }
  }

  /** Below three rapid disconnects the wait granted is between half the wait before jitter and that wait; from the third on it is
      between the two jitter ratios of it, and never below the ratio of the cooldown. */
  lemma BackoffInRange(p: Policy, rapidCount: nat, attempt: nat, draw: real)
    requires PolicyOk(p) && 0.0 <= draw < 1.0
    ensures
      var granted := Backoff(p, rapidCount, attempt, draw);
      && granted >= 0.0
      && exists wait: real :: IsWait(p, rapidCount, attempt, wait) && wait >= 0.0
           && (rapidCount < 3 ==> wait / 2.0 <= granted <= wait)
           && (rapidCount >= 3 ==>
                 Scaled(wait, p.lowRatio) <= granted <= Scaled(wait, p.highRatio) && Scaled(p.cooldownBase, p.lowRatio) <= granted)
  {
    var wait := Max(ExponentialDelay(p, attempt), Floor(p, rapidCount));
    JitteredInRange(p, rapidCount, attempt, draw);
    WaitIs(p, rapidCount, attempt);
    hide ExponentialDelay, Floor, Backoff, PolicyOk, IsWait, Scaled;
    assert IsWait(p, rapidCount, attempt, wait);
  }

  lemma JitteredInRange(p: Policy, rapidCount: nat, attempt: nat, draw: real)
    requires PolicyOk(p) && 0.0 <= draw < 1.0
    ensures
      var delay := Max(ExponentialDelay(p, attempt), Floor(p, rapidCount));
      && delay >= 0.0
      && (rapidCount < 3 ==> delay / 2.0 <= Backoff(p, rapidCount, attempt, draw) <= delay)
      && (rapidCount >= 3 ==>
            && Scaled(p.cooldownBase, p.lowRatio) <= Scaled(delay, p.lowRatio) <= Backoff(p, rapidCount, attempt, draw)
            && Backoff(p, rapidCount, attempt, draw) <= Scaled(delay, p.highRatio))
      && Backoff(p, rapidCount, attempt, draw) >= 0.0
  {
    hide ExponentialDelay, Floor, RandomBetween, PolicyOk, Scaled;
    PolicyRatios(p);
    DelayNonNegative(p, rapidCount, attempt);
    FloorNonNegative(p, rapidCount);
    var delay := Max(ExponentialDelay(p, attempt), Floor(p, rapidCount));
    if rapidCount < 3 {
      RandomInRange(delay / 2.0, delay, draw);
    } else {
      JitterInRange(delay, p.lowRatio, p.highRatio, p.cooldownBase, draw);
    }
  }

  lemma PolicyRatios(p: Policy)
    requires PolicyOk(p)
    ensures 0.0 <= p.lowRatio <= p.highRatio && p.cooldownBase >= 0.0
  {
  }

  lemma DelayNonNegative(p: Policy, rapidCount: nat, attempt: nat)
    requires PolicyOk(p)
    ensures ExponentialDelay(p, attempt) >= 0.0
  {
    PowerPositive(p.factor, attempt);
    ProductNonNegative(p.baseDelay, Power(p.factor, attempt));
  }

  // Whole conversations

  datatype Call = Call(event: Event, now: real, draw: real, rangeDraw: real)

  /** `log` holds every rapid disconnect since the last stable reset, `recorded` is when the last
      close or failure was recorded, `allowed` when the delay granted last is over. */
  datatype History = History(memory: Memory, log: seq<real>, clock: real, recorded: real, allowed: real, over: bool)

  function Fresh(): History {
    History(Memory(0, [], 0.0), [], 0.0, 0.0, 0.0, false)
  }

  predicate Fails(e: Event) {
    e.Disconnected? || e.ConnectFailed?
  }

  /** A monotone clock, draws in range, nothing asked after a stop; with `obedient`, no close or
      failure comes before the granted delay is over. */
  predicate Possible(h: History, c: Call, obedient: bool) {
    && !h.over && c.now >= h.clock && 0.0 <= c.draw < 1.0 && 0.0 <= c.rangeDraw < 1.0
    && (obedient && Fails(c.event) ==> c.now >= h.allowed)
  }

  /** Does the call reach `_suppressed`, and with which uptime? */
  function RecordedUptime(p: Policy, h: History, c: Call): Option<real> {
    match c.event
    case Disconnected(code) => if StopForClose(p, code).Some? then None else Some(c.now - h.memory.connectedAt)
    case ConnectFailed(forbidden) => if forbidden then None else Some(0.0)
    case _ => None
  }

  function Verdict(p: Policy, h: History, c: Call): (Memory, Decision) {
    Decide(p, h.memory, c.event, c.now, c.draw, c.rangeDraw)
  }

  function Logged(p: Policy, h: History, c: Call): seq<real> {
    var uptime := RecordedUptime(p, h, c);
    if uptime.None? then h.log
    else if uptime.value >= p.stableReset && c.event.Disconnected? && !Verdict(p, h, c).1.Terminal? then []
    else if uptime.value < p.rapidUptime then h.log + [c.now]
    else h.log
  }

  function Converse(p: Policy, h: History, c: Call): History {
    var (m, d) := Verdict(p, h, c);
    History(m, Logged(p, h, c), c.now,
            if RecordedUptime(p, h, c).Some? then c.now else h.recorded,
            if Fails(c.event) && d.Proceed? then c.now + d.delay else h.allowed,
            !d.Proceed?)
  }

  function Conversation(p: Policy, calls: seq<Call>, obedient: bool): Option<History> {
    if calls == [] then Some(Fresh())
    else
      var before := Conversation(p, calls[..|calls| - 1], obedient);
      if before.Some? && Possible(before.value, calls[|calls| - 1], obedient)
      then Some(Converse(p, before.value, calls[|calls| - 1])) else None
  }

  // The pruned deque is the log within the window

  /** The disconnects of the log that are at most `window` old. */
  function Recent(log: seq<real>, now: real, window: real): seq<real> {
    if log == [] then []
    else (if now - log[0] <= window then [log[0]] else []) + Recent(log[1..], now, window)
  }

  predicate Ordered(log: seq<real>) {
    forall i, j :: 0 <= i < j < |log| ==> log[i] <= log[j]
  }

  /** Popping from the front keeps exactly the recent ones of an ordered log. */
  lemma {:induction false} PruneIsRecent(log: seq<real>, now: real, window: real)
    requires Ordered(log)
    ensures Prune(log, now, window) == Recent(log, now, window)
  {
    if log != [] {
      PruneIsRecent(log[1..], now, window);
      if now - log[0] <= window {
        NoneTooOld(log, now, window);
      }
    }
  }

  lemma {:induction false} NoneTooOld(log: seq<real>, now: real, window: real)
    requires Ordered(log) && (log != [] ==> now - log[0] <= window)
    ensures Recent(log, now, window) == log
  {
    if log != [] {
      NoneTooOld(log[1..], now, window);
    }
  }

  /** Pruning earlier, and adding the newest entry afterwards, makes no difference. */
  lemma {:induction false} PruneAgain(log: seq<real>, before: real, now: real, window: real, more: seq<real>)
    requires before <= now
    ensures Prune(Prune(log, before, window) + more, now, window) == Prune(log + more, now, window)
  {
    if log != [] && before - log[0] > window {
      PruneAgain(log[1..], before, now, window, more);
      assert (log + more)[1..] == log[1..] + more;
    }
  }

  predicate HistoryOk(p: Policy, h: History) {
    && Ordered(h.log) && (forall i :: 0 <= i < |h.log| ==> h.log[i] <= h.clock) && h.recorded <= h.clock
    && h.memory.rapid == Prune(h.log, h.recorded, p.rapidWindow)
  }

  lemma RecordedIsPruned(p: Policy, log: seq<real>, recorded: real, now: real, uptime: real)
    requires recorded <= now
    ensures Recorded(p, Prune(log, recorded, p.rapidWindow), now, uptime)
            == Prune(if uptime < p.rapidUptime then log + [now] else log, now, p.rapidWindow)
  {
    var pruned := Prune(log, recorded, p.rapidWindow);
    PruneAgain(log, recorded, now, p.rapidWindow, [now]);
    PruneAgain(log, recorded, now, p.rapidWindow, []);
    assert pruned + [] == pruned && log + [] == log;
  }

  lemma ConverseOk(p: Policy, h: History, c: Call, obedient: bool)
    requires PolicyOk(p) && HistoryOk(p, h) && Possible(h, c, obedient)
    ensures HistoryOk(p, Converse(p, h, c))
  {
    hide Backoff, RandomBetween, PolicyOk;
    var uptime := RecordedUptime(p, h, c);
    if uptime.Some? {
      RecordedIsPruned(p, h.log, h.recorded, c.now, uptime.value);
    }
  }

  /** With a monotone clock, the deque is at every moment the rapid disconnects since the last stable
      reset that were at most `rapid_window_s` old when the last disconnect was recorded. */
  lemma {:induction false} DequeIsRecentLog(p: Policy, calls: seq<Call>, obedient: bool)
    requires PolicyOk(p) && Conversation(p, calls, obedient).Some?
    ensures HistoryOk(p, Conversation(p, calls, obedient).value)
    ensures
      var h := Conversation(p, calls, obedient).value;
      h.memory.rapid == Recent(h.log, h.recorded, p.rapidWindow)
  {
    hide Converse, Possible, PolicyOk;
    if calls != [] {
      DequeIsRecentLog(p, calls[..|calls| - 1], obedient);
      ConverseOk(p, Conversation(p, calls[..|calls| - 1], obedient).value, calls[|calls| - 1], obedient);
    }
    var h := Conversation(p, calls, obedient).value;
    PruneIsRecent(h.log, h.recorded, p.rapidWindow);
  }

  // Granted delays bound the deque

  /** The smallest wait granted once three rapid disconnects are remembered. */
  function Cooldown(p: Policy): real {
    Scaled(p.cooldownBase, p.lowRatio)
  }

  /** From the third entry on, entries are at least a cooldown apart. */
  predicate Spaced(rapid: seq<real>, gap: real) {
    forall i :: 2 <= i < |rapid| - 1 ==> rapid[i + 1] >= rapid[i] + gap
  }

  predicate PacedOk(p: Policy, h: History) {
    && Ordered(h.memory.rapid) && Spaced(h.memory.rapid, Cooldown(p))
    && (h.memory.rapid != [] ==>
          h.memory.rapid[|h.memory.rapid| - 1] <= h.recorded && h.recorded - h.memory.rapid[0] <= p.rapidWindow)
    && h.recorded <= h.clock
    && (|h.memory.rapid| >= 3 && !h.over ==> h.allowed >= h.memory.rapid[|h.memory.rapid| - 1] + Cooldown(p))
  }

  lemma {:induction false} PruneKeeps(rapid: seq<real>, now: real, window: real, gap: real)
    requires Ordered(rapid) && Spaced(rapid, gap)
    ensures
      var kept := Prune(rapid, now, window);
      && Ordered(kept) && Spaced(kept, gap) && |kept| <= |rapid|
      && (kept != [] ==> kept[|kept| - 1] == rapid[|rapid| - 1] && now - kept[0] <= window)
  {
    if rapid != [] && now - rapid[0] > window {
      PruneKeeps(rapid[1..], now, window, gap);
    }
  }

  /** A rapid disconnect after the granted delay keeps the spacing. */
  lemma RecordedPaced(p: Policy, h: History, now: real, uptime: real)
    requires PacedOk(p, h) && !h.over && now >= h.clock && now >= h.allowed
    ensures
      var rapid := Recorded(p, h.memory.rapid, now, uptime);
      && Ordered(rapid) && Spaced(rapid, Cooldown(p))
      && (rapid != [] ==> rapid[|rapid| - 1] <= now && now - rapid[0] <= p.rapidWindow)
  {
    hide Cooldown, Prune;
    var before := h.memory.rapid;
    var grown := if uptime < p.rapidUptime then before + [now] else before;
    if uptime < p.rapidUptime {
      AppendPaced(before, now, Cooldown(p));
    }
    hide Spaced, Ordered;
    PruneKeeps(grown, now, p.rapidWindow, Cooldown(p));
    PruneFits(grown, now, p.rapidWindow);
  }

  lemma AppendPaced(rapid: seq<real>, now: real, gap: real)
    requires Ordered(rapid) && Spaced(rapid, gap)
    requires rapid != [] ==> rapid[|rapid| - 1] <= now
    requires |rapid| >= 3 ==> now >= rapid[|rapid| - 1] + gap
    ensures Ordered(rapid + [now]) && Spaced(rapid + [now], gap)
  {
  }

  lemma PruneFits(rapid: seq<real>, now: real, window: real)
    requires rapid != [] ==> rapid[|rapid| - 1] <= now
    ensures
      var kept := Prune(rapid, now, window);
      kept != [] ==> rapid != [] && kept[|kept| - 1] <= now && now - kept[0] <= window
  {
  }

  lemma GrantedCooldown(p: Policy, h: History, c: Call)
    requires PolicyOk(p) && 0.0 <= c.draw < 1.0 && RecordedUptime(p, h, c).Some? && Verdict(p, h, c).1.Proceed?
    ensures |Verdict(p, h, c).0.rapid| >= 3 ==> Verdict(p, h, c).1.delay >= Cooldown(p)
  {
    hide Backoff, RandomBetween, PolicyOk, Recorded, Scaled;
    var m := Verdict(p, h, c).0;
    JitteredInRange(p, |m.rapid|, m.attempt, c.draw);
    JitteredInRange(p, |m.rapid|, h.memory.attempt, c.draw);
  }

  /** What a call leaves of the deque: what `_suppressed` recorded, nothing after a stable reset, or
      the old one. */
  lemma VerdictRapid(p: Policy, h: History, c: Call)
    ensures
      var uptime, rapid := RecordedUptime(p, h, c), Verdict(p, h, c).0.rapid;
      if uptime.None? then rapid == h.memory.rapid && (Verdict(p, h, c).1.Proceed? ==> !Fails(c.event))
      else Fails(c.event) && (rapid == Recorded(p, h.memory.rapid, c.now, uptime.value) || rapid == [])
  {
    hide Backoff, RandomBetween, Recorded, Suppresses;
  }

  lemma ConversePaced(p: Policy, h: History, c: Call)
    requires PolicyOk(p) && PacedOk(p, h) && Possible(h, c, true)
    ensures PacedOk(p, Converse(p, h, c))
  {
    hide PolicyOk, Verdict, Recorded, Cooldown, RecordedUptime;
    VerdictRapid(p, h, c);
    var uptime := RecordedUptime(p, h, c);
    if uptime.Some? {
      RecordedPaced(p, h, c.now, uptime.value);
      if Verdict(p, h, c).1.Proceed? {
        GrantedCooldown(p, h, c);
      }
    }
  }

  lemma {:induction false} SpacedSpan(rapid: seq<real>, gap: real, n: nat)
    requires Spaced(rapid, gap) && 3 <= n <= |rapid|
    ensures rapid[n - 1] >= rapid[2] + (n - 3) as real * gap
  {
    if n > 3 {
      SpacedSpan(rapid, gap, n - 1);
      assert rapid[n - 1] >= rapid[n - 2] + gap;
      assert (n - 3) as real * gap == (n - 4) as real * gap + gap;
    }
  }

  /** If every disconnect and failure comes after the delay granted before it, the number n of
      remembered rapid disconnects satisfies (n - 3) * cooldown <= window. */
  lemma {:induction false} RateIsBounded(p: Policy, calls: seq<Call>)
    requires PolicyOk(p) && Conversation(p, calls, true).Some?
    ensures PacedOk(p, Conversation(p, calls, true).value)
    ensures
      var n := |Conversation(p, calls, true).value.memory.rapid|;
      n <= 3 || (n - 3) as real * (p.cooldownBase * p.lowRatio) <= p.rapidWindow
  {
    hide Converse, Possible, PolicyOk;
    if calls != [] {
      RateIsBounded(p, calls[..|calls| - 1]);
      ConversePaced(p, Conversation(p, calls[..|calls| - 1], true).value, calls[|calls| - 1]);
    }
    var rapid := Conversation(p, calls, true).value.memory.rapid;
    if |rapid| > 3 {
      SpacedSpan(rapid, Cooldown(p), |rapid|);
      assert rapid[0] <= rapid[2];
    }
  }

  /** With the default policy at most seven are remembered, so an obedient conversation is never
      stopped as repeated rapid disconnects. */
  lemma DefaultsNeverSuppress(calls: seq<Call>)
    requires Conversation(DEFAULTS, calls, true).Some?
    ensures |Conversation(DEFAULTS, calls, true).value.memory.rapid| <= 7
    ensures !Suppresses(DEFAULTS, |Conversation(DEFAULTS, calls, true).value.memory.rapid|)
  {
    hide Conversation;
    RateIsBounded(DEFAULTS, calls);
    var n := |Conversation(DEFAULTS, calls, true).value.memory.rapid|;
    assert DEFAULTS.cooldownBase * DEFAULTS.lowRatio == 15.0;
    if n > 3 {
      assert (n - 3) as real * 15.0 <= 60.0;
    }
  }

  // Stops and validity

  /** Reconnecting stops for exactly these reasons, and every granted delay is a valid one. */
  lemma VerdictIsValid(p: Policy, h: History, c: Call)
    requires PolicyOk(p) && 0.0 <= c.draw < 1.0 && 0.0 <= c.rangeDraw < 1.0
    ensures
      var (m, d) := Verdict(p, h, c);
      && (d.Proceed? ==> d.delay >= 0.0) && (!Fails(c.event) ==> d == Proceed(0.0))
      && (d.Stop? <==> exists code :: c.event == Disconnected(Some(code)) && (code == 1000 || code == 1001) && !p.reconnectOnNormalClose)
      && (d.Terminal? <==>
            || (c.event == Disconnected(Some(1008)) && p.policyViolationIsTerminal)
            || c.event == ConnectFailed(true)
            || (RecordedUptime(p, h, c).Some? && p.suppressCount > 0 &&
                |Recorded(p, h.memory.rapid, c.now, RecordedUptime(p, h, c).value)| >= p.suppressCount))
  {
    hide Backoff, RandomBetween, Recorded;
    var m := Verdict(p, h, c).0;
    JitteredInRange(p, |m.rapid|, m.attempt, c.draw);
    JitteredInRange(p, |m.rapid|, h.memory.attempt, c.draw);
    if c.event.Disconnected? && c.event.code == Some(1000) {
      assert c.event == Disconnected(Some(1000));
    }
    if c.event.Disconnected? && c.event.code == Some(1001) {
      assert c.event == Disconnected(Some(1001));
    }
  }

  // The attempt a delay is computed from

  /** When the client last connected, 0 if never. */
  function LastConnected(calls: seq<Call>): real {
    if calls == [] then 0.0
    else if calls[|calls| - 1].event.Connected? then calls[|calls| - 1].now
    else LastConnected(calls[..|calls| - 1])
  }

  /** The last of these calls was a close or failure after which the client may try again. */
  predicate GrantsRetry(p: Policy, calls: seq<Call>, obedient: bool)
    requires Conversation(p, calls, obedient).Some?
  {
    calls != [] && Fails(calls[|calls| - 1].event) && !Conversation(p, calls, obedient).value.over
  }

  /** The last of these calls was a close after a connection that had lasted long enough to forget earlier failures. */
  predicate IsStableClose(p: Policy, calls: seq<Call>) {
    calls != [] &&
    var last := calls[|calls| - 1];
    last.event.Disconnected? && last.now - LastConnected(calls[..|calls| - 1]) >= p.stableReset
  }

  /** The retries granted since the last close of a stable connection. */
  function Retries(p: Policy, calls: seq<Call>, obedient: bool): nat
    requires Conversation(p, calls, obedient).Some?
  {
    if calls == [] then 0
    else
      var before := Retries(p, calls[..|calls| - 1], obedient);
      if !GrantsRetry(p, calls, obedient) then before
      else if IsStableClose(p, calls) then 0 else before + 1
  }

  lemma VerdictAttempt(p: Policy, h: History, c: Call)
    ensures
      var (m, d) := Verdict(p, h, c);
      && m.connectedAt == (if c.event.Connected? then c.now else h.memory.connectedAt)
      && m.attempt ==
           if !Fails(c.event) || !d.Proceed? then h.memory.attempt
           else if c.event.Disconnected? && c.now - h.memory.connectedAt >= p.stableReset then 0 else h.memory.attempt + 1
  {
    hide Backoff, RandomBetween, Recorded, Suppresses;
  }

  lemma ConverseIs(p: Policy, h: History, c: Call)
    ensures Converse(p, h, c).memory == Verdict(p, h, c).0 && Converse(p, h, c).over == !Verdict(p, h, c).1.Proceed?
  {
    hide Verdict, Logged, RecordedUptime;
  }

  /** Over every conversation: the attempt number is the number of retries granted since the last stable close, and the uptime of a
      close is measured from the last connection. */
  lemma {:induction false} AttemptCountsRetries(p: Policy, calls: seq<Call>, obedient: bool)
    requires Conversation(p, calls, obedient).Some?
    ensures
      var h := Conversation(p, calls, obedient).value;
      h.memory.attempt == Retries(p, calls, obedient) && h.memory.connectedAt == LastConnected(calls)
  {
    hide Converse, Possible, Verdict;
    if calls != [] {
      var before := calls[..|calls| - 1];
      AttemptCountsRetries(p, before, obedient);
      VerdictAttempt(p, Conversation(p, before, obedient).value, calls[|calls| - 1]);
      ConverseIs(p, Conversation(p, before, obedient).value, calls[|calls| - 1]);
    }
  }

  /** The delay a server's close code asks for at least: a restart, or a try again later. */
  predicate AsksFor(p: Policy, e: Event, low: real, high: real) {
    if e == Disconnected(Some(1012)) then low == p.restartMin && high == p.restartMax
    else if e == Disconnected(Some(1013)) then low == p.tryLaterMin && high == p.tryLaterMax
    else low == 0.0 && high == 0.0
  }

  ghost predicate Within(p: Policy, rapidCount: nat, attempt: nat, low: real, high: real, granted: real) {
    exists wait: real :: IsWait(p, rapidCount, attempt, wait)
      && granted >= (if rapidCount < 3 then wait / 2.0 else Scaled(wait, p.lowRatio)) && granted >= low
      && (granted <= (if rapidCount < 3 then wait else Scaled(wait, p.highRatio)) || granted <= high)
  }

  lemma CloseRangeIs(p: Policy, code: Option<nat>, rangeDraw: real)
    requires PolicyOk(p) && 0.0 <= rangeDraw < 1.0 && CloseRange(p, code).Some?
    ensures
      var (low, high) := CloseRange(p, code).value;
      0.0 <= low && low <= RandomBetween(low, high, rangeDraw) <= high && AsksFor(p, Disconnected(code), low, high)
  {
    var (low, high) := CloseRange(p, code).value;
    RandomInRange(low, high, rangeDraw);
  }

  lemma WithinRange(p: Policy, rapidCount: nat, attempt: nat, draw: real, low: real, high: real, extra: real)
    requires PolicyOk(p) && 0.0 <= draw < 1.0 && low <= extra <= high
    ensures Within(p, rapidCount, attempt, low, high, Max(Backoff(p, rapidCount, attempt, draw), extra))
    ensures low == 0.0 == high ==> Within(p, rapidCount, attempt, low, high, Backoff(p, rapidCount, attempt, draw))
  {
    BackoffInRange(p, rapidCount, attempt, draw);
    hide Backoff, IsWait, PolicyOk, Scaled;
  }

  /** What a granted delay was computed from. */
  lemma GrantedFrom(p: Policy, h: History, c: Call)
    requires PolicyOk(p) && 0.0 <= c.draw < 1.0 && 0.0 <= c.rangeDraw < 1.0
    requires Fails(c.event) && Verdict(p, h, c).1.Proceed?
    ensures
      var (m, d) := Verdict(p, h, c);
      var attempt := if c.event.ConnectFailed? then h.memory.attempt else m.attempt;
      exists low: real, high: real :: AsksFor(p, c.event, low, high) && Within(p, |m.rapid|, attempt, low, high, d.delay)
  {
    hide Backoff, RandomBetween, Recorded, Suppresses, PolicyOk, Within, AsksFor;
    var (m, d) := Verdict(p, h, c);
    var attempt := if c.event.ConnectFailed? then h.memory.attempt else m.attempt;
    if c.event.Disconnected? && CloseRange(p, c.event.code).Some? {
      var (low, high) := CloseRange(p, c.event.code).value;
      CloseRangeIs(p, c.event.code, c.rangeDraw);
      WithinRange(p, |m.rapid|, attempt, c.draw, low, high, RandomBetween(low, high, c.rangeDraw));
    } else {
      NothingAsked(p, c.event);
      WithinRange(p, |m.rapid|, attempt, c.draw, 0.0, 0.0, 0.0);
    }
  }

  lemma NothingAsked(p: Policy, e: Event)
    requires e.Disconnected? ==> CloseRange(p, e.code).None?
    ensures AsksFor(p, e, 0.0, 0.0)
  {
  }

  /** Over every conversation: the delay granted after a close or failure is the wait of the attempt that the retries since the last
      stable close make it, jittered, with the floor of the rapid disconnects within the window, and no less than the close asks for. */
  lemma GrantedDelayInRange(p: Policy, calls: seq<Call>, obedient: bool)
    requires PolicyOk(p) && Conversation(p, calls, obedient).Some? && GrantsRetry(p, calls, obedient)
    ensures
      var before, last := calls[..|calls| - 1], calls[|calls| - 1];
      var h := Conversation(p, calls, obedient).value;
      var attempt := if last.event.ConnectFailed? then Retries(p, before, obedient) else Retries(p, calls, obedient);
      var rapidCount := |Recent(h.log, h.recorded, p.rapidWindow)|;
      exists low: real, high: real ::
        AsksFor(p, last.event, low, high) && Within(p, rapidCount, attempt, low, high, h.allowed - last.now)
  {
    hide Possible, Verdict, Logged, RecordedUptime, PolicyOk, Recent, Within, AsksFor;
    var before, last := calls[..|calls| - 1], calls[|calls| - 1];
    AttemptCountsRetries(p, calls, obedient);
    AttemptCountsRetries(p, before, obedient);
    DequeIsRecentLog(p, calls, obedient);
    DrawsInRange(Conversation(p, before, obedient).value, last, obedient);
    GrantedFrom(p, Conversation(p, before, obedient).value, last);
    assert Conversation(p, calls, obedient).value == Converse(p, Conversation(p, before, obedient).value, last);
  }

  lemma DrawsInRange(h: History, c: Call, obedient: bool)
    requires Possible(h, c, obedient)
    ensures 0.0 <= c.draw < 1.0 && 0.0 <= c.rangeDraw < 1.0
  {
  }
}
