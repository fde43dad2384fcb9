/** The mutable decider of `default_decider.py`, proved against the functions of `Deciders`. */
module DeciderObjects {
  import opened Wrappers
  import opened Deciders

  class DefaultReconnectDecider {
    const policy: Policy
    var attempt: nat
    var rapidDisconnects: seq<real>
    var connectedAt: real
    ghost var calls: seq<Call>

    ghost function View(): Memory
      reads this
    {
      Memory(attempt, rapidDisconnects, connectedAt)
    }

    /** The calls so far form a conversation, and the memory is where it leads. */
    ghost predicate Valid()
      reads this
    {
      Conversation(policy, calls, false).Some? && Conversation(policy, calls, false).value.memory == View()
    }

    /** The deque is the log of the conversation, within the window. */
    lemma RemembersTheLog()
      requires Valid() && PolicyOk(policy)
      ensures
        var h := Conversation(policy, calls, false).value;
        rapidDisconnects == Recent(h.log, h.recorded, policy.rapidWindow)
    {
      DequeIsRecentLog(policy, calls, false);
    }

    constructor (policy: Policy)
      ensures Valid() && this.policy == policy && calls == []
    {
      this.policy, calls := policy, [];
      attempt, rapidDisconnects, connectedAt := 0, [], 0.0;
    }

    /** `_suppressed`, with its pruning loop. */
    method Suppressed(now: real, uptime: real) returns (suppressed: bool)
      modifies this`rapidDisconnects
      ensures rapidDisconnects == Recorded(policy, old(rapidDisconnects), now, uptime)
      ensures suppressed == Suppresses(policy, |rapidDisconnects|)
    {
      if uptime < policy.rapidUptime {
        rapidDisconnects := rapidDisconnects + [now];
      }
      ghost var all := rapidDisconnects;
      while rapidDisconnects != [] && now - rapidDisconnects[0] > policy.rapidWindow
        invariant Prune(rapidDisconnects, now, policy.rapidWindow) == Prune(all, now, policy.rapidWindow)
        decreases |rapidDisconnects|
      {
        rapidDisconnects := rapidDisconnects[1..];
      }
      suppressed := policy.suppressCount > 0 && |rapidDisconnects| >= policy.suppressCount;
    }

    method AfterClose(now: real, code: Option<nat>, draw: real, rangeDraw: real) returns (decision: Decision)
      modifies this`attempt, this`rapidDisconnects
      ensures (View(), decision) == Deciders.AfterClose(policy, old(View()), now, code, draw, rangeDraw)
    {
      hide Backoff, RandomBetween, Recorded;
      var stop := StopForClose(policy, code);
      if stop.Some? {
        return stop.value;
      }
      var uptime := now - connectedAt;
      var suppressed := Suppressed(now, uptime);
      if suppressed {
        return Terminal;
      }
      if uptime >= policy.stableReset {
        attempt := 0;
        rapidDisconnects := [];
      } else {
        attempt := attempt + 1;
      }
      var delay := Backoff(policy, |rapidDisconnects|, attempt, draw);
      var range := CloseRange(policy, code);
      if range.Some? {
        delay := Max(delay, RandomBetween(range.value.0, range.value.1, rangeDraw));
      }
      return Proceed(delay);
    }

    method AfterConnectFailure(now: real, forbidden: bool, draw: real) returns (decision: Decision)
      modifies this`attempt, this`rapidDisconnects
      ensures (View(), decision) == Deciders.AfterConnectFailure(policy, old(View()), now, forbidden, draw)
    {
      hide Backoff, RandomBetween, Recorded;
      if forbidden {
        return Terminal;
      }
      var suppressed := Suppressed(now, 0.0);
      if suppressed {
        return Terminal;
      }
      var delay := Backoff(policy, |rapidDisconnects|, attempt, draw);
      attempt := attempt + 1;
      return Proceed(delay);
    }

    method Answer(event: Event, now: real, draw: real, rangeDraw: real) returns (decision: Decision)
      modifies this`attempt, this`rapidDisconnects, this`connectedAt
      ensures (View(), decision) == Deciders.Decide(policy, old(View()), event, now, draw, rangeDraw)
    {
      hide Deciders.AfterClose, Deciders.AfterConnectFailure;
      match event
      case Connected =>
        connectedAt := now;
        return Proceed(0.0);
      case Disconnected(code) =>
        decision := AfterClose(now, code, draw, rangeDraw);
      case ConnectFailed(forbidden) =>
        decision := AfterConnectFailure(now, forbidden, draw);
      case Connecting =>
        return Proceed(0.0);
    }

    /** `__call__`: every possible next call continues the conversation. */
    method Decide(call: Call) returns (decision: Decision)
      modifies this
      ensures decision == Deciders.Decide(policy, old(View()), call.event, call.now, call.draw, call.rangeDraw).1
      ensures calls == old(calls) + [call]
      ensures old(Valid() && Possible(Conversation(policy, calls, false).value, call, false)) ==> Valid()
    {
      hide Deciders.Decide, Possible;
      assert (calls + [call])[..|calls|] == calls;
      decision := Answer(call.event, call.now, call.draw, call.rangeDraw);
      calls := calls + [call];
    }
  }
}
