/**
 * The heartbeat of `supervisor.py`. Times are reals, sends take no time, and the wait between two
 * turns of `_send_heartbeats` takes exactly the interval.
 */
module Heartbeats {
  import opened Wrappers

  /** `heartbeat_interval_s` and `heartbeat_dead_threshold_s`. */
  datatype Settings = Settings(interval: real, threshold: Option<real>)

  /** `deadline` is when the timer fires, `wake` the next turn of the loop, `refs` the last ref used here;
      `alive` is the adoption or the last accepted acknowledgement, `sent` the last send. */
  datatype Heartbeat = Heartbeat(
    pending: Option<nat>, deadline: Option<real>, refs: nat, wake: real, closed: bool, alive: real, sent: real)

  function Adopt(s: Settings, now: real, refs: nat): Heartbeat {
    Heartbeat(None, if s.threshold.None? then None else Some(now + s.threshold.value), refs, now + s.interval, false, now, now)
  }

  /** One turn of `_send_heartbeats`: with a threshold, an unanswered heartbeat is not repeated.
      `next` is what `_generate_ref` would return; channels take refs from the same counter. */
  function Wake(s: Settings, h: Heartbeat, next: nat, now: real): Heartbeat {
    if h.pending.Some? && s.threshold.Some? then h.(wake := now + s.interval)
    else h.(wake := now + s.interval, refs := next, pending := Some(next), sent := now)
  }

  /** `_handle_heartbeat_response` */
  function Respond(s: Settings, h: Heartbeat, ref: Option<nat>, now: real): Heartbeat {
    if ref.None? || ref != h.pending then h
    else if s.threshold.None? then h.(pending := None, alive := now)
    else if h.deadline.None? || now >= h.deadline.value then h
    else h.(pending := None, deadline := Some(now + s.threshold.value), alive := now)
  }

  datatype Event = Turn(next: nat) | Reply(ref: Option<nat>) | Expiry | Quiet

  /** The loop turns and the timer fires on time; `promptness`, if given, is how soon the server
      answers the outstanding heartbeat. */
  predicate Possible(s: Settings, h: Heartbeat, e: Event, clock: real, now: real, promptness: Option<real>) {
    && !h.closed && clock <= now <= h.wake
    && (h.deadline.Some? ==> now <= h.deadline.value)
    && (promptness.Some? && h.pending.Some? ==> now <= h.sent + promptness.value)
    && match e {
         case Turn(next) => now == h.wake && next > h.refs
         case Expiry => h.deadline.Some? && now == h.deadline.value
         case _ => true
       }
  }

  function Next(s: Settings, h: Heartbeat, e: Event, now: real): Heartbeat {
    match e
    case Turn(next) => Wake(s, h, next, now)
    case Reply(ref) => Respond(s, h, ref, now)
    case Expiry => h.(closed := true)
    case Quiet => h
  }

  /** The state after the events at these times. */
  function Run(s: Settings, start: real, refs: nat, events: seq<(Event, real)>, promptness: Option<real>): Option<(Heartbeat, real)> {
    if events == [] then Some((Adopt(s, start, refs), start))
    else
      var before := Run(s, start, refs, events[..|events| - 1], promptness);
      var (e, now) := events[|events| - 1];
      if before.Some? && Possible(s, before.value.0, e, before.value.1, now, promptness)
      then Some((Next(s, before.value.0, e, now), now)) else None
  }

  predicate Ok(s: Settings, h: Heartbeat, clock: real) {
    && h.deadline.Some? == s.threshold.Some?
    && (s.threshold.Some? ==> h.deadline.value == h.alive + s.threshold.value)
    && h.alive <= clock <= h.wake && h.sent <= clock
    && h.wake <= clock + s.interval
    && (h.pending.None? ==> h.wake <= h.alive + s.interval)
    && (s.threshold.Some? && h.pending.Some? ==> h.alive <= h.sent <= h.alive + s.interval)
    && (h.pending.Some? ==> h.pending.value == h.refs)
  }

  lemma {:induction false} RunOk(s: Settings, start: real, refs: nat, events: seq<(Event, real)>, promptness: Option<real>)
    requires s.interval > 0.0 && Run(s, start, refs, events, promptness).Some?
    ensures
      var (h, clock) := Run(s, start, refs, events, promptness).value;
      Ok(s, h, clock)
  {
    if events != [] {
      RunOk(s, start, refs, events[..|events| - 1], promptness);
    }
  }

  // What the events alone say, with a threshold

  /** The first event after the last of these acknowledgements. */
  function Since(acks: seq<nat>): nat {
    if acks == [] then 0 else acks[|acks| - 1] + 1
  }

  /** The time of the last acknowledgement, or of the adoption. */
  function LastSign(start: real, events: seq<(Event, real)>, acks: seq<nat>): real
    requires forall k :: 0 <= k < |acks| ==> acks[k] < |events|
  {
    if acks == [] then start else events[acks[|acks| - 1]].1
  }

  /** The first heartbeat of the loop from this event on: the later turns find it unanswered. */
  function Unanswered(events: seq<(Event, real)>, from: nat): Option<nat> {
    if |events| <= from then None
    else
      var before := Unanswered(events[..|events| - 1], from);
      if before.None? && events[|events| - 1].0.Turn? then Some(events[|events| - 1].0.next) else before
  }

  /** The event answers the unanswered heartbeat, by its number, before the deadline. */
  predicate Counts(start: real, threshold: real, before: seq<(Event, real)>, acks: seq<nat>, e: (Event, real))
    requires forall k :: 0 <= k < |acks| ==> acks[k] < |before|
  {
    && e.0.Reply? && e.0.ref.Some? && e.0.ref == Unanswered(before, Since(acks))
    && e.1 < LastSign(start, before, acks) + threshold
  }

  /** The events that are acknowledgements. */
  function Acks(start: real, threshold: real, events: seq<(Event, real)>): (acks: seq<nat>)
    ensures forall k :: 0 <= k < |acks| ==> acks[k] < |events|
  {
    if events == [] then []
    else
      var before := events[..|events| - 1];
      var acks := Acks(start, threshold, before);
      if Counts(start, threshold, before, acks, events[|events| - 1]) then acks + [|events| - 1] else acks
  }

  /** The state that the acknowledgements among the events determine. */
  predicate Determined(start: real, threshold: real, events: seq<(Event, real)>, h: Heartbeat) {
    var acks := Acks(start, threshold, events);
    && h.deadline == Some(LastSign(start, events, acks) + threshold)
    && h.pending == Unanswered(events, Since(acks))
  }

  lemma AcksNext(events: seq<(Event, real)>, acks: seq<nat>, e: (Event, real))
    requires forall k :: 0 <= k < |acks| ==> acks[k] < |events|
    ensures
      var open := Unanswered(events, Since(acks));
      Unanswered(events + [e], Since(acks)) == if open.None? && e.0.Turn? then Some(e.0.next) else open
    ensures Unanswered(events + [e], Since(acks + [|events|])) == None
    ensures forall start :: LastSign(start, events + [e], acks) == LastSign(start, events, acks)
  {
    assert (events + [e])[..|events|] == events;
  }

  lemma AcksLast(start: real, threshold: real, events: seq<(Event, real)>, e: (Event, real))
    ensures
      var acks := Acks(start, threshold, events);
      Acks(start, threshold, events + [e]) == if Counts(start, threshold, events, acks, e) then acks + [|events|] else acks
  {
    hide Counts;
    assert (events + [e])[..|events|] == events;
  }

  /** One more event keeps the state determined; a reply changes it exactly if it counts. */
  lemma StepDetermines(s: Settings, start: real, events: seq<(Event, real)>, h: Heartbeat, e: (Event, real), threshold: real)
    requires s.threshold == Some(threshold) && Determined(start, threshold, events, h)
    ensures Determined(start, threshold, events + [e], Next(s, h, e.0, e.1))
    ensures e.0.Reply? ==>
      (Next(s, h, e.0, e.1) != h <==> Counts(start, threshold, events, Acks(start, threshold, events), e))
    ensures
      var acknowledged := if e.0.Reply? && Next(s, h, e.0, e.1) != h then 1 else 0;
      |Acks(start, threshold, events + [e])| == |Acks(start, threshold, events)| + acknowledged
  {
    AcksLast(start, threshold, events, e);
    AcksNext(events, Acks(start, threshold, events), e);
    hide Acks, Unanswered;
  }

  lemma StartDetermines(s: Settings, start: real, refs: nat, threshold: real)
    requires s.threshold == Some(threshold)
    ensures Determined(start, threshold, [], Adopt(s, start, refs)) && Acks(start, threshold, []) == []
  {
  }

  /** The deadline is always the threshold after the last acknowledgement, or after the adoption: the
      events alone determine it, and the outstanding heartbeat with it. */
  lemma {:induction false} DeadlineFollowsAcks(s: Settings, start: real, refs: nat, events: seq<(Event, real)>,
                                               promptness: Option<real>, threshold: real)
    requires s.threshold == Some(threshold) && Run(s, start, refs, events, promptness).Some?
    ensures Determined(start, threshold, events, Run(s, start, refs, events, promptness).value.0)
  {
    hide Next, Possible, Determined;
    if events == [] {
      StartDetermines(s, start, refs, threshold);
    } else {
      var before, e := events[..|events| - 1], events[|events| - 1];
      DeadlineFollowsAcks(s, start, refs, before, promptness, threshold);
      StepDetermines(s, start, before, Run(s, start, refs, before, promptness).value.0, e, threshold);
      assert before + [e] == events;
    }
  }

  /** The events without the replies that do not count. */
  function Essential(start: real, threshold: real, events: seq<(Event, real)>): seq<(Event, real)> {
    if events == [] then []
    else
      var before, e := events[..|events| - 1], events[|events| - 1];
      var kept := Essential(start, threshold, before);
      if e.0.Reply? && !Counts(start, threshold, before, Acks(start, threshold, before), e) then kept else kept + [e]
  }

  lemma PossibleEarlier(s: Settings, h: Heartbeat, e: Event, clock: real, earlier: real, now: real, promptness: Option<real>)
    requires Possible(s, h, e, clock, now, promptness) && earlier <= clock
    ensures Possible(s, h, e, earlier, now, promptness)
  {
  }

  lemma Extend(s: Settings, start: real, refs: nat, events: seq<(Event, real)>, promptness: Option<real>, e: (Event, real))
    requires Run(s, start, refs, events, promptness).Some?
    requires
      var (h, clock) := Run(s, start, refs, events, promptness).value;
      Possible(s, h, e.0, clock, e.1, promptness)
    ensures Run(s, start, refs, events + [e], promptness)
            == Some((Next(s, Run(s, start, refs, events, promptness).value.0, e.0, e.1), e.1))
  {
    hide Next, Possible;
    assert (events + [e])[..|events|] == events;
  }

  lemma {:induction false} EssentialLeadsThere(s: Settings, start: real, refs: nat, events: seq<(Event, real)>,
                                               promptness: Option<real>, threshold: real)
    requires s.threshold == Some(threshold) && Run(s, start, refs, events, promptness).Some?
    ensures
      var there := Run(s, start, refs, Essential(start, threshold, events), promptness);
      && there.Some? && there.value.0 == Run(s, start, refs, events, promptness).value.0
      && there.value.1 <= Run(s, start, refs, events, promptness).value.1
  {
    hide Next, Counts, Acks, Determined, Possible;
    if events != [] {
      var before, e := events[..|events| - 1], events[|events| - 1];
      EssentialLeadsThere(s, start, refs, before, promptness, threshold);
      DeadlineFollowsAcks(s, start, refs, before, promptness, threshold);
      var (h, clock) := Run(s, start, refs, before, promptness).value;
      StepDetermines(s, start, before, h, e, threshold);
      TimeGoesOn(s, h, e.0, clock, e.1, promptness);
      var kept := Essential(start, threshold, before);
      PossibleEarlier(s, h, e.0, clock, Run(s, start, refs, kept, promptness).value.1, e.1, promptness);
      Extend(s, start, refs, kept, promptness, e);
    }
  }

  lemma TimeGoesOn(s: Settings, h: Heartbeat, e: Event, clock: real, now: real, promptness: Option<real>)
    requires Possible(s, h, e, clock, now, promptness)
    ensures clock <= now
  {
  }

  /** Replies with a wrong ref, or at or after the deadline, might as well not have come: without them
      the run is as possible and leads to the same state. A reply that counts changes it. */
  lemma OnlyTimelyAcksCount(s: Settings, start: real, refs: nat, events: seq<(Event, real)>,
                            promptness: Option<real>, threshold: real)
    requires s.threshold == Some(threshold) && Run(s, start, refs, events, promptness).Some?
    ensures
      var h := Run(s, start, refs, events, promptness).value.0;
      && Run(s, start, refs, Essential(start, threshold, events), promptness).Some?
      && Run(s, start, refs, Essential(start, threshold, events), promptness).value.0 == h
      && forall ref, now :: Next(s, h, Reply(ref), now) != h <==>
           Counts(start, threshold, events, Acks(start, threshold, events), (Reply(ref), now))
  {
    hide Run, Next, Counts, Acks, Determined, Essential;
    EssentialLeadsThere(s, start, refs, events, promptness, threshold);
    DeadlineFollowsAcks(s, start, refs, events, promptness, threshold);
    var h := Run(s, start, refs, events, promptness).value.0;
    forall ref, now
      ensures Next(s, h, Reply(ref), now) != h <==>
        Counts(start, threshold, events, Acks(start, threshold, events), (Reply(ref), now))
    {
      StepDetermines(s, start, events, h, (Reply(ref), now), threshold);
    }
  }

  /** The refs of the heartbeats sent in a run. */
  function Sent(s: Settings, start: real, refs: nat, events: seq<(Event, real)>, promptness: Option<real>): seq<nat>
    requires Run(s, start, refs, events, promptness).Some?
  {
    if events == [] then []
    else
      var before := events[..|events| - 1];
      var was := Run(s, start, refs, before, promptness).value.0;
      var now := Run(s, start, refs, events, promptness).value.0;
      Sent(s, start, refs, before, promptness) + (if now.refs != was.refs then [now.refs] else [])
  }

  /** The heartbeats sent, under ever larger refs, are as many as those acknowledged, or one more that
      is outstanding. */
  predicate AtMostOneOpen(h: Heartbeat, refs: nat, sent: seq<nat>, acknowledged: nat) {
    && |sent| == acknowledged + (if h.pending.Some? then 1 else 0)
    && (forall j, k :: 0 <= j < k < |sent| ==> sent[j] < sent[k])
    && (forall k :: 0 <= k < |sent| ==> refs < sent[k])
    && h.refs == (if sent == [] then refs else sent[|sent| - 1])
    && (h.pending.Some? ==> h.pending.value == h.refs)
  }

  lemma StepKeepsOne(s: Settings, h: Heartbeat, e: Event, now: real, refs: nat, sent: seq<nat>, acknowledged: nat)
    requires s.threshold.Some? && AtMostOneOpen(h, refs, sent, acknowledged) && (e.Turn? ==> e.next > h.refs)
    ensures
      var t := Next(s, h, e, now);
      AtMostOneOpen(t, refs, sent + (if t.refs != h.refs then [t.refs] else []),
                    acknowledged + (if e.Reply? && t != h then 1 else 0))
  {
  }

  /** With a threshold at most one heartbeat is outstanding, over every run. */
  lemma {:induction false} OneOutstanding(s: Settings, start: real, refs: nat, events: seq<(Event, real)>,
                                          promptness: Option<real>, threshold: real)
    requires s.threshold == Some(threshold) && Run(s, start, refs, events, promptness).Some?
    ensures AtMostOneOpen(Run(s, start, refs, events, promptness).value.0, refs,
                          Sent(s, start, refs, events, promptness), |Acks(start, threshold, events)|)
  {
    hide Acks, Determined, Next, AtMostOneOpen;
    StartDetermines(s, start, refs, threshold);
    if events == [] {
      NothingSent(s, start, refs);
    } else {
      var before, e := events[..|events| - 1], events[|events| - 1];
      OneOutstanding(s, start, refs, before, promptness, threshold);
      DeadlineFollowsAcks(s, start, refs, before, promptness, threshold);
      var h := Run(s, start, refs, before, promptness).value.0;
      StepDetermines(s, start, before, h, e, threshold);
      StepKeepsOne(s, h, e.0, e.1, refs, Sent(s, start, refs, before, promptness), |Acks(start, threshold, before)|);
      assert before + [e] == events;
    }
  }

  lemma NothingSent(s: Settings, start: real, refs: nat)
    ensures AtMostOneOpen(Adopt(s, start, refs), refs, [], 0)
  {
  }

  /** A server that always answers within r is never closed for a missed heartbeat if interval + r is
      less than the threshold: its answers always count, and the deadline is never reached. */
  lemma PromptServerStaysConnected(s: Settings, start: real, refs: nat, events: seq<(Event, real)>, r: real, threshold: real)
    requires s.interval > 0.0 && r >= 0.0 && s.threshold == Some(threshold) && s.interval + r < threshold
    requires Run(s, start, refs, events, Some(r)).Some?
    ensures
      var (h, clock) := Run(s, start, refs, events, Some(r)).value;
      && !h.closed
      && (forall now :: !Possible(s, h, Expiry, clock, now, Some(r)))
      && (forall now :: h.pending.Some? && Possible(s, h, Reply(h.pending), clock, now, Some(r)) ==>
            Next(s, h, Reply(h.pending), now).pending.None?)
  {
    RunOk(s, start, refs, events, Some(r));
    if events != [] {
      PromptServerStaysConnected(s, start, refs, events[..|events| - 1], r, threshold);
    }
  }

  // Without a threshold, the client's default

  /** Heartbeat r was sent by the last turn of the loop among these events, and no reply named it since. */
  predicate LastUnanswered(events: seq<(Event, real)>, r: nat) {
    exists k :: 0 <= k < |events| && events[k].0 == Turn(r)
      && forall j :: k < j < |events| ==> !events[j].0.Turn? && events[j].0 != Reply(Some(r))
  }

  /** The refs the turns of the loop generated. */
  function Turns(events: seq<(Event, real)>): seq<nat> {
    if events == [] then []
    else
      var before := Turns(events[..|events| - 1]);
      if events[|events| - 1].0.Turn? then before + [events[|events| - 1].0.next] else before
  }

  lemma UnansweredNext(events: seq<(Event, real)>, e: (Event, real), r: nat)
    ensures LastUnanswered(events + [e], r) <==>
      e.0 == Turn(r) || (LastUnanswered(events, r) && !e.0.Turn? && e.0 != Reply(Some(r)))
  {
    var all := events + [e];
    if LastUnanswered(all, r) {
      var k :| 0 <= k < |all| && all[k].0 == Turn(r) && forall j :: k < j < |all| ==> !all[j].0.Turn? && all[j].0 != Reply(Some(r));
      if k < |events| {
        assert events[k].0 == Turn(r) && all[|events|] == e;
        forall j | k < j < |events| ensures !events[j].0.Turn? && events[j].0 != Reply(Some(r)) {
          assert all[j] == events[j];
        }
      }
    }
    if e.0 == Turn(r) {
      assert all[|events|].0 == Turn(r);
    } else if LastUnanswered(events, r) && !e.0.Turn? && e.0 != Reply(Some(r)) {
      var k :| 0 <= k < |events| && events[k].0 == Turn(r)
        && forall j :: k < j < |events| ==> !events[j].0.Turn? && events[j].0 != Reply(Some(r));
      assert all[k].0 == Turn(r);
    }
  }

  /** One event without a threshold: every turn sends, and a reply that names the outstanding heartbeat answers it. */
  lemma StepWithoutThreshold(s: Settings, h: Heartbeat, e: Event, now: real)
    requires s.threshold.None?
    ensures
      var t := Next(s, h, e, now);
      && t.deadline == h.deadline && (t.closed ==> h.closed || e.Expiry?)
      && t.refs == (if e.Turn? then e.next else h.refs)
      && t.pending == (if e.Turn? then Some(e.next) else if e.Reply? && e.ref.Some? && e.ref == h.pending then None else h.pending)
  {
  }

  /** Without a threshold there is no deadline and the connection is never closed for a missed heartbeat; every turn of the loop sends
      one, answered or not, and the outstanding one is that of the last turn until a reply names it. */
  lemma {:induction false} NoThresholdNeverCloses(s: Settings, start: real, refs: nat, events: seq<(Event, real)>, promptness: Option<real>)
    requires s.threshold.None? && Run(s, start, refs, events, promptness).Some?
    ensures
      var (h, clock) := Run(s, start, refs, events, promptness).value;
      && h.deadline.None? && !h.closed
      && (forall now :: !Possible(s, h, Expiry, clock, now, promptness))
      && Sent(s, start, refs, events, promptness) == Turns(events)
      && (forall r: nat :: h.pending == Some(r) <==> LastUnanswered(events, r))
  {
    hide Next, LastUnanswered;
    if events == [] {
      NothingUnanswered();
    } else {
      var before, e := events[..|events| - 1], events[|events| - 1];
      NoThresholdNeverCloses(s, start, refs, before, promptness);
      var h := Run(s, start, refs, before, promptness).value.0;
      StepWithoutThreshold(s, h, e.0, e.1);
      assert before + [e] == events;
      forall r: nat ensures Next(s, h, e.0, e.1).pending == Some(r) <==> LastUnanswered(events, r) {
        UnansweredNext(before, e, r);
      }
    }
  }

  lemma NothingUnanswered()
    ensures forall r: nat :: !LastUnanswered([], r)
  {
  }

  lemma StepKeepsPace(s: Settings, h: Heartbeat, e: Event, now: real)
    ensures Next(s, h, e, now).wake == if e.Turn? then now + s.interval else h.wake
  {
  }

  /** The loop turns once per interval: the next turn comes as many intervals after the adoption as there were turns, and one more. */
  lemma {:induction false} TurnsKeepPace(s: Settings, start: real, refs: nat, events: seq<(Event, real)>, promptness: Option<real>)
    requires Run(s, start, refs, events, promptness).Some?
    ensures
      var (h, clock) := Run(s, start, refs, events, promptness).value;
      && h.wake == start + (|Turns(events)| + 1) as real * s.interval
      && (forall next: nat, now :: Possible(s, h, Turn(next), clock, now, promptness) ==> now == h.wake)
  {
    hide Next;
    if events != [] {
      var before, e := events[..|events| - 1], events[|events| - 1];
      TurnsKeepPace(s, start, refs, before, promptness);
      StepKeepsPace(s, Run(s, start, refs, before, promptness).value.0, e.0, e.1);
      OneMore(|Turns(before)| + 1, s.interval);
    } else {
      OneMore(0, s.interval);
    }
  }

  lemma OneMore(n: nat, interval: real)
    ensures (n + 1) as real * interval == n as real * interval + interval
  {
    assert (n + 1) as real == n as real + 1.0;
  }

  // The object

  class HeartbeatTracker {
    const settings: Settings
    const start: real
    const firstRef: nat
    var pending: Option<nat>
    var deadline: Option<real>
    var refs: nat
    var closed: bool
    ghost var wake: real
    ghost var alive: real
    ghost var sent: real
    ghost var clock: real
    ghost var events: seq<(Event, real)>

    ghost function View(): Heartbeat
      reads this
    {
      Heartbeat(pending, deadline, refs, wake, closed, alive, sent)
    }

    /** The object is where its events lead, so what holds after every run holds of it. */
    ghost predicate Valid()
      reads this
    {
      Run(settings, start, firstRef, events, None) == Some((View(), clock))
    }

    /** The heartbeat part of `_adopt_connection` and `_start_session`. */
    constructor (settings: Settings, now: real, refs: nat)
      ensures Valid() && this.settings == settings && start == now && firstRef == refs && events == []
    {
      this.settings, start, firstRef, this.refs, pending := settings, now, refs, refs, None;
      deadline := if settings.threshold.Some? then Some(now + settings.threshold.value) else None;
      wake, closed, alive, sent, clock, events := now + settings.interval, false, now, now, now, [];
    }

    ghost method Note(e: Event, now: real)
      requires Run(settings, start, firstRef, events + [(e, now)], None) == Some((View(), now))
      modifies this`events, this`clock
      ensures Valid() && events == old(events) + [(e, now)]
    {
      events, clock := events + [(e, now)], now;
    }

    lemma Extended(e: Event, now: real)
      requires Valid() && Possible(settings, View(), e, clock, now, None)
      ensures Run(settings, start, firstRef, events + [(e, now)], None) == Some((Next(settings, View(), e, now), now))
    {
      hide Run, Next, Possible;
      Extend(settings, start, firstRef, events, None, (e, now));
    }

    /** One turn of `_send_heartbeats`. */
    method SendHeartbeat(next: nat, now: real)
      requires Valid() && Possible(settings, View(), Turn(next), clock, now, None)
      modifies this
      ensures Valid() && events == old(events) + [(Turn(next), now)]
    {
      hide Run;
      Extended(Turn(next), now);
      wake := now + settings.interval;
      if pending.None? || settings.threshold.None? {
        refs := next;
        pending, sent := Some(next), now;
      }
      Note(Turn(next), now);
    }

    /** `_handle_heartbeat_response` */
    method HandleResponse(ref: Option<nat>, now: real)
      requires Valid() && Possible(settings, View(), Reply(ref), clock, now, None)
      modifies this
      ensures Valid() && events == old(events) + [(Reply(ref), now)]
    {
      hide Run;
      Extended(Reply(ref), now);
      if ref.Some? && ref == pending {
        if settings.threshold.None? {
          pending, alive := None, now;
        } else if deadline.Some? && now < deadline.value {
          deadline := Some(now + settings.threshold.value);
          pending, alive := None, now;
        }
      }
      Note(Reply(ref), now);
    }

    /** The deadline passes: the connection is closed. */
    method MissDeadline(now: real)
      requires Valid() && Possible(settings, View(), Expiry, clock, now, None)
      modifies this
      ensures Valid() && events == old(events) + [(Expiry, now)] && closed
    {
      hide Run;
      Extended(Expiry, now);
      closed := true;
      Note(Expiry, now);
    }
  }
}
