/**
 * `send_session.py`: the channel operations of one connection. Each operation has an outcome, a
 * write task and a deadline timer, which end in any order; the callbacks of the outcome and of the write
 * run later, as steps of their own.
 */
module SendSession {
  import opened Wrappers

  datatype Outcome = Waiting | Answered | Ineligible | TimedOut | Lost | WriteFailed | CallerGone

  /** The write task. Cancelling it before its first step dooms it: its body never runs. */
  datatype Task = Unstarted | Doomed | Sending | Written | Ended

  /** `listed` is whether the session's table holds the operation, `overdue` whether its deadline
      has fired while the session was current. */
  datatype Operation = Operation(
    outcome: Outcome, task: Task, submitted: bool, timer: bool, listed: bool,
    sendNoticed: bool, outcomeNoticed: bool, overdue: bool)

  /** `current` is what `is_current()` answers, `failures` counts the calls of `on_failure`. */
  datatype Flags = Flags(current: bool, retired: bool, failed: bool, failures: nat)

  datatype WriteResult = WriteOk | ConnectionLost | WriteCancelled | WriteRaised

  predicate Done(task: Task) {
    task == Written || task == Ended
  }

  function Admitted(): Operation {
    Operation(Waiting, Unstarted, false, true, true, false, false, false)
  }

  /** A settled outcome keeps its result. */
  function Fail(o: Operation, reason: Outcome): Operation {
    if o.outcome == Waiting then o.(outcome := reason) else o
  }

  function Cancel(o: Operation): Operation {
    if o.task == Unstarted then o.(task := Doomed) else o
  }

  function Discard(o: Operation): Operation {
    o.(timer := false, listed := false)
  }

  /** `_notify_failure` */
  function NotifyFailure(f: Flags): Flags {
    if f.retired || f.failed || !f.current then f else f.(failed := true, failures := f.failures + 1)
  }

  /** `_send` up to the await of the write. */
  function StartSend(f: Flags, o: Operation, eligible: bool): Operation {
    if o.task == Doomed || o.outcome != Waiting then o.(task := Ended)
    else if f.retired || f.failed || !f.current || !eligible then Fail(o, Ineligible).(task := Ended)
    else o.(submitted := true, task := Sending)
  }

  /** The rest of `_send`. */
  function FinishSend(f: Flags, o: Operation, result: WriteResult): (Flags, Operation) {
    match result
    case WriteOk => (f, o.(task := Written))
    case ConnectionLost => (NotifyFailure(f), Fail(o, Lost).(task := Ended))
    case WriteCancelled => (if o.submitted then NotifyFailure(f) else f, Fail(o, Lost).(task := Ended))
    case WriteRaised => (f, Fail(o, WriteFailed).(task := Ended))
  }

  /** `_expire` */
  function Expire(f: Flags, o: Operation): (Flags, Operation) {
    var fired := o.(timer := false);
    if f.retired || !f.current then (f, fired)
    else
      var late := Fail(fired, TimedOut).(overdue := true);
      if Done(late.task) then (f, Discard(late))
      else if !late.submitted then (f, Cancel(late))
      else (NotifyFailure(f), late)
  }

  /** `send_and_wait` when its caller is cancelled. */
  function CallerCancels(o: Operation): Operation {
    var gone := Fail(o, CallerGone);
    if gone.submitted then gone else Cancel(gone)
  }

  /** `_send_done` */
  function SendNotice(o: Operation): Operation {
    var noticed := o.(sendNoticed := true);
    if o.outcome != Waiting then Discard(noticed) else noticed
  }

  /** `_outcome_done` */
  function OutcomeNotice(o: Operation): Operation {
    var noticed := o.(outcomeNoticed := true);
    if Done(o.task) then Discard(noticed) else noticed
  }

  /** `finish` on one listed operation, before it waits. */
  function Retire(o: Operation): Operation {
    var stopped := o.(timer := false);
    if stopped.submitted then stopped else Cancel(stopped)
  }

  // A session and everything that can happen to it

  /** `frames` lists the operations in the order their frames were submitted. */
  datatype Session = Session(flags: Flags, finishing: bool, operations: seq<Operation>, frames: seq<nat>)

  datatype Event =
    | Admit
    | SendStarts(operation: nat, eligible: bool)
    | SendEnds(operation: nat, result: WriteResult)
    | Settles(operation: nat, outcome: Outcome)
    | Expires(operation: nat)
    | CallerCancelled(operation: nat)
    | SendCallback(operation: nat)
    | OutcomeCallback(operation: nat)
    | Replaced
    | FinishBegins
    | FinishEnds
    | FinishInterrupted

  function NewSession(): Session {
    Session(Flags(true, false, false, 0), false, [], [])
  }

  predicate Enabled(s: Session, e: Event) {
    match e
    case Admit => s.flags.current
    case SendStarts(i, _) => i < |s.operations| && (s.operations[i].task == Unstarted || s.operations[i].task == Doomed)
    case SendEnds(i, _) => i < |s.operations| && s.operations[i].task == Sending
    case Settles(i, outcome) => i < |s.operations| && outcome != Waiting
    case Expires(i) => i < |s.operations| && s.operations[i].timer
    case CallerCancelled(i) => i < |s.operations|
    case SendCallback(i) => i < |s.operations| && Done(s.operations[i].task) && !s.operations[i].sendNoticed
    case OutcomeCallback(i) => i < |s.operations| && s.operations[i].outcome != Waiting && !s.operations[i].outcomeNoticed
    case Replaced => true
    case FinishBegins => !s.flags.current
    case FinishEnds => s.finishing && forall i :: 0 <= i < |s.operations| && s.operations[i].listed ==> Done(s.operations[i].task)
    case FinishInterrupted => s.finishing
  }

  function Update(s: Session, i: nat, o: Operation): Session
    requires i < |s.operations|
  {
    s.(operations := s.operations[i := o])
  }

  function Map(operations: seq<Operation>, f: Operation -> Operation): (r: seq<Operation>)
    ensures |r| == |operations|
    ensures forall i :: 0 <= i < |r| ==> r[i] == f(operations[i])
  {
    seq(|operations|, i requires 0 <= i < |operations| => f(operations[i]))
  }

  function Next(s: Session, e: Event): Session
    requires Enabled(s, e)
  {
    match e
    case Admit => s.(operations := s.operations + [Admitted()])
    case SendStarts(i, eligible) =>
      var o := StartSend(s.flags, s.operations[i], eligible);
      Update(s, i, o).(frames := if o.task == Sending then s.frames + [i] else s.frames)
    case SendEnds(i, result) =>
      var (f, o) := FinishSend(s.flags, s.operations[i], result);
      Update(s, i, o).(flags := f)
    case Settles(i, outcome) => Update(s, i, Fail(s.operations[i], outcome))
    case Expires(i) =>
      var (f, o) := Expire(s.flags, s.operations[i]);
      Update(s, i, o).(flags := f)
    case CallerCancelled(i) => Update(s, i, CallerCancels(s.operations[i]))
    case SendCallback(i) => Update(s, i, SendNotice(s.operations[i]))
    case OutcomeCallback(i) => Update(s, i, OutcomeNotice(s.operations[i]))
    case Replaced => s.(flags := s.flags.(current := false))
    case FinishBegins =>
      s.(flags := s.flags.(retired := true), finishing := true,
         operations := Map(s.operations, (o: Operation) => if o.listed then Retire(o) else o))
    case FinishEnds => s.(finishing := false, operations := Map(s.operations, (o: Operation) => o.(listed := false)))
    case FinishInterrupted => s.(finishing := false)
  }

  /** The session after these events, or None if one was not possible. */
  function Run(events: seq<Event>): Option<Session> {
    if events == [] then Some(NewSession())
    else
      var before := Run(events[..|events| - 1]);
      if before.Some? && Enabled(before.value, events[|events| - 1])
      then Some(Next(before.value, events[|events| - 1])) else None
  }

  // The invariant

  predicate OperationOk(f: Flags, o: Operation) {
    && (o.task == Unstarted || o.task == Doomed ==> !o.submitted)
    && (o.task == Sending || o.task == Written ==> o.submitted)
    && (o.sendNoticed ==> Done(o.task))
    && (o.outcomeNoticed ==> o.outcome != Waiting)
    && (o.timer ==> o.listed && !f.retired)
    && (o.sendNoticed && o.outcomeNoticed ==> !o.listed)
    && (o.outcome == Waiting && f.current ==> o.timer)
    && (o.outcome == Waiting && (o.task == Doomed || o.task == Ended) ==> f.retired)
    && (o.overdue ==> o.outcome != Waiting && (Done(o.task) || o.task == Doomed || f.failed))
  }

  predicate FlagsOk(f: Flags) {
    f.failures == (if f.failed then 1 else 0) && (f.retired ==> !f.current)
  }

  predicate SessionOk(s: Session) {
    && FlagsOk(s.flags) && (s.finishing ==> s.flags.retired)
    && (forall i :: 0 <= i < |s.operations| ==> OperationOk(s.flags, s.operations[i]))
    && (forall k :: 0 <= k < |s.frames| ==> s.frames[k] < |s.operations| && s.operations[s.frames[k]].submitted)
    && (forall i :: 0 <= i < |s.operations| && s.operations[i].submitted ==> i in s.frames)
    && (forall j, k :: 0 <= j < k < |s.frames| ==> s.frames[j] != s.frames[k])
  }

  // One operation

  lemma StartSendOk(f: Flags, o: Operation, eligible: bool)
    requires OperationOk(f, o) && (o.task == Unstarted || o.task == Doomed)
    ensures
      var p := StartSend(f, o, eligible);
      && OperationOk(f, p) && (p.task == Sending <==> p.submitted)
      && (p.submitted ==> f.current && !f.retired && !f.failed && eligible && o.outcome == Waiting && !o.submitted)
  {
  }

  lemma FinishSendOk(f: Flags, o: Operation, result: WriteResult)
    requires OperationOk(f, o) && o.task == Sending
    ensures
      var (g, p) := FinishSend(f, o, result);
      OperationOk(g, p) && p.submitted == o.submitted && (g == f || g == NotifyFailure(f))
  {
  }

  lemma ExpireOk(f: Flags, o: Operation)
    requires FlagsOk(f) && OperationOk(f, o) && o.timer
    ensures
      var (g, p) := Expire(f, o);
      OperationOk(g, p) && p.submitted == o.submitted && (g == f || g == NotifyFailure(f))
  {
  }

  /** Failing the session disturbs no other operation. */
  lemma FailedOk(f: Flags, o: Operation)
    requires OperationOk(f, o)
    ensures OperationOk(NotifyFailure(f), o)
  {
  }

  lemma NotifiedOnce(f: Flags)
    requires FlagsOk(f)
    ensures FlagsOk(NotifyFailure(f)) && NotifyFailure(f).retired == f.retired
  {
  }

  /** One operation moves, and the session may fail. */
  lemma OneMoves(s: Session, i: nat, o: Operation, f: Flags)
    requires SessionOk(s) && i < |s.operations| && (f == s.flags || f == NotifyFailure(s.flags))
    requires OperationOk(f, o) && o.submitted == s.operations[i].submitted
    ensures SessionOk(Update(s, i, o).(flags := f))
  {
    hide OperationOk, FlagsOk, NotifyFailure;
    NotifiedOnce(s.flags);
    forall j | 0 <= j < |s.operations| && j != i ensures OperationOk(f, s.operations[j]) {
      FailedOk(s.flags, s.operations[j]);
    }
  }

  lemma SendStartsOk(s: Session, i: nat, eligible: bool)
    requires SessionOk(s) && Enabled(s, SendStarts(i, eligible))
    ensures SessionOk(Next(s, SendStarts(i, eligible)))
  {
    hide OperationOk, FlagsOk, StartSend;
    StartSendOk(s.flags, s.operations[i], eligible);
    var o := StartSend(s.flags, s.operations[i], eligible);
    KeepsSubmitted(s.flags, s.operations[i]);
    if o.task == Sending {
      NotYetSubmitted(s, i);
      Submitted(s, i, o);
    } else {
      OneMoves(s, i, o, s.flags);
    }
  }

  lemma Submitted(s: Session, i: nat, o: Operation)
    requires SessionOk(s) && i < |s.operations| && OperationOk(s.flags, o) && o.submitted
    requires forall k :: 0 <= k < |s.frames| ==> s.frames[k] != i
    ensures SessionOk(Update(s, i, o).(frames := s.frames + [i]))
  {
    hide OperationOk, FlagsOk;
    var t := Update(s, i, o).(frames := s.frames + [i]);
    assert t.frames[|s.frames|] == i;
    forall j | 0 <= j < |t.operations| && t.operations[j].submitted ensures j in t.frames {
      if j != i {
        assert j in s.frames;
      }
    }
  }

  lemma KeepsSubmitted(f: Flags, o: Operation)
    requires OperationOk(f, o) && (o.task == Unstarted || o.task == Doomed)
    ensures !o.submitted
  {
  }

  lemma NotYetSubmitted(s: Session, i: nat)
    requires SessionOk(s) && i < |s.operations| && (s.operations[i].task == Unstarted || s.operations[i].task == Doomed)
    ensures forall k :: 0 <= k < |s.frames| ==> s.frames[k] != i
  {
  }

  lemma SimpleOk(f: Flags, o: Operation, outcome: Outcome)
    requires FlagsOk(f) && OperationOk(f, o)
    ensures OperationOk(f, CallerCancels(o)) && CallerCancels(o).submitted == o.submitted
    ensures outcome != Waiting ==> OperationOk(f, Fail(o, outcome)) && Fail(o, outcome).submitted == o.submitted
  {
  }

  lemma CallbacksOk(f: Flags, o: Operation)
    requires FlagsOk(f) && OperationOk(f, o)
    ensures Done(o.task) ==> OperationOk(f, SendNotice(o)) && SendNotice(o).submitted == o.submitted
    ensures o.outcome != Waiting ==> OperationOk(f, OutcomeNotice(o)) && OutcomeNotice(o).submitted == o.submitted
  {
  }

  lemma RetireOk(f: Flags, o: Operation)
    requires FlagsOk(f) && OperationOk(f, o) && !f.current
    ensures OperationOk(f.(retired := true), Retire(o)) && Retire(o).submitted == o.submitted
    ensures !o.listed ==> OperationOk(f.(retired := true), o)
  {
  }

  lemma FinishBeginsOk(s: Session)
    requires SessionOk(s) && Enabled(s, FinishBegins)
    ensures SessionOk(Next(s, FinishBegins))
  {
    hide OperationOk, Retire;
    forall i | 0 <= i < |s.operations| ensures OperationOk(s.flags.(retired := true), Next(s, FinishBegins).operations[i]) {
      RetireOk(s.flags, s.operations[i]);
    }
    forall i | 0 <= i < |s.operations| ensures Next(s, FinishBegins).operations[i].submitted == s.operations[i].submitted {
      RetireOk(s.flags, s.operations[i]);
    }
  }

  /** `finish` clears the table only when every listed write is over; nothing is awaited there any more. */
  lemma FinishEndsOk(s: Session)
    requires SessionOk(s) && Enabled(s, FinishEnds)
    ensures SessionOk(Next(s, FinishEnds))
  {
  }

  lemma NextOk(s: Session, e: Event)
    requires SessionOk(s) && Enabled(s, e)
    ensures SessionOk(Next(s, e))
  {
    hide OperationOk, FlagsOk, StartSend, FinishSend, Expire, Fail, CallerCancels, SendNotice, OutcomeNotice, Retire, NotifyFailure;
    match e
    case Admit => AdmitOk(s);
    case SendStarts(i, eligible) => SendStartsOk(s, i, eligible);
    case SendEnds(i, result) =>
      FinishSendOk(s.flags, s.operations[i], result);
      OneMoves(s, i, FinishSend(s.flags, s.operations[i], result).1, FinishSend(s.flags, s.operations[i], result).0);
    case Settles(i, outcome) =>
      SimpleOk(s.flags, s.operations[i], outcome);
      OneMoves(s, i, Fail(s.operations[i], outcome), s.flags);
    case Expires(i) =>
      ExpireOk(s.flags, s.operations[i]);
      OneMoves(s, i, Expire(s.flags, s.operations[i]).1, Expire(s.flags, s.operations[i]).0);
    case CallerCancelled(i) =>
      SimpleOk(s.flags, s.operations[i], CallerGone);
      OneMoves(s, i, CallerCancels(s.operations[i]), s.flags);
    case SendCallback(i) =>
      CallbacksOk(s.flags, s.operations[i]);
      OneMoves(s, i, SendNotice(s.operations[i]), s.flags);
    case OutcomeCallback(i) =>
      CallbacksOk(s.flags, s.operations[i]);
      OneMoves(s, i, OutcomeNotice(s.operations[i]), s.flags);
    case Replaced => ReplacedOk(s);
    case FinishBegins => FinishBeginsOk(s);
    case FinishEnds => FinishEndsOk(s);
    case FinishInterrupted =>
  }

  lemma AdmitOk(s: Session)
    requires SessionOk(s) && Enabled(s, Admit)
    ensures SessionOk(Next(s, Admit))
  {
  }

  lemma ReplacedOk(s: Session)
    requires SessionOk(s)
    ensures SessionOk(Next(s, Replaced))
  {
  }

  lemma {:induction false} RunOk(events: seq<Event>)
    requires Run(events).Some?
    ensures SessionOk(Run(events).value)
  {
    hide Next, Enabled;
    if events != [] {
      RunOk(events[..|events| - 1]);
      NextOk(Run(events[..|events| - 1]).value, events[|events| - 1]);
    }
  }

  // What holds over every run

  /** A write that is never submitted. */
  predicate Dead(o: Operation) {
    !o.submitted && (o.task == Doomed || o.task == Ended)
  }

  predicate LaterOperation(o: Operation, p: Operation) {
    && (o.outcome != Waiting ==> p.outcome == o.outcome)
    && (Dead(o) ==> Dead(p))
    && (!o.listed ==> !p.listed)
    && (Done(o.task) ==> p.task == o.task)
    && (o.overdue ==> p.overdue)
  }

  /** Settled outcomes and submitted frames stay; a failed, retired or replaced session submits nothing. */
  predicate Later(s: Session, t: Session) {
    && |s.operations| <= |t.operations| && s.frames <= t.frames
    && (forall i :: 0 <= i < |s.operations| ==> LaterOperation(s.operations[i], t.operations[i]))
    && (s.flags.failed ==> t.flags.failed) && (s.flags.retired ==> t.flags.retired) && (t.flags.current ==> s.flags.current)
    && (s.flags.failed || s.flags.retired || !s.flags.current ==> t.frames == s.frames)
  }

  lemma LaterThrough(s: Session, t: Session, u: Session)
    requires Later(s, t) && Later(t, u)
    ensures Later(s, u)
  {
    forall i | 0 <= i < |s.operations| ensures LaterOperation(s.operations[i], u.operations[i]) {
      assert LaterOperation(t.operations[i], u.operations[i]);
    }
  }

  lemma NextIsLater(s: Session, e: Event)
    requires SessionOk(s) && Enabled(s, e)
    ensures Later(s, Next(s, e))
  {
    hide FlagsOk, OperationOk, LaterOperation, Fail, FinishSend, CallerCancels, SendNotice, OutcomeNotice, Retire, Expire;
    var t := Next(s, e);
    FlagsGrow(s, e);
    forall i | 0 <= i < |s.operations| ensures LaterOperation(s.operations[i], t.operations[i]) {
      var o := s.operations[i];
      FailureIsLater(o, if e.Settles? then e.outcome else Lost);
      ExpiryIsLater(s.flags, o);
      NoticesAreLater(o);
      RetirementIsLater(o);
      if e.SendStarts? {
        StartIsLater(s.flags, o, e.eligible);
      }
      if e.SendEnds? {
        EndIsLater(s.flags, o, e.result);
      }
    }
  }

  lemma FailureIsLater(o: Operation, outcome: Outcome)
    ensures LaterOperation(o, Fail(o, outcome)) && LaterOperation(o, CallerCancels(o))
  {
  }

  lemma ExpiryIsLater(f: Flags, o: Operation)
    ensures LaterOperation(o, Expire(f, o).1)
  {
    hide NotifyFailure;
  }

  lemma NoticesAreLater(o: Operation)
    ensures LaterOperation(o, SendNotice(o)) && LaterOperation(o, OutcomeNotice(o))
  {
  }

  lemma RetirementIsLater(o: Operation)
    ensures LaterOperation(o, o) && LaterOperation(o, o.(listed := false)) && LaterOperation(o, Retire(o))
  {
  }

  lemma StartIsLater(f: Flags, o: Operation, eligible: bool)
    requires OperationOk(f, o)
    ensures o.task == Unstarted || o.task == Doomed ==> LaterOperation(o, StartSend(f, o, eligible))
    ensures StartSend(f, o, eligible).task == Sending && o.task != Sending ==> f.current && !f.retired && !f.failed
  {
  }

  lemma EndIsLater(f: Flags, o: Operation, result: WriteResult)
    requires OperationOk(f, o)
    ensures o.task == Sending ==> LaterOperation(o, FinishSend(f, o, result).1)
  {
  }

  lemma FlagsGrow(s: Session, e: Event)
    requires Enabled(s, e)
    ensures
      var f, g := s.flags, Next(s, e).flags;
      (f.failed ==> g.failed) && (f.retired ==> g.retired) && (g.current ==> f.current)
  {
    hide StartSend, Fail, SendNotice, OutcomeNotice, CallerCancels;
  }

  /** Over any run: outcomes are settled once, tasks end once, and after the session failed, retired
      or was replaced no further frame is submitted. */
  lemma {:induction false} NothingIsUndone(events: seq<Event>, n: nat)
    requires n <= |events| && Run(events).Some? && Run(events[..n]).Some?
    ensures Later(Run(events[..n]).value, Run(events).value)
  {
    hide Next, Enabled, Later, SessionOk;
    if n < |events| {
      var before := events[..|events| - 1];
      assert before[..n] == events[..n];
      NothingIsUndone(before, n);
      RunOk(before);
      NextIsLater(Run(before).value, events[|events| - 1]);
      LaterThrough(Run(events[..n]).value, Run(before).value, Run(events).value);
    } else {
      assert events[..n] == events;
      SameIsLater(Run(events).value);
    }
  }

  lemma SameIsLater(s: Session)
    ensures Later(s, s)
  {
  }

  lemma PrefixRuns(events: seq<Event>, n: nat)
    requires Run(events).Some? && n <= |events|
    ensures Run(events[..n]).Some?
  {
    hide Next, Enabled;
    if n < |events| {
      PrefixRuns(events[..|events| - 1], n);
      assert events[..|events| - 1][..n] == events[..n];
    } else {
      assert events[..n] == events;
    }
  }

  /** Each frame is submitted at most once, and only from a current session that has neither failed
      nor retired; `on_failure` is called at most once. */
  lemma SubmittedOnce(events: seq<Event>, e: Event)
    requires Run(events).Some? && Enabled(Run(events).value, e)
    ensures
      var s := Run(events).value;
      var t := Next(s, e);
      && (forall j, k :: 0 <= j < k < |t.frames| ==> t.frames[j] != t.frames[k])
      && (forall i :: 0 <= i < |t.operations| ==> (t.operations[i].submitted <==> i in t.frames))
      && (t.frames != s.frames ==> s.flags.current && !s.flags.retired && !s.flags.failed)
      && t.flags.failures <= 1
  {
    hide OperationOk;
    RunOk(events);
    NextOk(Run(events).value, e);
    NextIsLater(Run(events).value, e);
  }

  /** A deadline that fires on a current session settles the caller for good; the write is over, is
      never submitted, or the session has failed. */
  lemma DeadlineBindsWrite(events: seq<Event>, n: nat, i: nat)
    requires n < |events| && Run(events).Some? && events[n] == Expires(i)
    requires Run(events[..n]).Some? && Run(events[..n]).value.flags.current
    ensures
      var s := Run(events).value;
      && i < |s.operations| && s.operations[i].outcome != Waiting
      && (Done(s.operations[i].task) || Dead(s.operations[i]) || s.flags.failed)
  {
    hide Next, Enabled;
    PrefixRuns(events, n + 1);
    assert events[..n + 1][..n] == events[..n];
    RunOk(events[..n]);
    ExpiryIsOverdue(Run(events[..n]).value, i);
    NothingIsUndone(events, n + 1);
    RunOk(events);
    assert LaterOperation(Run(events[..n + 1]).value.operations[i], Run(events).value.operations[i]);
  }

  lemma ExpiryIsOverdue(s: Session, i: nat)
    requires SessionOk(s) && Enabled(s, Expires(i)) && s.flags.current
    ensures i < |Next(s, Expires(i)).operations| && Next(s, Expires(i)).operations[i].overdue
  {
  }

  /** Once the callbacks of an operation's outcome and write have run, the table has forgotten it and
      its timer is cancelled; only listed operations have timers. */
  lemma TableDrains(events: seq<Event>, i: nat)
    requires Run(events).Some? && i < |Run(events).value.operations|
    ensures
      var o := Run(events).value.operations[i];
      && (o.sendNoticed && o.outcomeNoticed ==> !o.listed && !o.timer)
      && (o.timer ==> o.listed)
  {
    RunOk(events);
  }

  /** A caller that still waits on a current session has a running deadline, and its write has
      either not ended or delivered the frame. */
  lemma WaitingHasDeadline(events: seq<Event>, i: nat)
    requires Run(events).Some? && i < |Run(events).value.operations|
    requires Run(events).value.operations[i].outcome == Waiting && Run(events).value.flags.current
    ensures
      var o := Run(events).value.operations[i];
      o.timer && (o.task == Unstarted || o.task == Sending || o.task == Written)
  {
    RunOk(events);
  }

  // Why an outcome is what it is

  /** What the event settles the waiting operation i with, if at all: its write was refused by the session or by `eligible`, lost its
      connection, was cancelled, or raised; a reply or another task settled it; its deadline fired on a current session; its caller
      was cancelled. */
  function Reason(s: Session, e: Event, i: nat): Outcome {
    if |s.operations| <= i then Waiting
    else match e
      case SendStarts(j, eligible) =>
        if j == i && s.operations[i].task == Unstarted && (s.flags.retired || s.flags.failed || !s.flags.current || !eligible)
        then Ineligible else Waiting
      case SendEnds(j, result) =>
        if j != i || result.WriteOk? then Waiting else if result.WriteRaised? then WriteFailed else Lost
      case Settles(j, outcome) => if j == i then outcome else Waiting
      case Expires(j) => if j == i && s.flags.current && !s.flags.retired then TimedOut else Waiting
      case CallerCancelled(j) => if j == i then CallerGone else Waiting
      case _ => Waiting
  }

  /** The first reason among the events. */
  function FirstReason(events: seq<Event>, i: nat): Outcome
    requires Run(events).Some?
  {
    if events == [] then Waiting
    else
      var before := events[..|events| - 1];
      if FirstReason(before, i) != Waiting then FirstReason(before, i) else Reason(Run(before).value, events[|events| - 1], i)
  }

  lemma WriteReason(f: Flags, o: Operation, eligible: bool, result: WriteResult)
    ensures StartSend(f, o, eligible).outcome ==
      if o.outcome == Waiting && o.task != Doomed && (f.retired || f.failed || !f.current || !eligible) then Ineligible else o.outcome
    ensures FinishSend(f, o, result).1.outcome ==
      if o.outcome != Waiting || result.WriteOk? then o.outcome else if result.WriteRaised? then WriteFailed else Lost
  {
  }

  lemma OtherReason(f: Flags, o: Operation, outcome: Outcome)
    ensures Fail(o, outcome).outcome == if o.outcome == Waiting then outcome else o.outcome
    ensures CallerCancels(o).outcome == if o.outcome == Waiting then CallerGone else o.outcome
    ensures SendNotice(o).outcome == OutcomeNotice(o).outcome == Retire(o).outcome == o.outcome
  {
  }

  lemma ExpiryReason(f: Flags, o: Operation)
    ensures Expire(f, o).1.outcome == if o.outcome == Waiting && !f.retired && f.current then TimedOut else o.outcome
  {
    hide NotifyFailure;
  }

  lemma StepReason(s: Session, e: Event, i: nat)
    requires Enabled(s, e) && i < |Next(s, e).operations|
    ensures Next(s, e).operations[i].outcome ==
      if i < |s.operations| && s.operations[i].outcome != Waiting then s.operations[i].outcome else Reason(s, e, i)
  {
    hide StartSend, FinishSend, Fail, Expire, CallerCancels, SendNotice, OutcomeNotice, Retire;
    if i < |s.operations| {
      var o := s.operations[i];
      WriteReason(s.flags, o, e.SendStarts? && e.eligible, if e.SendEnds? then e.result else WriteOk);
      ExpiryReason(s.flags, o);
      OtherReason(s.flags, o, if e.Settles? then e.outcome else Lost);
    }
  }

  lemma {:induction false} NoReasonBefore(events: seq<Event>, i: nat)
    requires Run(events).Some? && |Run(events).value.operations| <= i
    ensures FirstReason(events, i) == Waiting
  {
    hide Next, Enabled, SessionOk, Later;
    if events != [] {
      var before := events[..|events| - 1];
      RunOk(before);
      NextIsLater(Run(before).value, events[|events| - 1]);
      GrowsLater(Run(before).value, Run(events).value);
      NoReasonBefore(before, i);
    }
  }

  lemma GrowsLater(s: Session, t: Session)
    requires Later(s, t)
    ensures |s.operations| <= |t.operations|
  {
  }

  /** Over every run: an operation's outcome is the first reason there was to settle it, and it waits as long as there was none. */
  lemma {:induction false} OutcomeIsFirstReason(events: seq<Event>, i: nat)
    requires Run(events).Some? && i < |Run(events).value.operations|
    ensures Run(events).value.operations[i].outcome == FirstReason(events, i)
  {
    hide Next, Enabled, SessionOk, Reason;
    if events == [] {
    } else {
      var before := events[..|events| - 1];
      var s := Run(before).value;
      StepReason(s, events[|events| - 1], i);
      if i < |s.operations| {
        OutcomeIsFirstReason(before, i);
      } else {
        NoReasonBefore(before, i);
      }
    }
  }

  /** The session fails exactly when a write loses its connection or is cancelled, or a deadline fires during a write, while the session
      is current and neither retired nor failed; an expired or cancelled operation whose write has not started is never written. */
  lemma SessionFailsExactly(events: seq<Event>, e: Event)
    requires Run(events).Some? && Enabled(Run(events).value, e)
    ensures
      var s := Run(events).value;
      var t := Next(s, e);
      (t.flags.failed != s.flags.failed <==>
         && s.flags.current && !s.flags.retired && !s.flags.failed
         && (|| (e.SendEnds? && (e.result.ConnectionLost? || e.result.WriteCancelled?))
             || (e.Expires? && s.operations[e.operation].task == Sending)))
    ensures
      var s := Run(events).value;
      (e.Expires? && s.flags.current) || e.CallerCancelled? ==>
        var i := e.operation;
        s.operations[i].task == Unstarted ==> Next(s, e).operations[i].task == Doomed
  {
    RunOk(events);
  }

  /** A frame is submitted exactly if its write starts while the caller waits, its deadline has not doomed it, the session is current and
      neither retired nor failed, and the operation is eligible. */
  lemma SubmittedExactly(events: seq<Event>, e: Event)
    requires Run(events).Some? && Enabled(Run(events).value, e)
    ensures
      var s := Run(events).value;
      var f := s.flags;
      Next(s, e).frames ==
        if && e.SendStarts? && e.eligible && f.current && !f.retired && !f.failed
           && s.operations[e.operation].task == Unstarted && s.operations[e.operation].outcome == Waiting
        then s.frames + [e.operation] else s.frames
  {
    RunOk(events);
  }

  /** `finish` stops every listed deadline and every write that has not started; once it ends, nothing is listed. */
  lemma FinishStops(events: seq<Event>, e: Event, i: nat)
    requires Run(events).Some? && Enabled(Run(events).value, e) && i < |Run(events).value.operations|
    ensures
      var s := Run(events).value;
      var o, p := s.operations[i], Next(s, e).operations[i];
      && (e.FinishBegins? ==> Next(s, e).flags.retired && (o.listed ==> !p.timer && p.task == if o.task == Unstarted then Doomed else o.task))
      && (e.FinishEnds? ==> !p.listed)
  {
    hide StartSend, FinishSend, Fail, Expire, CallerCancels, SendNotice, OutcomeNotice;
    RunOk(events);
  }

  /** An operation leaves the table exactly when the later of its two callbacks finds the other end done, when its deadline fires on a
      current session after its write ended, or when `finish` ends; a session stops being current by a replacement only. */
  lemma TableForgetsExactly(events: seq<Event>, e: Event, i: nat)
    requires Run(events).Some? && Enabled(Run(events).value, e) && i < |Run(events).value.operations|
    ensures
      var s := Run(events).value;
      var t := Next(s, e);
      var o := s.operations[i];
      && (t.flags.current <==> s.flags.current && !e.Replaced?)
      && (t.operations[i].listed <==>
            && o.listed && !e.FinishEnds?
            && !(e == SendCallback(i) && o.outcome != Waiting)
            && !(e == OutcomeCallback(i) && Done(o.task))
            && !(e == Expires(i) && s.flags.current && Done(o.task)))
  {
    hide StartSend, FinishSend, Expire, NotifyFailure, Fail, CallerCancels, SendNotice, OutcomeNotice, Retire, OperationOk;
    RunOk(events);
    var s := Run(events).value;
    ListedThrough(s.flags, s.operations[i], e.SendStarts? && e.eligible);
    NoticeListed(s.operations[i], if e.Settles? then e.outcome else Lost);
    if e.SendEnds? {
      EndingListed(s.flags, s.operations[e.operation], e.result);
    }
    if e.Expires? {
      ExpiryListed(s.flags, s.operations[e.operation]);
    }
  }

  lemma ListedThrough(f: Flags, o: Operation, eligible: bool)
    ensures StartSend(f, o, eligible).listed == o.listed
  {
  }

  lemma NoticeListed(o: Operation, outcome: Outcome)
    ensures Fail(o, outcome).listed == CallerCancels(o).listed == Retire(o).listed == o.listed
    ensures SendNotice(o).listed == (o.listed && o.outcome == Waiting) && OutcomeNotice(o).listed == (o.listed && !Done(o.task))
  {
  }

  lemma EndingListed(f: Flags, o: Operation, result: WriteResult)
    ensures FinishSend(f, o, result).1.listed == o.listed && FinishSend(f, o, result).0.current == f.current
  {
  }

  lemma ExpiryListed(f: Flags, o: Operation)
    ensures Expire(f, o).0.current == f.current
    ensures Expire(f, o).1.listed == (o.listed && !(!f.retired && f.current && Done(o.task)))
  {
  }
}
