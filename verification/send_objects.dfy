/**
 * The mutable objects of `send_session.py`. Every public method is one event of `SendSession`,
 * appended to the session's history: what holds after every run holds of the objects.
 */
module SendObjects {
  import opened SendSession

  /** `SendOperation`, keyed in the session's table by its outcome. */
  class SendOperation {
    var outcome: Outcome
    var task: Task
    var submitted: bool
    var timer: bool
    var sendNoticed: bool
    var outcomeNoticed: bool
    ghost var overdue: bool

    constructor ()
      ensures View(true) == Admitted()
    {
      outcome, task, submitted, timer := Waiting, Unstarted, false, true;
      sendNoticed, outcomeNoticed, overdue := false, false, false;
    }

    ghost function View(listed: bool): Operation
      reads this
    {
      Operation(outcome, task, submitted, timer, listed, sendNoticed, outcomeNoticed, overdue)
    }

    method Fail(reason: Outcome)
      modifies this
      ensures forall listed :: View(listed) == SendSession.Fail(old(View(listed)), reason)
    {
      if outcome == Waiting {
        outcome := reason;
      }
    }

    method Cancel()
      modifies this
      ensures forall listed :: View(listed) == SendSession.Cancel(old(View(listed)))
    {
      if task == Unstarted {
        task := Doomed;
      }
    }

    /** What `finish` does to a listed operation. */
    method Retire()
      modifies this
      ensures forall listed :: View(listed) == SendSession.Retire(old(View(listed)))
    {
      timer := false;
      if !submitted {
        Cancel();
      }
    }

    /** The deadline on a current session, before what it means for the write is decided. */
    method MissDeadline()
      modifies this
      ensures forall listed ::
        View(listed) == SendSession.Fail(old(View(listed)).(timer := false), TimedOut).(overdue := true)
    {
      timer, overdue := false, true;
      if outcome == Waiting {
        outcome := TimedOut;
      }
    }
  }

  /** `SessionSends`; `current` is what `is_current()` answers. An outcome is known by its position
      among all those ever admitted; the table lists some of them. */
  class SessionSends {
    var operations: map<nat, SendOperation>
    var current: bool
    var retired: bool
    var failed: bool
    var failures: nat
    ghost var admitted: seq<SendOperation>
    ghost var events: seq<Event>

    /** The objects show this session. */
    ghost predicate Shows(s: Session)
      reads this, admitted
    {
      && (forall i, j :: 0 <= i < j < |admitted| ==> admitted[i] != admitted[j])
      && (forall key :: key in operations ==> key < |admitted| && operations[key] == admitted[key])
      && s.flags == Flags(current, retired, failed, failures) && |s.operations| == |admitted|
      && (forall i :: 0 <= i < |admitted| ==> admitted[i].View(i in operations) == s.operations[i])
    }

    /** The objects are where their events lead. */
    ghost predicate Valid()
      reads this, admitted
    {
      Run(events).Some? && Shows(Run(events).value)
    }

    ghost function Now(): Session
      reads this, admitted
      requires Valid()
    {
      Run(events).value
    }

    constructor ()
      ensures Valid() && events == [] && admitted == []
    {
      operations, current, retired, failed, failures := map[], true, false, false, 0;
      admitted, events := [], [];
    }

    /** The promises of `SendSession` about every run, as they show in the objects' fields. */
    lemma Promises()
      requires Valid()
      ensures SessionOk(Now()) && failures <= 1 && (retired ==> !current)
      ensures forall i :: 0 <= i < |admitted| ==>
        var op := admitted[i];
        && (op.timer ==> i in operations && !retired)
        && (op.sendNoticed && op.outcomeNoticed ==> i !in operations)
        && (op.outcome == Waiting && current ==> op.timer && op.task != Ended && op.task != Doomed)
        && (op.submitted <==> i in Now().frames)
    {
      hide Run;
      RunOk(events);
      forall i | 0 <= i < |admitted|
        ensures OperationOk(Now().flags, admitted[i].View(i in operations)) && (admitted[i].submitted <==> i in Now().frames)
      {
        FrameOf(Now(), i);
      }
    }

    lemma Extended(e: Event)
      requires Valid() && Enabled(Now(), e)
      ensures Run(events + [e]).Some? && Run(events + [e]).value == Next(Now(), e)
    {
      hide Next, Enabled, Shows;
      assert (events + [e])[..|events|] == events;
    }

    ghost method Note(e: Event)
      requires Run(events + [e]).Some? && Shows(Run(events + [e]).value)
      modifies this`events
      ensures Valid() && events == old(events) + [e]
    {
      hide Run;
      events := events + [e];
    }

    /** `op` is the operation of outcome `key`. */
    ghost predicate Holds(key: nat, op: SendOperation)
      reads this
    {
      key < |admitted| && admitted[key] == op
    }

    // Pieces

    /** `_notify_failure` */
    method NotifyFailure()
      modifies this`failed, this`failures
      ensures Flags(current, retired, failed, failures)
              == SendSession.NotifyFailure(old(Flags(current, retired, failed, failures)))
    {
      if retired || failed || !current {
        return;
      }
      failed := true;
      failures := failures + 1;
    }

    /** `_discard` */
    method Discard(key: nat, op: SendOperation)
      requires key in operations ==> operations[key] == op
      modifies this`operations, op`timer
      ensures operations == old(operations) - {key}
      ensures op.View(false) == SendSession.Discard(old(op.View(false)))
    {
      op.timer := false;
      if key in operations && operations[key] == op {
        operations := operations - {key};
      }
    }

    method Submit(op: SendOperation, eligible: bool)
      requires op.task == Unstarted || op.task == Doomed
      modifies op
      ensures forall listed ::
        op.View(listed) == SendSession.StartSend(Flags(current, retired, failed, failures), old(op.View(listed)), eligible)
    {
      if op.task == Doomed || op.outcome != Waiting {
        op.task := Ended;
        return;
      }
      if retired || failed || !current || !eligible {
        op.Fail(Ineligible);
        op.task := Ended;
        return;
      }
      op.submitted := true;
      op.task := Sending;
    }

    method EndWrite(op: SendOperation, result: WriteResult)
      modifies this`failed, this`failures, op
      ensures forall listed ::
        (Flags(current, retired, failed, failures), op.View(listed))
        == SendSession.FinishSend(old(Flags(current, retired, failed, failures)), old(op.View(listed)), result)
    {
      match result
      case WriteOk =>
        op.task := Written;
      case ConnectionLost =>
        op.Fail(Lost);
        NotifyFailure();
        op.task := Ended;
      case WriteCancelled =>
        op.Fail(Lost);
        if op.submitted {
          NotifyFailure();
        }
        op.task := Ended;
      case WriteRaised =>
        op.Fail(WriteFailed);
        op.task := Ended;
    }

    method PassDeadline(key: nat, op: SendOperation)
      requires key in operations ==> operations[key] == op
      modifies this`operations, this`failed, this`failures, op
      ensures (Flags(current, retired, failed, failures), op.View(key in operations))
              == SendSession.Expire(old(Flags(current, retired, failed, failures)), old(op.View(key in operations)))
      ensures operations == old(operations) || operations == old(operations) - {key}
    {
      hide SendSession.NotifyFailure;
      if retired || !current {
        op.timer := false;
        return;
      }
      op.MissDeadline();
      if op.task == Written || op.task == Ended {
        Discard(key, op);
        return;
      }
      if !op.submitted {
        op.Cancel();
        return;
      }
      NotifyFailure();
    }

    method NoticeSend(key: nat, op: SendOperation)
      requires key in operations ==> operations[key] == op
      modifies this`operations, op
      ensures op.View(key in operations) == SendNotice(old(op.View(key in operations)))
      ensures operations == old(operations) || operations == old(operations) - {key}
    {
      op.sendNoticed := true;
      if op.outcome != Waiting {
        Discard(key, op);
      }
    }

    method NoticeOutcome(key: nat, op: SendOperation)
      requires key in operations ==> operations[key] == op
      modifies this`operations, op
      ensures op.View(key in operations) == OutcomeNotice(old(op.View(key in operations)))
      ensures operations == old(operations) || operations == old(operations) - {key}
    {
      op.outcomeNoticed := true;
      if op.task == Written || op.task == Ended {
        Discard(key, op);
      }
    }

    // Events

    /** The admission in `send_and_wait`. False stands for its ValueError for a known outcome, or for
        an outcome that is `settled` already. */
    method Admit(key: nat, settled: bool) returns (admits: bool)
      requires Valid() && current && key <= |admitted|
      requires key < |admitted| ==> settled == (admitted[key].outcome != Waiting)
      modifies this
      ensures Valid() && admits == (key == old(|admitted|) && !settled)
      ensures if admits then events == old(events) + [Event.Admit] && |admitted| == old(|admitted|) + 1 && key in operations
              else events == old(events) && operations == old(operations)
    {
      hide Run, SessionOk;
      Promises();
      if key in operations || settled {
        return false;
      }
      Extended(Event.Admit);
      var op := new SendOperation();
      operations := operations[key := op];
      admitted := admitted + [op];
      Note(Event.Admit);
      return true;
    }

    /** `_send` up to the await of the write. */
    method StartSend(key: nat, op: SendOperation, eligible: bool)
      requires Valid() && Holds(key, op) && Enabled(Now(), SendStarts(key, eligible))
      modifies this, op
      ensures Valid() && events == old(events) + [SendStarts(key, eligible)]
    {
      hide Run, SendSession.StartSend;
      Extended(SendStarts(key, eligible));
      Submit(op, eligible);
      Note(SendStarts(key, eligible));
    }

    /** The rest of `_send`. */
    method FinishSend(key: nat, op: SendOperation, result: WriteResult)
      requires Valid() && Holds(key, op) && Enabled(Now(), SendEnds(key, result))
      modifies this, op
      ensures Valid() && events == old(events) + [SendEnds(key, result)]
    {
      hide Run, SendSession.FinishSend;
      Extended(SendEnds(key, result));
      EndWrite(op, result);
      Note(SendEnds(key, result));
    }

    /** The reply, or whoever else holds the outcome, settles it. */
    method SettleOutcome(key: nat, op: SendOperation, outcome: Outcome)
      requires Valid() && Holds(key, op) && Enabled(Now(), Settles(key, outcome))
      modifies this, op
      ensures Valid() && events == old(events) + [Settles(key, outcome)]
    {
      hide Run, SendSession.Fail;
      Extended(Settles(key, outcome));
      op.Fail(outcome);
      Note(Settles(key, outcome));
    }

    /** `_expire` */
    method Expire(key: nat, op: SendOperation)
      requires Valid() && Holds(key, op) && Enabled(Now(), Expires(key))
      modifies this, op
      ensures Valid() && events == old(events) + [Expires(key)]
    {
      hide Run, SendSession.Expire;
      Extended(Expires(key));
      PassDeadline(key, op);
      Note(Expires(key));
    }

    /** `send_and_wait` when its caller is cancelled. */
    method CancelCaller(key: nat, op: SendOperation)
      requires Valid() && Holds(key, op) && Enabled(Now(), CallerCancelled(key))
      modifies this, op
      ensures Valid() && events == old(events) + [CallerCancelled(key)]
    {
      hide Run, SendSession.Cancel;
      Extended(CallerCancelled(key));
      var submitted := op.submitted;
      op.Fail(CallerGone);
      if !submitted {
        op.Cancel();
      }
      Note(CallerCancelled(key));
    }

    /** `_send_done` */
    method SendDone(key: nat, op: SendOperation)
      requires Valid() && Holds(key, op) && Enabled(Now(), SendCallback(key))
      modifies this, op
      ensures Valid() && events == old(events) + [SendCallback(key)]
    {
      hide Run, SendNotice;
      Extended(SendCallback(key));
      NoticeSend(key, op);
      Note(SendCallback(key));
    }

    /** `_outcome_done` */
    method OutcomeDone(key: nat, op: SendOperation)
      requires Valid() && Holds(key, op) && Enabled(Now(), OutcomeCallback(key))
      modifies this, op
      ensures Valid() && events == old(events) + [OutcomeCallback(key)]
    {
      hide Run, OutcomeNotice;
      Extended(OutcomeCallback(key));
      NoticeOutcome(key, op);
      Note(OutcomeCallback(key));
    }

    /** The connection is replaced, or gone. */
    method Replace()
      requires Valid()
      modifies this
      ensures Valid() && events == old(events) + [Replaced] && !current
    {
      hide Run;
      Extended(Replaced);
      current := false;
      Note(Replaced);
    }

    /** The loop of `finish`: every listed operation is retired, no other object changes. */
    method RetireListed()
      requires forall a, b :: a in operations && b in operations && a != b ==> operations[a] != operations[b]
      modifies operations.Values
      ensures forall key :: key in operations ==>
        operations[key].View(true) == SendSession.Retire(old(operations[key].View(true)))
    {
      var keys := operations.Keys;
      while keys != {}
        invariant keys <= operations.Keys
        invariant forall key :: key in operations ==>
          operations[key].View(true)
          == if key in keys then old(operations[key].View(true)) else SendSession.Retire(old(operations[key].View(true)))
        decreases keys
      {
        var key :| key in keys;
        var op := operations[key];
        op.Retire();
        keys := keys - {key};
      }
    }

    /** `finish` until it waits for the writes. */
    method BeginFinish()
      requires Valid() && Enabled(Now(), FinishBegins)
      modifies this, operations.Values
      ensures Valid() && events == old(events) + [FinishBegins] && retired
    {
      hide Run, SendSession.Retire;
      Extended(FinishBegins);
      retired := true;
      RetireListed();
      Note(FinishBegins);
    }

    /** `finish` once every listed write is over. */
    method EndFinish()
      requires Valid() && Enabled(Now(), FinishEnds)
      modifies this
      ensures Valid() && events == old(events) + [FinishEnds] && operations == map[]
    {
      hide Run;
      Extended(FinishEnds);
      operations := map[];
      Note(FinishEnds);
    }
  }

  lemma FrameOf(s: Session, i: nat)
    requires SessionOk(s) && i < |s.operations|
    ensures OperationOk(s.flags, s.operations[i]) && (s.operations[i].submitted <==> i in s.frames)
  {
    hide OperationOk;
  }
}
