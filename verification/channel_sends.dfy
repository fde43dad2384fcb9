/**
 * The operations of the channel protocol and those of `SendSession` are the same operations: every
 * event of a write, a deadline or a caller changes both alike, and fails the session in both alike.
 */
module ChannelSends {
  import opened Wrappers
  import opened Channels
  import Sends = SendSession

  /** A doomed write still has its first step to come, in which it does nothing. */
  function StageOf(task: Sends.Task): SendStage {
    match task
    case Unstarted => Scheduled
    case Doomed => Scheduled
    case Sending => Writing
    case Written => Finished
    case Ended => Finished
  }

  /** The two records show the same write and agree on whether the outcome is settled. */
  predicate Shows(o: Sends.Operation, p: Operation) {
    StageOf(o.task) == p.send && (o.outcome == Sends.Waiting <==> p.outcome.Pending?)
  }

  /** The session of the operation's connection, as the protocol's client sees it. */
  predicate SessionOf(x: Context, connection: ConnectionId, f: Sends.Flags) {
    && (f.current && !f.retired <==> x.connection == Some(connection))
    && (x.connection == Some(connection) ==> (f.failed <==> x.sendFailed))
  }

  // What the protocol does to the one operation

  function Ended(p: Operation, failure: Failure): Operation {
    p.(send := Finished, outcome := if p.outcome.Pending? then Failed(failure) else p.outcome)
  }

  lemma SettleAt(c: Channel, r: Ref, failure: Failure)
    requires r in c.operations
    ensures r in Settle(c, r, Failed(failure)).operations
    ensures
      var p := c.operations[r];
      Settle(c, r, Failed(failure)).operations[r] == if p.outcome.Pending? then p.(outcome := Failed(failure)) else p
  {
  }

  lemma FinishAt(c: Channel, r: Ref, failure: Failure)
    requires r in c.operations
    ensures r in FinishSend(c, r).operations && FinishSend(c, r).operations[r] == c.operations[r].(send := Finished)
    ensures r in Settle(FinishSend(c, r), r, Failed(failure)).operations
    ensures Settle(FinishSend(c, r), r, Failed(failure)).operations[r] == Ended(c.operations[r], failure)
  {
    hide Settle;
    SettleAt(FinishSend(c, r), r, failure);
  }

  lemma StartAt(x: Context, c: Channel, r: Ref)
    requires r in c.operations
    ensures r in StartSend(x, c, r).operations
    ensures StartSend(x, c, r).operations[r]
            == if Submits(x, c, r) then c.operations[r].(send := Writing) else Ended(c.operations[r], ChannelFailure(NotCurrent))
  {
    hide Settle, FinishSend, Submits, Ended;
    if Submits(x, c, r) {
      assert StartSend(x, c, r).operations == c.operations[r := c.operations[r].(send := Writing)];
    } else {
      assert StartSend(x, c, r) == Settle(FinishSend(c, r), r, Failed(ChannelFailure(NotCurrent)));
      hide StartSend;
      FinishAt(c, r, ChannelFailure(NotCurrent));
    }
  }

  /** The first step of the write task submits in both or in neither. */
  lemma StartsAlike(x: Context, c: Channel, r: Ref, f: Sends.Flags, o: Sends.Operation)
    requires r in c.operations && Shows(o, c.operations[r]) && SessionOf(x, c.operations[r].connection, f)
    requires Sends.OperationOk(f, o) && !f.retired && (o.task == Sends.Unstarted || o.task == Sends.Doomed)
    ensures
      var d, q := StartSend(x, c, r), Sends.StartSend(f, o, Eligible(x, c, c.operations[r]));
      r in d.operations && Shows(q, d.operations[r]) && (Submits(x, c, r) <==> q.submitted)
  {
    hide ChannelJoined, StartSend;
    StartAt(x, c, r);
  }

  /** A write ends alike, and a lost connection fails the session in both. */
  lemma EndsAlike(x: Context, c: Channel, r: Ref, f: Sends.Flags, o: Sends.Operation, lost: bool)
    requires r in c.operations && Shows(o, c.operations[r]) && SessionOf(x, c.operations[r].connection, f)
    requires o.task == Sends.Sending
    ensures
      var d := FinishWrite(c, r, lost);
      var (g, q) := Sends.FinishSend(f, o, if lost then Sends.ConnectionLost else Sends.WriteOk);
      && r in d.operations && Shows(q, d.operations[r])
      && (g.failed <==> f.failed || (lost && x.connection == Some(c.operations[r].connection)))
  {
    hide Settle, FinishSend;
    FinishAt(c, r, SocketFailure);
  }

  /** A deadline settles alike, and fails the session in both exactly if the write was going on. */
  lemma ExpiresAlike(x: Context, c: Channel, r: Ref, f: Sends.Flags, o: Sends.Operation)
    requires r in c.operations && Shows(o, c.operations[r]) && SessionOf(x, c.operations[r].connection, f)
    requires Sends.OperationOk(f, o) && x.connection == Some(c.operations[r].connection)
    ensures
      var d := Settle(c, r, Failed(TimeoutError(c.operations[r].kind)));
      var (g, q) := Sends.Expire(f, o);
      && r in d.operations && Shows(q, d.operations[r])
      && (g.failed <==> f.failed || c.operations[r].send == Writing)
  {
    hide Settle;
    SettleAt(c, r, TimeoutError(c.operations[r].kind));
  }

  /** A cancelled caller settles alike; a write it dooms stays unsubmitted in both. */
  lemma CancelsAlike(c: Channel, r: Ref, o: Sends.Operation)
    requires r in c.operations && Shows(o, c.operations[r])
    ensures
      var d := Settle(c, r, Failed(CallerCancelled));
      r in d.operations && Shows(Sends.CallerCancels(o), d.operations[r])
  {
    hide Settle;
    SettleAt(c, r, CallerCancelled);
  }
}
