/** What connects the channels with the refs they use, the frames on the wire and the server's answers. */
module ChannelLedger {
  import opened Wrappers
  import opened Channels
  import opened ChannelProtocol
  import opened ChannelInvariant
  import opened ChannelPass
  import opened ChannelSweeps
  import opened ChannelHistory
  import opened ChannelSystem

  predicate RefOf(owners: seq<nat>, i: nat, r: Ref) {
    1 <= r <= |owners| && owners[r - 1] == i
  }

  /** A channel uses only refs generated for it. */
  predicate OwnsRefs(owners: seq<nat>, i: nat, c: Channel) {
    && (forall r :: r in c.operations ==> RefOf(owners, i, r))
    && (c.joinRef > 0 ==> RefOf(owners, i, c.joinRef))
  }

  /** `join_submitted` is whether the current join reached the channel's own socket. */
  predicate SentOk(wire: set<(ConnectionId, Ref)>, c: Channel) {
    && (c.joinSubmitted ==> c.connection.Some? && (c.connection.value, c.joinRef) in wire)
    && (forall w :: w in wire && w.1 == c.joinRef ==> c.joinSubmitted)
  }

  predicate Acks(a: Answer, r: Ref) {
    a.ref == r && a.body.isMap && a.body.status == StatusOk
  }

  /** JOINED on a connection, or installed, only what the server acknowledged. */
  predicate AckedOk(answers: set<Answer>, c: Channel) {
    && (c.state == Joined ==> exists a :: a in answers && Acks(a, c.joinRef) && c.connection == Some(a.connection))
    && (forall r :: r in c.installed ==> exists a :: a in answers && Acks(a, r))
  }

  /** An operation succeeded only because the server answered its ref, on its connection, favourably. */
  predicate AnsweredOk(answers: set<Answer>, c: Channel) {
    forall r :: r in c.operations && c.operations[r].outcome.Succeeded? ==>
      exists a :: a in answers && a.ref == r && a.connection == c.operations[r].connection
                  && Good(c.operations[r].kind, a.body)
  }

  /** A frame on the wire is its owner's, went to the operation's connection, and is not sent again. */
  predicate OnWire(s: System, w: (ConnectionId, Ref)) {
    && 1 <= w.1 <= |s.owners| && s.owners[w.1 - 1] < |s.channels|
    && w.1 in s.channels[s.owners[w.1 - 1]].operations
    && s.channels[s.owners[w.1 - 1]].operations[w.1].connection == w.0
    && s.channels[s.owners[w.1 - 1]].operations[w.1].send != Scheduled
  }

  predicate NamesOk(channels: seq<Channel>) {
    forall i, j :: 0 <= i < j < |channels| && channels[i].registered && channels[j].registered ==>
      channels[i].name != channels[j].name
  }

  /** The routing task of the current generation reads the current connection. */
  predicate SessionOk(x: Context, sessions: map<nat, ConnectionId>) {
    x.routing ==> x.generation in sessions && x.connection == Some(sessions[x.generation])
  }

  predicate RecordOk(s: System, i: nat, c: Channel) {
    OwnsRefs(s.owners, i, c) && SentOk(s.wire, c) && AckedOk(s.answers, c) && AnsweredOk(s.answers, c)
  }

  predicate WireOk(s: System) {
    && (forall w :: w in s.wire ==> OnWire(s, w))
    && (forall a :: a in s.answers ==> (a.connection, a.ref) in s.wire)
  }

  predicate LedgerOk(s: System) {
    && |s.owners| == s.client.refs
    && (forall i :: 0 <= i < |s.channels| ==> RecordOk(s, i, s.channels[i]))
    && WireOk(s)
    && NamesOk(s.channels)
    && SessionOk(s.client, s.sessions)
  }

  lemma InitLedger(v2: bool, queueLimit: nat)
    ensures LedgerOk(Init(v2, queueLimit))
  {
  }

  /** No channel takes back what is final. */
  predicate AllGrow(s: System, t: System) {
    && |s.channels| <= |t.channels|
    && (forall i :: 0 <= i < |s.channels| ==> Grows(s.channels[i], t.channels[i]))
  }

  lemma GrowsThrough(c: Channel, d: Channel, e: Channel)
    requires Grows(c, d) && Grows(d, e)
    ensures Grows(c, e)
  {
  }

  lemma AllGrowThrough(s: System, t: System, u: System)
    requires AllGrow(s, t) && AllGrow(t, u)
    ensures AllGrow(s, u)
  {
    hide Grows;
    forall i | 0 <= i < |s.channels| ensures Grows(s.channels[i], u.channels[i]) {
      GrowsThrough(s.channels[i], t.channels[i], u.channels[i]);
    }
  }

  lemma SameGrow(s: System, t: System)
    requires s.channels == t.channels
    ensures AllGrow(s, t)
  {
  }

  // One channel's record

  lemma OwnsKept(x: Context, owners: seq<nat>, owners': seq<nat>, i: nat, c: Channel, d: Channel)
    requires OwnsRefs(owners, i, c) && Moves(x, c, d) && |owners| == x.refs
    requires owners' == owners || owners' == owners + [i]
    requires owners' == owners ==> x.refs + 1 !in d.operations && d.joinRef <= x.refs
    ensures OwnsRefs(owners', i, d)
  {
    forall r | r in d.operations ensures RefOf(owners', i, r) {
      if r != x.refs + 1 {
        assert r in c.operations;
        assert RefOf(owners, i, r);
      }
    }
    if c.joinRef > 0 {
      assert RefOf(owners, i, c.joinRef);
    }
  }

  lemma SentKept(x: Context, wire: set<(ConnectionId, Ref)>, c: Channel, d: Channel)
    requires SentOk(wire, c) && Wired(x, c, d)
    requires forall w :: w in wire ==> w.1 <= x.refs
    ensures SentOk(wire, d)
  {
  }

  lemma AckedKept(x: Context, answers: set<Answer>, c: Channel, d: Channel)
    requires AckedOk(answers, c) && Wired(x, c, d) && c.joinRef <= x.refs
    ensures AckedOk(answers, d)
  {
  }

  lemma AnsweredKept(answers: set<Answer>, c: Channel, d: Channel, next: Ref)
    requires AnsweredOk(answers, c) && FramesKept(c.operations, d.operations, next) && NoSuccess(c.operations, d.operations)
    ensures AnsweredOk(answers, d)
  {
  }

  /** The refs of a sound channel have been generated. */
  lemma RefsBounded(x: Context, cleaning: Cleaning, role: Role, c: Channel)
    requires ChannelOk(x, cleaning, role, c)
    ensures c.joinRef <= x.refs && forall r :: r in c.operations ==> r <= x.refs
  {
  }

  lemma RecordKept(s: System, t: System, i: nat, d: Channel)
    requires LedgerOk(s) && i < |s.channels| && Moves(s.client, s.channels[i], d) && s.channels[i].joinRef <= s.client.refs
    requires AnsweredOk(s.answers, d)
    requires t.owners == s.owners || t.owners == s.owners + [i]
    requires d.joinRef <= |t.owners| && (forall r :: r in d.operations ==> r <= |t.owners|)
    requires t.wire == s.wire && t.answers == s.answers
    ensures RecordOk(t, i, d)
  {
    hide FramesKept, Grows, AckedOk, SentOk, NamesOk, SessionOk, Wired, AnsweredOk;
    var x, c := s.client, s.channels[i];
    assert RecordOk(s, i, c);
    OwnsKept(x, s.owners, t.owners, i, c, d);
    SentKept(x, s.wire, c, d);
    AckedKept(x, s.answers, c, d);
  }

  /** Another channel's record, when a ref may have been generated. */
  lemma RecordStays(s: System, t: System, j: nat)
    requires LedgerOk(s) && j < |s.channels| && s.owners <= t.owners && t.wire == s.wire && t.answers == s.answers
    ensures RecordOk(t, j, s.channels[j])
  {
    hide SentOk, AckedOk, NamesOk, SessionOk, WireOk, AnsweredOk;
    var c := s.channels[j];
    assert RecordOk(s, j, c);
    forall r | r in c.operations ensures RefOf(t.owners, j, r) {
      assert RefOf(s.owners, j, r);
    }
  }

  // One channel moves

  lemma NamesStay(s: System, i: nat, d: Channel)
    requires NamesOk(s.channels) && i < |s.channels| && d.name == s.channels[i].name
    requires d.registered && !s.channels[i].registered ==> !NameTaken(s, d.name)
    ensures NamesOk(s.channels[i := d])
  {
  }

  lemma WireStays(s: System, t: System, i: nat)
    requires WireOk(s) && i < |s.channels| == |t.channels|
    requires forall j :: 0 <= j < |s.channels| && j != i ==> t.channels[j] == s.channels[j]
    requires FramesKept(s.channels[i].operations, t.channels[i].operations, s.client.refs + 1)
    requires s.owners <= t.owners && t.wire == s.wire && t.answers == s.answers
    ensures WireOk(t)
  {
    forall w | w in t.wire ensures OnWire(t, w) {
      assert OnWire(s, w);
      assert t.owners[w.1 - 1] == s.owners[w.1 - 1];
    }
  }

  lemma OneMovesTo(s: System, t: System, i: nat)
    requires SystemOk(s) && LedgerOk(s) && SystemOk(t) && i < |s.channels| == |t.channels|
    requires Moves(s.client, s.channels[i], t.channels[i]) && AnsweredOk(s.answers, t.channels[i])
    requires t.channels == s.channels[i := t.channels[i]]
    requires t.wire == s.wire && t.answers == s.answers && SessionOk(t.client, t.sessions)
    requires t.owners == s.owners || t.owners == s.owners + [i]
    requires t.client.refs == |t.owners|
    requires t.channels[i].registered && !s.channels[i].registered ==> !NameTaken(s, s.channels[i].name)
    ensures LedgerOk(t) && AllGrow(s, t)
  {
    hide ChannelOk, ContextOk, PassOk, FramesKept, RecordOk, Wired, NamesOk, WireOk, NameTaken, AnsweredOk;
    RefsBounded(s.client, s.cleaning, RoleOf(s.pass, i), s.channels[i]);
    RefsBounded(t.client, t.cleaning, RoleOf(t.pass, i), t.channels[i]);
    RecordKept(s, t, i, t.channels[i]);
    forall j | 0 <= j < |t.channels| && j != i ensures RecordOk(t, j, t.channels[j]) {
      RecordStays(s, t, j);
    }
    WireStays(s, t, i);
    NamesStay(s, i, t.channels[i]);
  }

  lemma AnsweredAt(s: System, i: nat)
    requires LedgerOk(s) && i < |s.channels|
    ensures AnsweredOk(s.answers, s.channels[i])
  {
    hide AnsweredOk, NamesOk, WireOk, SessionOk;
    assert RecordOk(s, i, s.channels[i]);
  }

  lemma OneFollows(s: System, t: System, i: nat)
    requires SystemOk(s) && LedgerOk(s) && SystemOk(t) && i < |s.channels| == |t.channels|
    requires Follows(s.client, s.channels[i], t.channels[i])
    requires t.channels == s.channels[i := t.channels[i]]
    requires t.wire == s.wire && t.answers == s.answers && SessionOk(t.client, t.sessions)
    requires t.owners == s.owners || t.owners == s.owners + [i]
    requires t.client.refs == |t.owners|
    requires t.channels[i].registered && !s.channels[i].registered ==> !NameTaken(s, s.channels[i].name)
    ensures LedgerOk(t) && AllGrow(s, t)
  {
    hide SystemOk, LedgerOk, FramesKept, NameTaken, AnsweredOk, NoSuccess, Grows, Wired, SessionOk;
    AnsweredAt(s, i);
    AnsweredKept(s.answers, s.channels[i], t.channels[i], s.client.refs + 1);
    OneMovesTo(s, t, i);
  }

  /** A channel that was never joined can only be joined or left. */
  lemma CreatedActions(x: Context, cleaning: Cleaning, role: Role, c: Channel, a: Action)
    requires ChannelOk(x, cleaning, role, c) && ActionEnabled(x, role, c, a) && c.state == Created
    ensures a.JoinCall? || (a.LeaveCall? && !BeginLeave(x, c).registered)
  {
    hide BeginLeave;
    NewFacts(x, cleaning, role, c);
    LeftNew(x, c);
  }

  lemma NewFacts(x: Context, cleaning: Cleaning, role: Role, c: Channel)
    requires ChannelOk(x, cleaning, role, c) && c.state == Created
    ensures c == NewChannel(c.name, c.blocksReconnect)
  {
  }

  lemma LeftNew(x: Context, c: Channel)
    requires c.state == Created
    ensures BeginLeave(x, c).registered == c.registered
  {
  }

  lemma RegistersByJoining(x: Context, cleaning: Cleaning, role: Role, c: Channel, a: Action)
    requires ChannelOk(x, cleaning, role, c) && ActionEnabled(x, role, c, a)
    requires Grows(c, Act(x, c, a)) && Act(x, c, a).registered && !c.registered
    ensures a.JoinCall?
  {
    hide ChannelOk, Act, BeginLeave, ActionEnabled;
    CreatedActions(x, cleaning, role, c, a);
    LeaveCallIs(x, c);
  }

  lemma LeaveCallIs(x: Context, c: Channel)
    ensures Act(x, c, LeaveCall) == BeginLeave(x, c)
  {
    hide BeginLeave;
  }

  lemma FollowingAct(s: System, i: nat, a: Action)
    requires SystemOk(s) && LedgerOk(s) && Enabled(s, At(i, a)) && !(a.SendStarts? && Submits(s.client, s.channels[i], a.ref))
    requires Follows(s.client, s.channels[i], Act(s.client, s.channels[i], a))
    ensures LedgerOk(Next(s, At(i, a))) && AllGrow(s, Next(s, At(i, a)))
  {
    hide ChannelOk, ContextOk, PassOk, Act, Generates, ActionEnabled, Submits, Wired, FramesKept, NameTaken, RecordOk, WireOk, NamesOk;
    var x, c := s.client, s.channels[i];
    var d := Act(x, c, a);
    ActKeeps(s, i, a);
    if d.registered && !c.registered {
      RegistersByJoining(x, s.cleaning, RoleOf(s.pass, i), c, a);
    }
    OneFollows(s, Next(s, At(i, a)), i);
  }

  // An acknowledged join

  lemma AckedConnection(x: Context, cleaning: Cleaning, role: Role, c: Channel)
    requires ChannelOk(x, cleaning, role, c) && c.registered && OnCurrentConnection(x, c)
    ensures c.connection == x.connection && c.generation == x.generation
  {
  }

  lemma AckedInstall(s: System, i: nat, g: nat, m: Message, hookOk: bool, d: Channel)
    requires SystemOk(s) && LedgerOk(s) && Enabled(s, At(i, Receive(g, m, hookOk)))
    requires m.event.ReplyEvent?
    requires Installs(s.channels[i], d, s.client.refs + 1, m.event.body) && Acknowledges(s.client, s.channels[i], g, m)
    ensures AckedOk(s.answers, d)
  {
    hide ChannelOk, ContextOk, PassOk, FramesKept, Grows, WireOk, NamesOk, OnCurrentConnection;
    var c := s.channels[i];
    AckedConnection(s.client, s.cleaning, RoleOf(s.pass, i), c);
    assert RecordOk(s, i, c);
    var a := Answer(s.sessions[g], m.ref.value, m.event.body);
    assert a in s.answers && Acks(a, c.joinRef) && c.connection == Some(a.connection);
    forall r | r in d.installed ensures exists b :: b in s.answers && Acks(b, r) {
      if r !in c.installed {
        assert r == c.joinRef;
      }
    }
  }

  lemma InstallingAct(s: System, i: nat, g: nat, m: Message, hookOk: bool)
    requires SystemOk(s) && LedgerOk(s) && Enabled(s, At(i, Receive(g, m, hookOk))) && m.event.ReplyEvent?
    requires Installs(s.channels[i], Route(s.client, s.channels[i], g, m, hookOk), s.client.refs + 1, m.event.body)
    requires Acknowledges(s.client, s.channels[i], g, m)
    ensures LedgerOk(Next(s, At(i, Receive(g, m, hookOk)))) && AllGrow(s, Next(s, At(i, Receive(g, m, hookOk))))
  {
    hide ChannelOk, ContextOk, PassOk, Route, ActionEnabled, FramesKept, AckedOk, WireOk, NamesOk, SessionOk, OnCurrentConnection,
      NameTaken, AnsweredOk, Replied;
    var c := s.channels[i];
    var d := Route(s.client, c, g, m, hookOk);
    var t := Update(s, i, d);
    ReceiveIs(s, i, g, m, hookOk);
    ActKeeps(s, i, Receive(g, m, hookOk));
    RefsBounded(t.client, t.cleaning, RoleOf(t.pass, i), d);
    AckedInstall(s, i, g, m, hookOk, d);
    AnsweredByReply(s, i, g, m, hookOk, d);
    assert RecordOk(s, i, c);
    SameRefs(s.owners, i, c, d);
    forall j | 0 <= j < |t.channels| && j != i ensures RecordOk(t, j, t.channels[j]) {
      RecordStays(s, t, j);
    }
    WireStays(s, t, i);
    NamesStay(s, i, d);
  }

  lemma PendingConnection(x: Context, cleaning: Cleaning, role: Role, c: Channel, r: Ref)
    requires ChannelOk(x, cleaning, role, c) && IsPending(c.operations, r)
    ensures x.connection == Some(c.operations[r].connection)
  {
  }

  /** The operation that a routed reply lets succeed was answered on its own connection. */
  lemma AnsweredByReply(s: System, i: nat, g: nat, m: Message, hookOk: bool, d: Channel)
    requires SystemOk(s) && LedgerOk(s) && Enabled(s, At(i, Receive(g, m, hookOk)))
    requires s.channels[i].registered && OnCurrentConnection(s.client, s.channels[i]) && s.channels[i].generation == g
    requires m.event.ReplyEvent? && m.ref.Some?
    requires FramesKept(s.channels[i].operations, d.operations, s.client.refs + 1)
    requires Replied(s.channels[i].operations, d.operations, m.ref.value, m.event.body)
    ensures AnsweredOk(s.answers, d)
  {
    hide ChannelOk, ContextOk, PassOk, Grows, WireOk, NamesOk;
    var c := s.channels[i];
    AnsweredAt(s, i);
    var a := Answer(s.sessions[g], m.ref.value, m.event.body);
    forall r | r in d.operations && d.operations[r].outcome.Succeeded?
      ensures exists b :: b in s.answers && b.ref == r && b.connection == d.operations[r].connection
                          && Good(d.operations[r].kind, b.body)
    {
      if !(r in c.operations && c.operations[r].outcome.Succeeded?) {
        PendingConnection(s.client, s.cleaning, RoleOf(s.pass, i), c, r);
        assert a in s.answers && a.ref == r;
      }
    }
  }

  lemma AnsweringAct(s: System, i: nat, g: nat, m: Message, hookOk: bool)
    requires SystemOk(s) && LedgerOk(s) && Enabled(s, At(i, Receive(g, m, hookOk)))
    requires Resolves(s.client, s.channels[i], g, m, Route(s.client, s.channels[i], g, m, hookOk))
    ensures LedgerOk(Next(s, At(i, Receive(g, m, hookOk)))) && AllGrow(s, Next(s, At(i, Receive(g, m, hookOk))))
  {
    hide SystemOk, LedgerOk, Route, FramesKept, Grows, Wired, Replied, AnsweredOk, OnCurrentConnection, NameTaken, SessionOk;
    ReceiveIs(s, i, g, m, hookOk);
    ActKeeps(s, i, Receive(g, m, hookOk));
    AnsweredByReply(s, i, g, m, hookOk, Route(s.client, s.channels[i], g, m, hookOk));
    SessionIn(s);
    RefsCounted(s);
    OneMovesTo(s, Next(s, At(i, Receive(g, m, hookOk))), i);
  }

  lemma RefsCounted(s: System)
    requires LedgerOk(s)
    ensures |s.owners| == s.client.refs
  {
  }

  lemma SameRefs(owners: seq<nat>, i: nat, c: Channel, d: Channel)
    requires OwnsRefs(owners, i, c) && FramesKept(c.operations, d.operations, |owners| + 1) && d.joinRef == c.joinRef
    requires |owners| + 1 !in d.operations
    ensures OwnsRefs(owners, i, d)
  {
    forall r | r in d.operations ensures RefOf(owners, i, r) {
      assert r in c.operations;
    }
  }

  lemma ReceiveIs(s: System, i: nat, g: nat, m: Message, hookOk: bool)
    requires Enabled(s, At(i, Receive(g, m, hookOk)))
    ensures Next(s, At(i, Receive(g, m, hookOk))) == Update(s, i, Route(s.client, s.channels[i], g, m, hookOk))
  {
    hide Route;
  }

  // A submitted frame

  lemma SubmittedJoin(x: Context, cleaning: Cleaning, role: Role, c: Channel, r: Ref)
    requires ChannelOk(x, cleaning, role, c) && r in c.operations && Submits(x, c, r)
    ensures c.connection == Some(c.operations[r].connection)
    ensures c.operations[r].kind == JoinOperation <==> r == c.joinRef
  {
  }

  lemma SendingAct(s: System, i: nat, r: Ref)
    requires SystemOk(s) && LedgerOk(s) && Enabled(s, At(i, SendStarts(r))) && Submits(s.client, s.channels[i], r)
    ensures LedgerOk(Next(s, At(i, SendStarts(r)))) && AllGrow(s, Next(s, At(i, SendStarts(r))))
  {
    hide SystemOk, LedgerOk, Enabled, Next, Submits;
    SendIs(s, i, r);
    SubmittedIsScheduled(s, i, r);
    SendingLedger(s, i, r);
  }

  lemma SendIs(s: System, i: nat, r: Ref)
    requires Enabled(s, At(i, SendStarts(r))) && Submits(s.client, s.channels[i], r)
    ensures
      var t := Update(s, i, StartSend(s.client, s.channels[i], r));
      Next(s, At(i, SendStarts(r))) == t.(wire := s.wire + {(s.channels[i].operations[r].connection, r)})
  {
    hide Submits, StartSend;
  }

  lemma SubmittedIsScheduled(s: System, i: nat, r: Ref)
    requires Enabled(s, At(i, SendStarts(r)))
    ensures i < |s.channels| && r in s.channels[i].operations && s.channels[i].operations[r].send == Scheduled
  {
  }

  lemma SendingLedger(s: System, i: nat, r: Ref)
    requires SystemOk(s) && LedgerOk(s) && i < |s.channels| && r in s.channels[i].operations
    requires s.channels[i].operations[r].send == Scheduled && Submits(s.client, s.channels[i], r)
    ensures
      var t := Update(s, i, StartSend(s.client, s.channels[i], r));
      LedgerOk(t.(wire := s.wire + {(s.channels[i].operations[r].connection, r)})) && AllGrow(s, t)
  {
    hide ChannelOk, ContextOk, PassOk, StartSend, AckedOk, NamesOk, SessionOk, NameTaken, Submits, Marked, WireOk, OnWire, AnsweredOk, NoSuccess;
    var c := s.channels[i];
    var d := StartSend(s.client, c, r);
    var w := (c.operations[r].connection, r);
    var t := Update(s, i, d);
    var u := t.(wire := s.wire + {w});
    SubmittedJoin(s.client, s.cleaning, RoleOf(s.pass, i), c, r);
    MarkedChannel(s.client, s.cleaning, RoleOf(s.pass, i), c);
    SubmittedFollows(s.client, c, r);
    assert RecordOk(s, i, c);
    SameRefs(s.owners, i, c, d);
    NotAcked(s.answers, c, d);
    AnsweredKept(s.answers, c, d, s.client.refs + 1);
    assert RecordOk(u, i, d);
    forall j | 0 <= j < |u.channels| && j != i ensures RecordOk(u, j, u.channels[j]) {
      assert RecordOk(s, j, s.channels[j]);
      OtherSends(s.owners, s.wire, i, j, c, s.channels[j], w);
    }
    WireStays(s, t, i);
    NewOnWire(t, i, r);
    WireGrows(t, u, w);
    NamesStay(s, i, d);
  }

  lemma NewOnWire(t: System, i: nat, r: Ref)
    requires i < |t.channels| && r in t.channels[i].operations && t.channels[i].operations[r].send == Writing
    requires RefOf(t.owners, i, r)
    ensures OnWire(t, (t.channels[i].operations[r].connection, r))
  {
  }

  lemma MarkedChannel(x: Context, cleaning: Cleaning, role: Role, c: Channel)
    requires ChannelOk(x, cleaning, role, c)
    ensures Marked(c) && x.refs + 1 !in c.operations
  {
  }

  lemma NotAcked(answers: set<Answer>, c: Channel, d: Channel)
    requires AckedOk(answers, c) && d.installed == c.installed && d.joinRef == c.joinRef && d.connection == c.connection
    requires d.state == Joined ==> c.state == Joined
    ensures AckedOk(answers, d)
  {
  }

  lemma OtherSends(owners: seq<nat>, wire: set<(ConnectionId, Ref)>, i: nat, j: nat, c: Channel, d: Channel, w: (ConnectionId, Ref))
    requires i != j && OwnsRefs(owners, i, c) && OwnsRefs(owners, j, d) && w.1 in c.operations && SentOk(wire, d)
    ensures SentOk(wire + {w}, d)
  {
    assert RefOf(owners, i, w.1);
  }

  lemma WireGrows(t: System, u: System, w: (ConnectionId, Ref))
    requires WireOk(t) && OnWire(t, w) && u == t.(wire := t.wire + {w})
    ensures WireOk(u)
  {
    forall v | v in u.wire ensures OnWire(u, v) {
      assert OnWire(t, v);
    }
  }

  lemma RoutedAct(s: System, i: nat, a: Action)
    requires SystemOk(s) && LedgerOk(s) && Enabled(s, At(i, a)) && a.Receive?
    requires Routed(s.client, s.channels[i], a.generation, a.message, Act(s.client, s.channels[i], a))
    requires !Follows(s.client, s.channels[i], Act(s.client, s.channels[i], a))
    ensures LedgerOk(Next(s, At(i, a))) && AllGrow(s, Next(s, At(i, a)))
  {
    hide LedgerOk, SystemOk, ActionEnabled, NameTaken, Next, Act, Follows, Installs, Acknowledges, Resolves;
    ReceiveRoutes(s.client, s.channels[i], a);
    if Resolves(s.client, s.channels[i], a.generation, a.message, Act(s.client, s.channels[i], a)) {
      AnsweringAct(s, i, a.generation, a.message, a.hookOk);
    } else {
      InstallingAct(s, i, a.generation, a.message, a.hookOk);
    }
  }

  lemma ActLedger(s: System, i: nat, a: Action)
    requires SystemOk(s) && LedgerOk(s) && Enabled(s, At(i, a))
    ensures LedgerOk(Next(s, At(i, a))) && AllGrow(s, Next(s, At(i, a)))
  {
    hide LedgerOk, SystemOk, Next, Act, Follows, Routed, Submits, ContextOk, Attended, Sound;
    var c := s.channels[i];
    OkAt(s, i);
    if a.SendStarts? && Submits(s.client, c, a.ref) {
      SendingAct(s, i, a.ref);
    } else {
      ActFollows(s.client, s.cleaning, RoleOf(s.pass, i), c, a);
      if Follows(s.client, c, Act(s.client, c, a)) {
        FollowingAct(s, i, a);
      } else {
        RoutedAct(s, i, a);
      }
    }
  }

  lemma ReceiveRoutes(x: Context, c: Channel, a: Action)
    requires a.Receive?
    ensures Act(x, c, a) == Route(x, c, a.generation, a.message, a.hookOk)
  {
    hide Route;
  }

  // Sweeps over all channels

  lemma AllFollow(s: System, t: System)
    requires SystemOk(s) && LedgerOk(s) && SystemOk(t) && |t.channels| == |s.channels|
    requires forall i :: 0 <= i < |s.channels| ==>
      Follows(s.client, s.channels[i], t.channels[i]) && (t.channels[i].registered ==> s.channels[i].registered)
    requires t.wire == s.wire && t.answers == s.answers && t.owners == s.owners && t.client.refs == s.client.refs
    requires SessionOk(t.client, t.sessions)
    ensures LedgerOk(t) && AllGrow(s, t)
  {
    hide ChannelOk, ContextOk, PassOk, Wired, RecordOk, SessionOk, FramesKept, AnsweredOk, NoSuccess;
    forall i | 0 <= i < |t.channels| ensures RecordOk(t, i, t.channels[i]) {
      AnsweredAt(s, i);
      AnsweredKept(s.answers, s.channels[i], t.channels[i], s.client.refs + 1);
      RefsBounded(s.client, s.cleaning, RoleOf(s.pass, i), s.channels[i]);
      RefsBounded(t.client, t.cleaning, RoleOf(t.pass, i), t.channels[i]);
      RecordKept(s, t, i, t.channels[i]);
    }
    AllOnWire(s, t);
  }

  lemma AllOnWire(s: System, t: System)
    requires WireOk(s) && |t.channels| == |s.channels|
    requires forall i :: 0 <= i < |s.channels| ==> Follows(s.client, s.channels[i], t.channels[i])
    requires t.wire == s.wire && t.answers == s.answers && t.owners == s.owners
    ensures WireOk(t)
  {
    hide Grows, Wired;
    forall w | w in t.wire ensures OnWire(t, w) {
      assert OnWire(s, w);
      assert Follows(s.client, s.channels[s.owners[w.1 - 1]], t.channels[s.owners[w.1 - 1]]);
    }
  }

  /** Only the ref counter of the context matters. */
  lemma FollowsAlike(x: Context, y: Context, c: Channel, d: Channel)
    requires Follows(y, c, d) && x.refs == y.refs
    ensures Follows(x, c, d)
  {
    hide Grows, FramesKept;
  }

  lemma MarkedIn(s: System, i: nat)
    requires SystemOk(s) && i < |s.channels|
    ensures Marked(s.channels[i])
  {
    hide ChannelOk, Marked;
    MarkedChannel(s.client, s.cleaning, RoleOf(s.pass, i), s.channels[i]);
  }

  lemma FailSessionLedger(s: System)
    requires SystemOk(s) && LedgerOk(s) && s.client.connection.Some?
    ensures LedgerOk(FailSession(s)) && AllGrow(s, FailSession(s))
  {
    hide SystemOk, LedgerOk, Follows, FailPending, Marked;
    FailSessionKeeps(s);
    if !s.client.sendFailed {
      forall i | 0 <= i < |s.channels|
        ensures Follows(s.client, s.channels[i], FailPending(s.client, s.channels[i]))
        ensures FailPending(s.client, s.channels[i]).registered == s.channels[i].registered
      {
        MarkedIn(s, i);
        FailPendingFollows(s.client, s.channels[i]);
        FailPendingFrame(s.client, s.channels[i]);
      }
      SessionIn(s);
      AllFollow(s, FailSession(s));
    }
  }

  lemma SessionIn(s: System)
    requires LedgerOk(s)
    ensures SessionOk(s.client, s.sessions)
  {
  }

  lemma RoutingStopsLedger(s: System)
    requires SystemOk(s) && LedgerOk(s) && Enabled(s, RoutingStops)
    ensures LedgerOk(Next(s, RoutingStops)) && AllGrow(s, Next(s, RoutingStops))
  {
    hide SystemOk, LedgerOk, Follows, FailPending, Marked;
    RoutingStopsKeeps(s);
    forall i | 0 <= i < |s.channels|
      ensures Follows(s.client, s.channels[i], FailPending(s.client, s.channels[i]))
      ensures FailPending(s.client, s.channels[i]).registered == s.channels[i].registered
    {
      MarkedIn(s, i);
      FailPendingFollows(s.client, s.channels[i]);
      FailPendingFrame(s.client, s.channels[i]);
    }
    AllFollow(s, Next(s, RoutingStops));
  }

  lemma DisconnectLedger(s: System, closed: Option<ConnectionId>)
    requires SystemOk(s) && LedgerOk(s) && s.pass.NoPass? && s.cleaning.None? && closed == s.client.connection
    ensures LedgerOk(BeginCleanupOf(s, closed)) && AllGrow(s, BeginCleanupOf(s, closed))
  {
    hide SystemOk, LedgerOk, Follows, BeginDisconnect, Marked;
    DisconnectKeeps(s, closed);
    forall i | 0 <= i < |s.channels|
      ensures Follows(s.client, s.channels[i], BeginDisconnect(s.client, s.channels[i]))
      ensures BeginDisconnect(s.client, s.channels[i]).registered == s.channels[i].registered
    {
      MarkedIn(s, i);
      BeginDisconnectFollows(s.client, s.channels[i]);
      DisconnectRegistered(s.client, s.channels[i]);
    }
    AllFollow(s, BeginCleanupOf(s, closed));
  }

  lemma DisconnectRegistered(x: Context, c: Channel)
    ensures BeginDisconnect(x, c).registered == c.registered
  {
    hide FailPending;
    FailPendingFrame(x, c);
  }

  lemma CleanupEndsLedger(s: System)
    requires SystemOk(s) && LedgerOk(s) && Enabled(s, CleanupEnds)
    ensures LedgerOk(Next(s, CleanupEnds)) && AllGrow(s, Next(s, CleanupEnds))
  {
    hide SystemOk, LedgerOk, Follows, EndCleanup, CleanedUp;
    CleanupEndsKeeps(s);
    forall i | 0 <= i < |s.channels|
      ensures Follows(s.client, s.channels[i], EndCleanup(s.client, s.cleaning.value, s.channels[i]))
      ensures EndCleanup(s.client, s.cleaning.value, s.channels[i]).registered ==> s.channels[i].registered
    {
      EndCleanupFollows(s.client, s.cleaning.value, s.channels[i]);
      EndedRegistered(s.client, s.cleaning.value, s.channels[i]);
    }
    SessionIn(s);
    AllFollow(s, Next(s, CleanupEnds));
  }

  lemma EndedRegistered(x: Context, closed: Option<ConnectionId>, c: Channel)
    ensures EndCleanup(x, closed, c).registered ==> c.registered
  {
    hide Release, Observe;
  }

  lemma StopLedger(s: System, e: Step)
    requires SystemOk(s) && LedgerOk(s) && Enabled(s, e) && (e.RequestStop? || e.SupervisorExits?)
    ensures LedgerOk(Next(s, e)) && AllGrow(s, Next(s, e))
  {
    hide SystemOk, LedgerOk, Follows, Retire, Marked;
    StopKeeps(s, e);
    var y := if e.RequestStop? then StopRequested(s.client) else s.client;
    var failure := if e.RequestStop? then ChannelFailure(StoppingClient) else SocketFailure;
    forall i | 0 <= i < |s.channels|
      ensures Follows(s.client, s.channels[i], Retire(y, s.channels[i], failure))
      ensures Retire(y, s.channels[i], failure).registered ==> s.channels[i].registered
    {
      MarkedIn(s, i);
      RetireFollows(y, s.channels[i], failure);
      FollowsAlike(s.client, y, s.channels[i], Retire(y, s.channels[i], failure));
      RetiredFrame(y, s.channels[i], failure);
    }
    SessionIn(s);
    AllFollow(s, Next(s, e));
  }

  lemma PassOptionalLedger(s: System)
    requires SystemOk(s) && LedgerOk(s) && Enabled(s, PassOptional)
    ensures LedgerOk(Next(s, PassOptional)) && AllGrow(s, Next(s, PassOptional))
  {
    hide SystemOk, LedgerOk, Follows, StartRecovery;
    PassOptionalKeeps(s);
    forall i | 0 <= i < |s.channels|
      ensures Follows(s.client, s.channels[i], Next(s, PassOptional).channels[i])
      ensures Next(s, PassOptional).channels[i].registered ==> s.channels[i].registered
    {
      Unchanged(s.client, s.channels[i]);
      StartRecoveryFollows(s.client, s.channels[i], Some(s.client.generation));
      RecoveringRegistered(s.client, s.channels[i], Some(s.client.generation));
    }
    SessionIn(s);
    AllFollow(s, Next(s, PassOptional));
  }

  lemma RecoveringRegistered(x: Context, c: Channel, generation: Option<nat>)
    ensures StartRecovery(x, c, generation).registered == c.registered
  {
  }

  // The remaining steps

  lemma OpenLedger(s: System, name: string, blocksReconnect: bool)
    requires LedgerOk(s)
    ensures LedgerOk(Next(s, Open(name, blocksReconnect))) && AllGrow(s, Next(s, Open(name, blocksReconnect)))
  {
    hide AckedOk, SentOk, SessionOk, AnsweredOk;
    var t := Next(s, Open(name, blocksReconnect));
    forall w | w in t.wire ensures w.1 > 0 {
      assert OnWire(s, w);
    }
    NewRecord(t, |s.channels|, name, blocksReconnect);
    assert forall i :: 0 <= i < |s.channels| ==> t.channels[i] == s.channels[i] && RecordOk(s, i, s.channels[i]);
    forall w | w in t.wire ensures OnWire(t, w) {
      assert OnWire(s, w);
    }
    assert !t.channels[|s.channels|].registered;
  }

  lemma NewRecord(t: System, i: nat, name: string, blocksReconnect: bool)
    requires forall w :: w in t.wire ==> w.1 > 0
    ensures RecordOk(t, i, NewChannel(name, blocksReconnect))
  {
  }

  /** A step of one channel outside `At` that registers nothing. */
  lemma OneMovesLedger(s: System, t: System, i: nat)
    requires SystemOk(s) && LedgerOk(s) && SystemOk(t) && i < |s.channels| == |t.channels|
    requires Follows(s.client, s.channels[i], t.channels[i]) && s.channels[i].state != Created
    requires t.channels == s.channels[i := t.channels[i]]
    requires t.wire == s.wire && t.answers == s.answers && t.sessions == s.sessions
    requires (t.owners == s.owners && t.client == s.client) ||
             (t.owners == s.owners + [i] && t.client == s.client.(refs := s.client.refs + 1))
    ensures LedgerOk(t) && AllGrow(s, t)
  {
    hide ChannelOk, ContextOk, PassOk, FramesKept, RecordOk, Wired, NamesOk, WireOk, NameTaken;
    OneFollows(s, t, i);
  }

  lemma OperatesAfterJoining(s: System, i: nat, r: Ref)
    requires SystemOk(s) && i < |s.channels| && (r in s.channels[i].operations || RoleOf(s.pass, i) != Uninvolved)
    ensures s.channels[i].state != Created
  {
    hide Attended;
    NeverNew(s.client, s.cleaning, RoleOf(s.pass, i), s.channels[i], r);
  }

  lemma NeverNew(x: Context, cleaning: Cleaning, role: Role, c: Channel, r: Ref)
    requires Sound(x, cleaning, role, c) && (r in c.operations || role != Uninvolved)
    ensures c.state != Created
  {
  }

  lemma WriteLostLedger(s: System, i: nat, r: Ref)
    requires SystemOk(s) && LedgerOk(s) && Enabled(s, WriteLost(i, r))
    ensures LedgerOk(Next(s, WriteLost(i, r))) && AllGrow(s, Next(s, WriteLost(i, r)))
  {
    hide SystemOk, LedgerOk, Follows, FinishSend, Settle, FailSession, ChannelOk;
    var c := s.channels[i];
    var d := FinishWrite(c, r, true);
    FinishWriteFollows(s.client, c, r, Failed(SocketFailure));
    InvariantOf(s, i);
    WriteLostOk(s.client, s.cleaning, RoleOf(s.pass, i), c, r);
    OneMoves(s, i, d, false);
    OperatesAfterJoining(s, i, r);
    OneMovesLedger(s, Update(s, i, d), i);
    if s.client.connection.Some? {
      FailSessionLedger(Update(s, i, d));
    }
  }

  lemma InvariantOf(s: System, i: nat)
    requires SystemOk(s) && i < |s.channels|
    ensures ChannelOk(s.client, s.cleaning, RoleOf(s.pass, i), s.channels[i])
  {
    hide ChannelOk;
  }

  lemma ExpiresLedger(s: System, i: nat, r: Ref)
    requires SystemOk(s) && LedgerOk(s) && Enabled(s, Expires(i, r))
    ensures LedgerOk(Next(s, Expires(i, r))) && AllGrow(s, Next(s, Expires(i, r)))
  {
    hide SystemOk, LedgerOk, Follows, Settle, FailSession, ChannelOk;
    var c := s.channels[i];
    var failure := TimeoutError(c.operations[r].kind);
    var d := Settle(c, r, Failed(failure));
    SettleFollows(s.client, c, r, Failed(failure));
    InvariantOf(s, i);
    ExpiresOk(s.client, s.cleaning, RoleOf(s.pass, i), c, r, failure);
    OneMoves(s, i, d, false);
    OperatesAfterJoining(s, i, r);
    OneMovesLedger(s, Update(s, i, d), i);
    FailSessionLedger(Update(s, i, d));
  }

  lemma AnswersLedger(s: System, k: ConnectionId, r: Ref, body: Body)
    requires LedgerOk(s) && Enabled(s, Answers(k, r, body))
    ensures LedgerOk(Next(s, Answers(k, r, body))) && AllGrow(s, Next(s, Answers(k, r, body)))
  {
    hide OwnsRefs, SentOk, NamesOk, SessionOk;
    var t := Next(s, Answers(k, r, body));
    forall i | 0 <= i < |t.channels| ensures RecordOk(t, i, t.channels[i]) {
      assert RecordOk(s, i, s.channels[i]);
      MoreAnswers(s.answers, t.answers, t.channels[i]);
    }
    forall w | w in t.wire ensures OnWire(t, w) {
      assert OnWire(s, w);
    }
  }

  lemma MoreAnswers(answers: set<Answer>, more: set<Answer>, c: Channel)
    requires AckedOk(answers, c) && AnsweredOk(answers, c) && answers <= more
    ensures AckedOk(more, c) && AnsweredOk(more, c)
  {
    forall r | r in c.installed ensures exists a :: a in more && Acks(a, r) {
      var a :| a in answers && Acks(a, r);
    }
  }

  /** The channels stay as they are. */
  lemma ContextLedger(s: System, t: System)
    requires LedgerOk(s) && t.channels == s.channels && t.owners == s.owners && t.wire == s.wire && t.answers == s.answers
    requires t.client.refs == s.client.refs && SessionOk(t.client, t.sessions)
    ensures LedgerOk(t) && AllGrow(s, t)
  {
    hide OwnsRefs, SentOk, NamesOk, SessionOk, AckedOk, AnsweredOk;
    forall i | 0 <= i < |t.channels| ensures RecordOk(t, i, t.channels[i]) {
      assert RecordOk(s, i, s.channels[i]);
    }
    forall w | w in t.wire ensures OnWire(t, w) {
      assert OnWire(s, w);
    }
  }

  lemma SocketLedger(s: System, e: Step)
    requires SystemOk(s) && LedgerOk(s) && Enabled(s, e)
    requires e.Adopt? || e.AdoptRefused? || e.AdoptWhileStopping? || e.SupervisorCancelled?
    ensures LedgerOk(Next(s, e)) && AllGrow(s, Next(s, e))
  {
    hide LedgerOk, ChannelOk, BeginCleanupOf;
    SessionIn(s);
    if e.AdoptRefused? {
      var t := s.(client := Opened(s.client, s.sockets), sockets := s.sockets + 1);
      ContextLedger(s, t);
      forall i | 0 <= i < |s.channels|
        ensures ChannelOk(t.client, t.cleaning, RoleOf(t.pass, i), t.channels[i])
      {
        OpenedOk(s.client, s.channels[i], s.sockets);
      }
      DisconnectLedger(t, Some(s.sockets));
    } else {
      ContextLedger(s, Next(s, e));
    }
  }

  lemma CleanupBeginsLedger(s: System)
    requires SystemOk(s) && LedgerOk(s) && Enabled(s, CleanupBegins)
    ensures LedgerOk(Next(s, CleanupBegins)) && AllGrow(s, Next(s, CleanupBegins))
  {
    hide SystemOk, LedgerOk, BeginCleanupOf;
    DisconnectLedger(s, s.client.connection);
  }

  // The pass

  lemma PassNextLedger(s: System, i: nat)
    requires SystemOk(s) && LedgerOk(s) && Enabled(s, PassNext(i))
    ensures LedgerOk(Next(s, PassNext(i))) && AllGrow(s, Next(s, PassNext(i)))
  {
    hide SystemOk, LedgerOk, Follows, BeginRejoin, ShouldRejoin, Marked;
    PassNextKeeps(s, i);
    MarkedIn(s, i);
    SessionIn(s);
    BeginRejoinFollows(s.client, s.channels[i]);
    OperatesAfterJoining(s, i, 0);
    if ShouldRejoin(s.channels[i]) {
      OneMovesLedger(s, Next(s, PassNext(i)), i);
    } else {
      ContextLedger(s, Next(s, PassNext(i)));
    }
  }

  lemma ActiveIn(s: System)
    requires SystemOk(s) && s.pass.Pass? && !s.pass.active.Between?
    ensures s.pass.active.channel < |s.channels| && s.client.connection.Some?
    ensures RoleOf(s.pass, s.pass.active.channel) != Uninvolved
    ensures s.client.refs + 1 !in s.channels[s.pass.active.channel].operations
  {
    hide ChannelOk;
    MarkedChannel(s.client, s.cleaning, RoleOf(s.pass, s.pass.active.channel), s.channels[s.pass.active.channel]);
  }

  lemma PassRestartsLedger(s: System, paramsOk: bool)
    requires SystemOk(s) && LedgerOk(s) && Enabled(s, PassRestarts(paramsOk))
    ensures LedgerOk(Next(s, PassRestarts(paramsOk))) && AllGrow(s, Next(s, PassRestarts(paramsOk)))
  {
    hide SystemOk, LedgerOk, Follows, Rejoin, RejoinFailure, Marked;
    var x, i := s.client, s.pass.active.channel;
    var c := s.channels[i];
    PassRestartsKeeps(s, paramsOk);
    ActiveIn(s);
    SessionIn(s);
    OperatesAfterJoining(s, i, 0);
    if !ShouldRejoin(c) {
      ContextLedger(s, Next(s, PassRestarts(paramsOk)));
    } else {
      var d := Rejoin(x, c, x.generation, paramsOk);
      RejoinFollows(x, c, x.generation, paramsOk);
      MarkedIn(s, i);
      MarkedStays(x, c, d);
      RejoinFailureFollows(x, d);
      FollowsThrough(x, c, d, RejoinFailure(x, d).0);
      OneMovesLedger(s, Next(s, PassRestarts(paramsOk)), i);
    }
  }

  lemma PassResumesLedger(s: System)
    requires SystemOk(s) && LedgerOk(s) && Enabled(s, PassResumes)
    ensures LedgerOk(Next(s, PassResumes)) && AllGrow(s, Next(s, PassResumes))
  {
    hide SystemOk, LedgerOk, Follows, JoinFailed, RejoinFailure, Marked;
    var x, i := s.client, s.pass.active.channel;
    var c := s.channels[i];
    PassResumesKeeps(s);
    ActiveIn(s);
    SessionIn(s);
    OperatesAfterJoining(s, i, 0);
    if c.operations[s.pass.active.ref].outcome.Succeeded? {
      ContextLedger(s, Next(s, PassResumes));
    } else {
      var d := JoinFailed(x, c, c.operations[s.pass.active.ref].outcome.failure);
      MarkedIn(s, i);
      JoinFailedFollows(x, c, c.operations[s.pass.active.ref].outcome.failure);
      MarkedStays(x, c, d);
      RejoinFailureFollows(x, d);
      FollowsThrough(x, c, d, RejoinFailure(x, d).0);
      OneMovesLedger(s, Next(s, PassResumes), i);
    }
  }

  lemma PassUnregisteredLedger(s: System)
    requires SystemOk(s) && LedgerOk(s) && Enabled(s, PassUnregistered)
    ensures LedgerOk(Next(s, PassUnregistered)) && AllGrow(s, Next(s, PassUnregistered))
  {
    hide SystemOk, LedgerOk, Follows;
    PassUnregisteredKeeps(s);
    ActiveIn(s);
    OperatesAfterJoining(s, s.pass.active.channel, 0);
    LossFollows(s.client, s.channels[s.pass.active.channel], LossReporting);
    OneMovesLedger(s, Next(s, PassUnregistered), s.pass.active.channel);
  }

  /** Every step of the whole client keeps the ledger. */
  lemma NextLedger(s: System, e: Step)
    requires SystemOk(s) && LedgerOk(s) && Enabled(s, e)
    ensures LedgerOk(Next(s, e)) && AllGrow(s, Next(s, e))
  {
    hide SystemOk, LedgerOk, Next;
    match e
    case Open(name, blocks) => OpenLedger(s, name, blocks);
    case At(i, a) => ActLedger(s, i, a);
    case WriteLost(i, r) => WriteLostLedger(s, i, r);
    case Expires(i, r) => ExpiresLedger(s, i, r);
    case Answers(k, r, body) => AnswersLedger(s, k, r, body);
    case PassNext(i) => PassNextLedger(s, i);
    case PassRestarts(paramsOk) => PassRestartsLedger(s, paramsOk);
    case PassResumes => PassResumesLedger(s);
    case PassUnregistered => PassUnregisteredLedger(s);
    case PassOptional => PassOptionalLedger(s);
    case Adopt => SocketLedger(s, e);
    case AdoptRefused => SocketLedger(s, e);
    case AdoptWhileStopping => SocketLedger(s, e);
    case RoutingStops => RoutingStopsLedger(s);
    case CleanupBegins => CleanupBeginsLedger(s);
    case CleanupEnds => CleanupEndsLedger(s);
    case RequestStop => StopLedger(s, e);
    case SupervisorCancelled => SocketLedger(s, e);
    case SupervisorExits => StopLedger(s, e);
  }

  lemma {:induction false} RunLedger(v2: bool, queueLimit: nat, steps: seq<Step>)
    requires Run(v2, queueLimit, steps).Some?
    ensures SystemOk(Run(v2, queueLimit, steps).value) && LedgerOk(Run(v2, queueLimit, steps).value)
  {
    hide SystemOk, LedgerOk, Next, Enabled;
    if steps == [] {
      InitOk(v2, queueLimit);
      InitLedger(v2, queueLimit);
    } else {
      RunLedger(v2, queueLimit, steps[..|steps| - 1]);
      NextKeeps(Run(v2, queueLimit, steps[..|steps| - 1]).value, steps[|steps| - 1]);
      NextLedger(Run(v2, queueLimit, steps[..|steps| - 1]).value, steps[|steps| - 1]);
    }
  }
}
