/** The login protocol asks for one message per connection, so that none ever waits in the pool: the
    queues of sendAll stay empty, and sendAll never calls into a connection. */
module WorldLogin {
  import opened Wrappers
  import opened ConnectionState
  import opened World
  import opened WorldSteps
  import opened WorldInvariant
  import opened WorldConnProofs
  import opened WorldPoolProofs
  import opened WorldRuns
  import opened WorldForward
  import opened WorldStill
  import opened WorldTheorems

  // Before step i the delegate that is running has already asked for a message.
  predicate HasAsked(ss: seq<Step>, i: nat)
    requires i <= |ss|
  {
    if i == 0 then false else AskedAfter(ss[i - 1], HasAsked(ss, i - 1))
  }

  predicate AskedAfter(s: Step, asked: bool) {
    if s.Work? && s.work.GetMessage? then true else if s.Work? && s.work.RunTask? then false else asked
  }

  // How ProtocolLogin::delegate uses the pool: it asks once, and not for an autosend message.
  predicate AsksAsLogin(s: Step, asked: bool) { s.Work? && s.work.GetMessage? ==> !s.work.auto && !asked }

  predicate LoginSteps(ss: seq<Step>) { forall i :: 0 <= i < |ss| ==> AsksAsLogin(ss[i], HasAsked(ss, i)) }

  // ----- what may still be sent -----

  predicate IsBusy(pc: Pc, p: PId, asked: bool) { pc.Delegating? && pc.p == p && (!asked || pc.hand.Unsent?) }

  // Delegates of p that wait, and one that runs and has not sent its message
  ghost function ToSend(tasks: seq<Task>, pc: Pc, p: PId, asked: bool): nat {
    multiset(Line(tasks, pc))[Delegate(p)] + if IsBusy(pc, p, asked) then 1 else 0
  }

  ghost function Planned(w: World, c: Conn, asked: bool): nat {
    if c.protocol.Some? then ToSend(w.tasks, w.pc, c.protocol.value, asked) else 0
  }

  // A connection bears one message, from its first packet on.
  function Share(c: Conn): int { if c.receivedFirst then 1 else 0 }

  ghost predicate Loads(w: World, asked: bool) {
    forall c :: c in w.conns && w.conns[c].state == Open ==>
      w.conns[c].pendingWrite + Planned(w, w.conns[c], asked) <= Share(w.conns[c])
  }

  // The message in the hand of a delegate is for the connection of its protocol.
  ghost predicate HandOk(w: World, asked: bool) {
    w.pc.Delegating? && w.pc.hand.Unsent? ==>
      && asked && w.pc.hand.m in w.pool.owner
      && var c := w.pool.owner[w.pc.hand.m].c;
         (c in w.conns && w.conns[c].state == Open ==> w.conns[c].protocol == Some(w.pc.p))
  }

  ghost predicate Quiet(w: World, asked: bool) {
    w.pool.autoSend == [] && w.pool.addQueue == [] && Loads(w, asked) && HandOk(w, asked)
  }

  // One more message can be sent on c at once.
  ghost predicate Spare(w: World, c: CId, asked: bool) {
    c in w.conns && w.conns[c].state == Open ==>
      w.conns[c].pendingWrite == 0 && Planned(w, w.conns[c], asked) + 1 <= Share(w.conns[c])
  }

  // ----- operations that send nothing -----

  lemma StaysQuiet(w: World, w': World, asked: bool)
    requires Quiet(w, asked) && Stays(w, w')
    ensures Quiet(w', asked)
    ensures forall c :: Spare(w, c, asked) && c in w.conns ==> Spare(w', c, asked)
  {
    hide Line;
    forall p ensures ToSend(w'.tasks, w'.pc, p, asked) == ToSend(w.tasks, w.pc, p, asked) {
      LineCount(w.tasks, w.pc, p);
      LineCount(w'.tasks, w.pc, p);
    }
  }

  lemma StillQuiet(w: World, w': World, asked: bool)
    requires Quiet(w, asked) && Still(w, w')
    ensures Quiet(w', asked)
    ensures forall c :: Spare(w, c, asked) && c in w.conns ==> Spare(w', c, asked)
  {
    hide Quiet, Spare, Stays;
    StillStays(w, w');
    StaysQuiet(w, w', asked);
  }

  // ----- a new connection, and its protocol -----

  // Nobody waits for a protocol that does not exist yet, and no connection points at it.
  lemma UnknownProto(w: World, p: PId, asked: bool)
    requires Known(w) && p !in w.protos
    ensures ToSend(w.tasks, w.pc, p, asked) == 0
    ensures forall c :: c in w.conns ==> w.conns[c].protocol != Some(p)
  {
    hide Line;
    LineCount(w.tasks, w.pc, p);
    assert !KnownTask(Delegate(p), w.conns, w.protos, w.pool);
  }

  lemma AttachQuiet(w: World, c: CId, p: PId, asked: bool)
    requires Known(w) && Quiet(w, asked) && p !in w.protos && c in w.conns && w.conns[c].protocol.None?
    ensures Quiet(Attach(w, c, p), asked)
    ensures Spare(w, c, asked) ==> Spare(Attach(w, c, p), c, asked)
  {
    UnknownProto(w, p, asked);
    hide Known, ToSend;
  }

  lemma CreateQuiet(w: World, c: CId, asked: bool)
    requires Known(w) && Quiet(w, asked) && c !in w.conns
    ensures Quiet(Create(w, c), asked)
  {
    hide ToSend;
  }

  lemma AcceptQuiet(w: World, c: CId, single: Option<PId>, t: Option<bool>, asked: bool)
    requires Known(w) && Quiet(w, asked) && c !in w.conns && (single.Some? ==> single.value !in w.protos)
    ensures Quiet(AcceptStep(w, c, single, t), asked)
  {
    hide Known, Quiet, Still, Stays;
    var w1 := Create(w, c);
    CreateQuiet(w, c, asked);
    if single.Some? {
      AttachQuiet(w1, c, single.value, asked);
    }
    var w2 := if single.Some? then Attach(w1, c, single.value) else w1;
    StartReadStays(w2, c, ReadingHeader, t);
    StaysQuiet(w2, StartRead(w2, c, ReadingHeader, t), asked);
  }

  // ----- sending -----

  lemma SendQuiet(w: World, m: MId, threw: bool, forceSlow: bool, asked: bool)
    requires Known(w) && Quiet(w, asked) && m in w.pool.owner && Spare(w, w.pool.owner[m].c, asked)
    ensures Quiet(Send(w, m, threw, forceSlow), asked)
  {
    hide Known, Quiet, Still, Stays, Spare, Frame;
    OwnerKnown(w, m);
    var c := w.pool.owner[m].c;
    var w1 := Frame(TouchProtocol(w, w.pool.owner[m].p), m);
    FrameStill(w, m);
    StillQuiet(w, w1, asked);
    AtOnce(w, c, forceSlow, asked);
    if SendChoice(w.conns[c], forceSlow) == WriteNow {
      var w2 := Set(w1, c, w1.conns[c].(pendingWrite := w1.conns[c].pendingWrite + 1));
      CountQuiet(w1, c, asked);
      SameStill(w2, StartWrite(w1, m, threw));
      StillQuiet(w2, StartWrite(w1, m, threw), asked);
    }
  }

  lemma AtOnce(w: World, c: CId, forceSlow: bool, asked: bool)
    requires c in w.conns && Spare(w, c, asked)
    ensures SendChoice(w.conns[c], forceSlow) == Refused || SendChoice(w.conns[c], forceSlow) == WriteNow
  {
  }

  lemma CountQuiet(w: World, c: CId, asked: bool)
    requires Known(w) && Quiet(w, asked) && c in w.conns && Spare(w, c, asked)
    ensures Quiet(Set(w, c, w.conns[c].(pendingWrite := w.conns[c].pendingWrite + 1)), asked)
  {
    hide Known, ToSend;
  }

  lemma DisconnectQuiet(w: World, p: PId, newMsg: MId, threw: bool, forceSlow: bool, asked: bool)
    requires Known(w) && Quiet(w, asked) && p in w.protos && Taken(w.pool, newMsg) !in w.pool.owner
    requires CanAlloc(w, p) ==> Spare(w, w.protos[p].connection.value, asked)
    ensures Quiet(Disconnect(w, p, newMsg, threw, forceSlow), asked)
  {
    hide Known, Quiet, Still, Stays, Spare, Drop, Send, CloseOf;
    if CanAlloc(w, p) {
      ConnKnown(w, p);
      var m, c := Taken(w.pool, newMsg), w.protos[p].connection.value;
      var w1 := Alloc(w, p, false, newMsg);
      AllocStill(w, p, newMsg);
      StillQuiet(w, w1, asked);
      var w2 := Send(w1, m, threw, forceSlow);
      SendQuiet(w1, m, threw, forceSlow, asked);
      var w3 := CloseOf(w2, p);
      CloseOfStill(w2, p);
      StillQuiet(w2, w3, asked);
      DropStill(w3, m);
      StillQuiet(w3, Drop(w3, m), asked);
    } else {
      CloseOfStill(w, p);
      StillQuiet(w, CloseOf(w, p), asked);
    }
  }

  // c is the only connection of protocol p, and p of c.
  ghost predicate Paired(w: World, c: CId, p: PId) {
    && c in w.conns && w.conns[c].protocol == Some(p)
    && p in w.protos && (w.protos[p].connection.None? || w.protos[p].connection == Some(c))
    && forall x :: x in w.conns && w.conns[x].protocol == Some(p) ==> x == c
  }

  lemma AcceptedQuiet(w: World, c: CId, p: PId, asked: bool)
    requires Known(w) && Quiet(w, asked) && Paired(w, c, p) && Spare(w, c, asked)
    ensures Quiet(PushBack(w, Delegate(p)), asked)
  {
    hide Known, Line;
    forall q ensures ToSend(w.tasks + [Delegate(p)], w.pc, q, asked) ==
      ToSend(w.tasks, w.pc, q, asked) + if q == p then 1 else 0
    {
      LineCount(w.tasks, w.pc, q);
      LineCount(w.tasks + [Delegate(p)], w.pc, q);
    }
  }

  lemma FirstQuiet(w: World, c: CId, p: PId, first: FirstPacket, asked: bool)
    requires Known(w) && Quiet(w, asked) && Paired(w, c, p) && Spare(w, c, asked)
    requires first.Rejected? ==> Taken(w.pool, first.newMsg) !in w.pool.owner
    ensures Quiet(FirstMessage(w, p, first), asked)
  {
    hide Known, Quiet, Still, Stays, Spare, Disconnect, CloseOf;
    match first {
      case NoService =>
      case BadKey =>
        CloseOfStill(w, p);
        StillQuiet(w, CloseOf(w, p), asked);
      case Rejected(newMsg, threw, forceSlow) => DisconnectQuiet(w, p, newMsg, threw, forceSlow, asked);
      case Accepted => AcceptedQuiet(w, c, p, asked);
    }
  }

  lemma DeliverToQuiet(w: World, c: CId, p: PId, first: FirstPacket, t: Option<bool>, asked: bool)
    requires Known(w) && Quiet(w, asked) && Paired(w, c, p) && Spare(w, c, asked)
    requires first.Rejected? ==> Taken(w.pool, first.newMsg) !in w.pool.owner
    ensures Quiet(Deliver(w, c, p, first, t), asked)
  {
    hide Known, Quiet, Still, Stays, Spare, FirstMessage, StartRead;
    var w1 := TouchProtocol(w, p);
    assert Paired(w1, c, p);
    TouchStill(w, p);
    StillQuiet(w, w1, asked);
    hide Paired;
    FirstQuiet(w1, c, p, first, asked);
    var w2 := FirstMessage(w1, p, first);
    if c in w2.conns {
      StartReadStays(w2, c, ReadingHeader, t);
      StaysQuiet(w2, StartRead(w2, c, ReadingHeader, t), asked);
    }
  }

  // The first packet of an open connection opens its share.
  lemma ReceivedSpare(w: World, c: CId, asked: bool)
    requires Known(w) && Quiet(w, asked) && c in w.conns && w.conns[c].state == Open
    requires !w.conns[c].receivedFirst && w.conns[c].pendingWrite >= 0
    ensures Quiet(Received(w, c), asked) && Spare(Received(w, c), c, asked)
  {
    hide Known, ToSend;
  }

  lemma IsPaired(w: World, c: CId)
    requires Inv(w) && c in w.conns && w.conns[c].protocol.Some?
    ensures Paired(Received(w, c), c, w.conns[c].protocol.value)
  {
    hide PoolOk, Obligations, Order, ConnsOk, Manager, OwnersAlive, ProtoCounts, ConnCounts, KnownMessages;
  }

  lemma AttachPaired(w: World, c: CId, p: PId)
    requires Known(w) && c in w.conns && p !in w.protos
    ensures Paired(Attach(w, c, p), c, p)
  {
    UnknownProto(w, p, true);
    hide Known;
  }

  // A packet that is not the first one is handed to the protocol.
  lemma ReadOnQuiet(w: World, c: CId, t: Option<bool>, asked: bool)
    requires Known(w) && Quiet(w, asked) && c in w.conns && w.conns[c].protocol.Some?
    requires w.conns[c].protocol.value in w.protos
    ensures Quiet(StartRead(TouchProtocol(w, w.conns[c].protocol.value), c, ReadingHeader, t), asked)
  {
    hide Known, Quiet, Still, Stays, StartRead, TouchProtocol;
    var w1 := TouchProtocol(w, w.conns[c].protocol.value);
    TouchStill(w, w.conns[c].protocol.value);
    StillQuiet(w, w1, asked);
    StartReadStays(w1, c, ReadingHeader, t);
    StaysQuiet(w1, StartRead(w1, c, ReadingHeader, t), asked);
  }

  lemma FirstPacketQuiet(w: World, c: CId, p: PId, first: FirstPacket, t: Option<bool>, asked: bool)
    requires AtRest(w) && Known(w) && Quiet(w, asked) && c in w.conns && w.conns[c].state == Open
    requires !w.conns[c].receivedFirst && p !in w.protos
    requires first.Rejected? ==> Taken(w.pool, first.newMsg) !in w.pool.owner
    ensures Quiet(DeliverStep(w, c, p, first, t), asked)
  {
    hide Known, Inv, Quiet, Still, Stays, Spare, Deliver, StartRead, Close, Paired;
    ConnOf(w, c);
    var r := Received(w, c);
    ReceivedSpare(w, c, asked);
    if w.conns[c].protocol.Some? {
      IsPaired(w, c);
      PairedKnown(r, c, w.conns[c].protocol.value);
      DeliverToQuiet(r, c, w.conns[c].protocol.value, first, t, asked);
    } else if first.NoService? {
      CloseStill(r, c);
      StillQuiet(r, Close(r, c), asked);
    } else {
      AttachQuiet(r, c, p, asked);
      AttachPaired(r, c, p);
      DeliverToQuiet(Attach(r, c, p), c, p, first, t, asked);
    }
  }

  lemma PairedKnown(w: World, c: CId, p: PId)
    requires Paired(w, c, p)
    ensures c in w.conns && p in w.protos
  {
  }

  lemma DeliverQuiet(w: World, c: CId, p: PId, first: FirstPacket, t: Option<bool>, asked: bool)
    requires AtRest(w) && Known(w) && Quiet(w, asked) && c in w.conns && w.conns[c].state == Open && p !in w.protos
    requires first.Rejected? ==> Taken(w.pool, first.newMsg) !in w.pool.owner
    ensures Quiet(DeliverStep(w, c, p, first, t), asked)
  {
    hide Known, Inv, Quiet, Still, Stays, Spare, Deliver, StartRead, Close, Paired;
    if w.conns[c].receivedFirst {
      ConnOf(w, c);
      LinkedProtocol(w, c);
      ReadOnQuiet(w, c, t, asked);
    } else {
      FirstPacketQuiet(w, c, p, first, t, asked);
    }
  }

  // ----- the handlers of io_context threads -----

  lemma HeaderQuiet(w: World, c: CId, e: Error, bad: bool, t: Option<bool>, asked: bool)
    requires Known(w) && Quiet(w, asked) && c in w.conns
    ensures Quiet(HeaderStep(w, c, e, bad, t), asked)
  {
    hide Known, Quiet, Still, Stays, StartRead, Close, ReadFailed;
    var w1 := TakeRead(w, c);
    SetStays(w, c, w1.conns[c]);
    StaysQuiet(w, w1, asked);
    ReadFailedStill(w1, c, e);
    SameStill(w1, w1);
    var w2 := if e != NoError || bad then ReadFailed(w1, c, e) else w1;
    StillQuiet(w1, w2, asked);
    CloseStill(w2, c);
    var w3 := CountDown(w2, c);
    SetStays(w2, c, w3.conns[c]);
    StaysQuiet(w2, w3, asked);
    StartReadStays(w3, c, ReadingPacket, t);
    StillQuiet(w2, Close(w2, c), asked);
    StaysQuiet(w3, StartRead(w3, c, ReadingPacket, t), asked);
  }

  lemma PacketQuiet(w: World, c: CId, e: Error, flood: bool, p: PId, first: FirstPacket, t: Option<bool>, asked: bool)
    requires AtRest(w) && Known(w) && Quiet(w, asked) && c in w.conns && p !in w.protos
    requires first.Rejected? ==> Taken(w.pool, first.newMsg) !in w.pool.owner
    ensures Quiet(PacketStep(w, c, e, flood, p, first, t), asked)
  {
    hide Known, Inv, Quiet, Still, Stays, DeliverStep, Close;
    ConnOf(w, c);
    var w1 := TakeRead(w, c);
    SetKeeps(w, c, w1.conns[c]);
    SetStays(w, c, w1.conns[c]);
    StaysQuiet(w, w1, asked);
    if e == NoError && ReadGoesOn(w1.conns[c]) && !flood {
      var w2 := CountDown(w1, c);
      SetKeeps(w1, c, w2.conns[c]);
      SetStays(w1, c, w2.conns[c]);
      StaysQuiet(w1, w2, asked);
      DeliverQuiet(w2, c, p, first, t, asked);
    } else {
      ReadFailedStill(w1, c, e);
      SameStill(w1, w1);
      var w2 := if e != NoError then ReadFailed(w1, c, e) else w1;
      StillQuiet(w1, w2, asked);
      CloseStill(w2, c);
      StillQuiet(w2, Close(w2, c), asked);
    }
  }

  lemma TakenQuiet(w: World, m: MId, asked: bool)
    requires Known(w) && Quiet(w, asked) && m in w.pool.owner
    ensures Quiet(TakeWritten(w, m), asked)
  {
    hide Known, ToSend;
  }

  lemma WrittenQuiet(w: World, m: MId, e: Error, asked: bool)
    requires Known(w) && Quiet(w, asked) && m in w.pool.owner && w.pool.owner[m].c in w.conns
    requires var c := w.conns[w.pool.owner[m].c]; c.state == Open ==> c.pendingWrite >= 1
    ensures Quiet(WrittenStep(w, m, e), asked)
  {
    hide Known, Quiet, Still, Stays, WriteResult, Drop;
    var c, w1 := w.pool.owner[m].c, TakeWritten(w, m);
    TakenQuiet(w, m, asked);
    WriteResultStill(w1, c, e);
    var w2 := WriteResult(w1, c, e);
    StillQuiet(w1, w2, asked);
    DropStill(w2, m);
    StillQuiet(w2, Drop(w2, m), asked);
  }

  // What the invariant says of the objects of a step
  lemma WriteCounted(w: World, m: MId)
    requires Inv(w) && m in w.pool.writes
    ensures m in w.pool.owner && w.pool.owner[m].c in w.conns
    ensures var c := w.conns[w.pool.owner[m].c]; c.state == Open ==> c.pendingWrite >= 1
  {
    hide Objects, Obligations, Order, Partition, Headers, OnePlace, PcOk;
  }

  lemma NewIsNotOwned(w: World, newMsg: MId)
    requires Inv(w) && NewMessage(w, newMsg)
    ensures Taken(w.pool, newMsg) !in w.pool.owner
  {
    hide Objects, Obligations, Order, Known, PoolOk;
    TakenIsFree(w, newMsg);
  }

  lemma TimeoutQuiet(w: World, c: CId, pending: int, failed: bool, asked: bool)
    requires Known(w) && Quiet(w, asked) && c in w.conns
    ensures Quiet(TimeoutStep(w, c, pending, failed), asked)
  {
    hide Known, Quiet, Still, Stays;
    DropSocketStill(w, c);
    StillQuiet(w, DropSocket(w, c), asked);
  }

  lemma StopQuiet(w: World, c: CId, asked: bool)
    requires Known(w) && Quiet(w, asked) && c in w.conns
    ensures Quiet(StopConn(w, c), asked)
  {
    hide Known, Quiet, Still, Stays, StopConn;
    StopStill(w, c);
    StillQuiet(w, StopConn(w, c), asked);
  }

  lemma NetQuiet(w: World, s: NetStep, asked: bool)
    requires AtRest(w) && Known(w) && NetEnabled(w, s) && Quiet(w, asked)
    ensures Quiet(NetNext(w, s), asked)
  {
    EnabledKnown(w, Net(s));
    hide Known, Inv, Quiet, AcceptStep, HeaderStep, PacketStep, WrittenStep, TimeoutStep, StopConn;
    match s {
      case Accept(c, single, t) => AcceptQuiet(w, c, single, t, asked);
      case ParseHeader(c, e, bad, t) => HeaderQuiet(w, c, e, bad, t, asked);
      case ParsePacket(c, e, flood, p, first, t) =>
        if first.Rejected? { NewIsNotOwned(w, first.newMsg); }
        PacketQuiet(w, c, e, flood, p, first, t, asked);
      case OnWrite(m, e) => WriteCounted(w, m); WrittenQuiet(w, m, e, asked);
      case ReadTimeout(c) => TimeoutQuiet(w, c, w.conns[c].pendingRead, w.conns[c].readError, asked);
      case WriteTimeout(c) => TimeoutQuiet(w, c, w.conns[c].pendingWrite, w.conns[c].writeError, asked);
      case OnStop(c) => StopQuiet(w, c, asked);
    }
  }

  // ----- the dispatcher and the scheduler -----

  // Only the dispatcher's own place changes, or tasks leave the queue.
  lemma PcQuiet(w: World, w': World, asked: bool, asked': bool)
    requires Quiet(w, asked)
    requires w'.conns == w.conns && w'.pool.owner == w.pool.owner
    requires w'.pool.autoSend == w.pool.autoSend && w'.pool.addQueue == w.pool.addQueue
    requires forall p :: ToSend(w'.tasks, w'.pc, p, asked') <= ToSend(w.tasks, w.pc, p, asked)
    requires HandOk(w', asked')
    ensures Quiet(w', asked')
  {
    hide ToSend, HandOk;
  }

  lemma GoToQuiet(w: World, pc: Pc, asked: bool, asked': bool)
    requires Known(w) && Quiet(w, asked) && !pc.Delegating? && !pc.Running?
    ensures Quiet(GoTo(w, pc), asked')
  {
    hide Known, Line;
    forall p ensures ToSend(w.tasks, pc, p, asked') <= ToSend(w.tasks, w.pc, p, asked) {
      LineCount(w.tasks, w.pc, p);
      LineCount(w.tasks, pc, p);
    }
    hide Quiet;
    PcQuiet(w, GoTo(w, pc), asked, asked');
  }

  lemma PopQuiet(w: World, asked: bool)
    requires Known(w) && Quiet(w, asked) && w.pc == Idle && w.tasks != []
    ensures Quiet(PopStep(w), asked)
  {
    hide Known;
    assert Line(w.tasks[1..], Running(w.tasks[0])) == Line(w.tasks, Idle);
    hide Quiet;
    PcQuiet(w, PopStep(w), asked, asked);
  }

  lemma FireQuiet(w: World, t: Task, asked: bool)
    requires Known(w) && Quiet(w, asked) && t in w.events && !t.Delegate?
    requires KnownTask(t, w.conns, w.protos, w.pool)
    ensures Quiet(FireStep(w, t), asked)
  {
    hide Known, Quiet, Still, Stays;
    var w1 := PushFront(w, t);
    PushStill(w, w1, t);
    StillQuiet(w, w1, asked);
    SameStill(w1, FireStep(w, t));
    StillQuiet(w1, FireStep(w, t), asked);
  }

  lemma EnterQuiet(w: World, p: PId, asked: bool)
    requires Known(w) && Quiet(w, asked) && p in w.protos && w.pc == Running(Delegate(p))
    ensures Quiet(Enter(w, p), false)
  {
    hide Known, Line;
    var w' := Enter(w, p);
    forall q ensures ToSend(w.tasks, w'.pc, q, false) <= ToSend(w.tasks, w.pc, q, asked) {
      LineCount(w.tasks, w.pc, q);
      LineCount(w.tasks, w'.pc, q);
    }
    hide Quiet;
    PcQuiet(w, w', asked, false);
  }

  lemma RunQuiet(w: World, t: Task, asked: bool)
    requires Known(w) && Quiet(w, asked) && w.pc == Running(t) && KnownTask(t, w.conns, w.protos, w.pool)
    ensures Quiet(RunStep(w, t), false)
  {
    hide Known, Quiet, Still, Stays, CloseConn, ReleaseConn, ReleaseProto, ReleaseMsg, Enter;
    var w0 := GoTo(w, SendQueued);
    GoToQuiet(w, SendQueued, asked, false);
    match t {
      case CloseConnection(c) =>
        var w1 := TouchConnection(w0, c);
        SameStill(w0, w1);
        CloseConnStill(w1, c);
        StillAgain(w0, w1, CloseConn(w1, c));
      case ReleaseConnection(c) =>
        var w1 := TouchConnection(w0, c);
        SameStill(w0, w1);
        ReleaseConnStill(w1, c);
        StillAgain(w0, w1, ReleaseConn(w1, c));
      case ReleaseProtocol(p) =>
        var w1 := TouchProtocol(w0, p);
        SameStill(w0, w1);
        ReleaseProtoStill(w1, p);
        StillAgain(w0, w1, ReleaseProto(w1, p));
      case InternalRelease(m) => ReleaseMsgStill(w0, m);
      case Delegate(p) =>
        TouchStill(w, p);
        StillQuiet(w, TouchProtocol(w, p), asked);
        EnterQuiet(TouchProtocol(w, p), p, asked);
    }
    if !t.Delegate? {
      StillQuiet(w0, RunStep(w, t), false);
    }
  }

  // The connection that a message of the delegate is for
  lemma DelegateConn(w: World)
    requires Inv(w) && w.pc.Delegating? && w.pc.p in w.protos
    ensures CanAlloc(w, w.pc.p) && w.protos[w.pc.p].connection.value in w.conns
    ensures w.conns[w.protos[w.pc.p].connection.value].protocol == Some(w.pc.p)
  {
    hide Known, Objects, PoolOk, Obligations, Order;
    DelegateFinds(w, w.pc.p);
    AttachedLives(w, w.pc.p);
  }

  lemma GetQuiet(w: World, newMsg: MId)
    requires Inv(w) && Known(w) && Quiet(w, false) && w.pc.Delegating? && w.pc.hand == Empty
    requires w.pc.p in w.protos && NewMessage(w, newMsg)
    ensures Quiet(GetStep(w, w.pc.p, false, newMsg), true)
  {
    hide Known, Inv, Quiet, Still, Stays, Loads, TouchProtocol;
    var p := w.pc.p;
    var w1 := TouchProtocol(w, p);
    NewIsNotOwned(w, newMsg);
    DelegateConn(w);
    TouchStill(w, p);
    StillQuiet(w, w1, false);
    TakeQuiet(w1, newMsg);
  }

  lemma TakeQuiet(w: World, newMsg: MId)
    requires Known(w) && Quiet(w, false) && w.pc.Delegating? && w.pc.hand == Empty && w.pc.p in w.protos
    requires CanAlloc(w, w.pc.p) && w.protos[w.pc.p].connection.value in w.conns
    requires Taken(w.pool, newMsg) !in w.pool.owner
    requires w.conns[w.protos[w.pc.p].connection.value].protocol == Some(w.pc.p)
    ensures Quiet(TakeInHand(Alloc(w, w.pc.p, false, newMsg), Taken(w.pool, newMsg), false), true)
  {
    hide Known, Quiet, Still, Stays;
    var w1 := Alloc(w, w.pc.p, false, newMsg);
    AllocStill(w, w.pc.p, newMsg);
    StillQuiet(w, w1, false);
    PcQuiet(w1, TakeInHand(w1, Taken(w.pool, newMsg), false), false, true);
  }

  lemma HandedQuiet(w: World)
    requires Known(w) && Inv(w) && Quiet(w, true) && w.pc.Delegating? && w.pc.hand.Unsent?
    ensures w.pc.hand.m in w.pool.owner
    ensures Quiet(Handed(w), true) && Spare(Handed(w), w.pool.owner[w.pc.hand.m].c, true)
  {
    hide Known, Line, Inv;
    var w', p := Handed(w), w.pc.p;
    forall q ensures ToSend(w.tasks, w.pc, q, true) ==
      ToSend(w.tasks, w'.pc, q, true) + if q == p then 1 else 0
    {
      LineCount(w.tasks, w.pc, q);
      LineCount(w.tasks, w'.pc, q);
    }
    var c := w.pool.owner[w.pc.hand.m].c;
    if c in w.conns {
      ConnOf(w, c);
    }
  }

  lemma SendStepQuiet(w: World, threw: bool, forceSlow: bool, asked: bool)
    requires Known(w) && Inv(w) && Quiet(w, asked) && w.pc.Delegating? && w.pc.hand.Unsent?
    ensures Quiet(SendStep(w, threw, forceSlow), asked)
  {
    assert asked;
    HandedQuiet(w);
    hide Known, Inv, Quiet, Spare, Send;
    SendQuiet(Handed(w), w.pc.hand.m, threw, forceSlow, asked);
  }

  lemma EmptyHandQuiet(w: World, asked: bool)
    requires Known(w) && Quiet(w, asked) && w.pc.Delegating? && w.pc.hand.Sent? && w.pc.hand.m in w.pool.header
    ensures Quiet(EmptyHand(w), asked)
  {
    hide Known, Quiet, Still, Stays, LetGo;
    var w1 := LetHandGo(w);
    PcQuiet(w, w1, asked, asked);
    LetGoStill(w1, w.pc.hand.m);
    StillQuiet(w1, EmptyHand(w), asked);
  }

  lemma MarkedQuiet(w: World, asked: bool)
    requires Known(w) && Quiet(w, asked) && w.pc.Delegating?
    ensures Quiet(Marked(w), asked)
  {
    hide Known;
    PcQuiet(w, Marked(w), asked, asked);
  }

  lemma CloseStepQuiet(w: World, asked: bool)
    requires Known(w) && Quiet(w, asked) && w.pc.Delegating? && w.pc.p in w.protos
    ensures Quiet(CloseStep(w), asked)
  {
    hide Known, Quiet, Still, Stays, CloseOf;
    var p := w.pc.p;
    var w1 := TouchProtocol(w, p);
    TouchStill(w, p);
    CloseOfStill(w1, p);
    StillAgain(w, w1, CloseOf(w1, p));
    StillQuiet(w, CloseOf(w1, p), asked);
    MarkedQuiet(CloseOf(w1, p), asked);
  }

  // With empty queues sendAll has nothing to move, frame or send.
  lemma SendAllIdle(w: World, s: WorkStep, asked: bool)
    requires Quiet(w, asked) && WorkEnabled(w, s)
    ensures !s.MoveQueued? && !s.SendFront?
  {
  }

  lemma SafeEvent(w: World, t: Task)
    requires Inv(w) && t in w.events
    ensures !t.Delegate? && KnownTask(t, w.conns, w.protos, w.pool)
  {
    hide Objects, PoolOk, Obligations, Delegates;
  }

  lemma HandKnown(w: World)
    requires Known(w) && w.pc.Delegating? && w.pc.hand.Sent?
    ensures w.pc.hand.m in w.pool.header
  {
  }

  lemma WorkQuiet(w: World, s: WorkStep, asked: bool)
    requires AtRest(w) && Known(w) && WorkEnabled(w, s) && Quiet(w, asked) && AsksAsLogin(Work(s), asked)
    requires !s.MoveQueued? && !s.SendFront?
    ensures Quiet(WorkNext(w, s), AskedAfter(Work(s), asked))
  {
    EnabledKnown(w, Work(s));
    hide Known, Inv, Quiet, RunStep, GetStep, SendStep, CloseStep, EmptyHand;
    match s {
      case ScheduledEvent(t) => SafeEvent(w, t); FireQuiet(w, t, asked);
      case PopTask => PopQuiet(w, asked);
      case RunTask => RunQuiet(w, w.pc.task, asked);
      case GetMessage(_, newMsg) => GetQuiet(w, newMsg);
      case SendMessage(threw, forceSlow) => SendStepQuiet(w, threw, forceSlow, asked);
      case DropMessage => HandKnown(w); EmptyHandQuiet(w, asked);
      case CloseClient => CloseStepQuiet(w, asked);
      case LeaveDelegate => GoToQuiet(w, SendQueued, asked, asked);
      case QueueMoved => GoToQuiet(w, SendAuto, asked, asked);
      case SendAllDone => GoToQuiet(w, Idle, asked, asked);
    }
  }

  // A step of the login server keeps the queues empty, and is not one of sendAll's.
  lemma StepQuiet(w: World, s: Step, asked: bool)
    requires AtRest(w) && Known(w) && Enabled(w, s) && Quiet(w, asked) && AsksAsLogin(s, asked)
    ensures Quiet(Next(w, s), AskedAfter(s, asked))
    ensures s.Work? ==> !s.work.MoveQueued? && !s.work.SendFront?
  {
    hide Known, AtRest, Quiet, NetNext, WorkNext, AsksAsLogin;
    match s {
      case Net(n) => NetQuiet(w, n, asked);
      case Work(k) =>
        SendAllIdle(w, k, asked);
        WorkQuiet(w, k, asked);
    }
  }

  // ----- over whole runs -----

  lemma StartQuiet()
    ensures Quiet(START, false)
  {
  }

  lemma CalmQuiet(w: World, asked: bool)
    ensures Quiet(Calm(w), asked) <==> Quiet(w, asked)
  {
    hide ToSend;
  }

  lemma {:induction false} RunStaysQuiet(ws: seq<World>, ss: seq<Step>, i: nat)
    requires IsRun(ws, ss) && LoginSteps(ss) && i < |ws|
    ensures Quiet(Calm(ws[i]), HasAsked(ss, i))
  {
    hide AtRest, Known, Enabled, Next, Quiet, AsksAsLogin, AskedAfter;
    if i == 0 {
      StartQuiet();
      CalmQuiet(START, false);
    } else {
      RunStaysQuiet(ws, ss, i - 1);
      RunAtRest(ws, ss, i - 1);
      assert StepOf(ws[i - 1], ss[i - 1], ws[i]);
      StepQuiet(Calm(ws[i - 1]), ss[i - 1], HasAsked(ss, i - 1));
      CalmQuiet(ws[i], HasAsked(ss, i));
    }
  }

  // Whatever the clients do, no message of the login protocol ever waits in the pool.
  lemma LoginQueuesEmpty(ws: seq<World>, ss: seq<Step>, i: nat)
    requires IsRun(ws, ss) && LoginSteps(ss) && i < |ws|
    ensures ws[i].pool.autoSend == [] && ws[i].pool.addQueue == []
  {
    hide IsRun, LoginSteps, Loads, HandOk;
    RunStaysQuiet(ws, ss, i);
  }

  // So sendAll, which holds the lock of the pool, never frames and never calls Connection::send,
  // which takes the lock of a connection.
  lemma SendAllSendsNothing(ws: seq<World>, ss: seq<Step>, i: nat)
    requires IsRun(ws, ss) && LoginSteps(ss) && i < |ss| && ss[i].Work?
    ensures !ss[i].work.MoveQueued? && !ss[i].work.SendFront?
  {
    hide IsRun, LoginSteps, Quiet, Next, Known, WorkEnabled;
    StepAt(ws, ss, i);
    RunStaysQuiet(ws, ss, i);
    SendAllIdle(Calm(ws[i]), ss[i].work, HasAsked(ss, i));
  }

  // The delegate's message is written at once, or refused because its connection is closing.
  lemma LoginSendsAtOnce(ws: seq<World>, ss: seq<Step>, i: nat)
    requires IsRun(ws, ss) && LoginSteps(ss) && i < |ss| && ss[i].Work? && ss[i].work.SendMessage?
    ensures ws[i].pc.Delegating? && ws[i].pc.hand.Unsent? && ws[i].pc.hand.m in ws[i].pool.owner
    ensures var c := ws[i].pool.owner[ws[i].pc.hand.m].c;
      c in ws[i].conns &&
      var way := SendChoice(ws[i].conns[c], ss[i].work.forceSlow); way == Refused || way == WriteNow
  {
    hide IsRun, LoginSteps, StepOf, AtRest, Quiet, SendChoice;
    StepAt(ws, ss, i);
    RunStaysQuiet(ws, ss, i);
    RunAtRest(ws, ss, i);
    SendSpare(ws[i], ss[i], ws[i + 1], HasAsked(ss, i));
  }

  lemma SendSpare(w: World, s: Step, w': World, asked: bool)
    requires AtRest(Calm(w)) && Quiet(Calm(w), asked) && StepOf(w, s, w') && s.Work? && s.work.SendMessage?
    ensures w.pc.Delegating? && w.pc.hand.Unsent? && w.pc.hand.m in w.pool.owner
    ensures var c := w.pool.owner[w.pc.hand.m].c;
      c in w.conns && var way := SendChoice(w.conns[c], s.work.forceSlow); way == Refused || way == WriteNow
  {
    hide Known, Inv, Quiet, SendChoice, Next;
    HandSpare(Calm(w), s.work.forceSlow, asked);
  }

  lemma HandSpare(w: World, forceSlow: bool, asked: bool)
    requires Known(w) && Inv(w) && Quiet(w, asked) && w.pc.Delegating? && w.pc.hand.Unsent?
    ensures w.pc.hand.m in w.pool.owner
    ensures var c := w.pool.owner[w.pc.hand.m].c;
      c in w.conns && var way := SendChoice(w.conns[c], forceSlow); way == Refused || way == WriteNow
  {
    hide Inv;
    assert asked;
    HandedQuiet(w);
    hide Quiet, Known, Spare;
    OwnerKnown(w, w.pc.hand.m);
    AtOnce(Handed(w), w.pool.owner[w.pc.hand.m].c, forceSlow, true);
  }

  // While a message is being written on an open connection, no delegate has another one for it.
  lemma OneMessageEach(ws: seq<World>, ss: seq<Step>, i: nat, c: CId, p: PId)
    requires IsRun(ws, ss) && LoginSteps(ss) && i < |ws| && c in ws[i].conns
    requires ws[i].conns[c].state == Open && ws[i].conns[c].protocol == Some(p) && ws[i].conns[c].pendingWrite > 0
    ensures Delegate(p) !in ws[i].tasks && ws[i].pc != Running(Delegate(p))
    ensures ws[i].pc.Delegating? && ws[i].pc.p == p ==> !ws[i].pc.hand.Unsent?
  {
    hide IsRun, LoginSteps, HandOk, Line;
    RunStaysQuiet(ws, ss, i);
    LineCount(ws[i].tasks, ws[i].pc, p);
  }
}
