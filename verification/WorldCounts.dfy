/** m_pendingWrite and m_pendingRead are what they say: as long as starting an asynchronous operation
    does not throw, an open connection's counters are the numbers of its outstanding operations. */
module WorldCounts {
  import opened Wrappers
  import opened ConnectionState
  import opened World
  import opened WorldSteps
  import opened WorldInvariant
  import opened WorldPoolProofs
  import opened WorldRuns
  import opened WorldForward
  import opened WorldStill
  import opened WorldTheorems

  // What is claimed of a run: nothing throws when a write is started, or when a read is.
  datatype Claim = Claim(write: bool, read: bool)

  predicate Keeps(s: Step, k: Claim) {
    && (k.write ==> !WriteThrows(s)) && (k.read ==> !ReadThrows(s))
  }

  predicate WriteThrows(s: Step) {
    match s
    case Net(ParsePacket(_, _, _, _, Rejected(_, threw, _), _)) => threw
    case Work(SendMessage(threw, _)) => threw
    case Work(SendFront(threw, _)) => threw
    case _ => false
  }

  predicate ReadThrows(s: Step) {
    match s
    case Net(Accept(_, _, t)) => t.Some?
    case Net(ParseHeader(_, _, _, t)) => t.Some?
    case Net(ParsePacket(_, _, _, _, _, t)) => t.Some?
    case _ => false
  }

  ghost predicate WriteOut(pool: Pool, c: CId) {
    exists m :: m in pool.writes && m in pool.owner && pool.owner[m].c == c
  }

  // A counted write is outstanding; for `but` that is left open.
  ghost predicate Backed(w: World, but: Option<CId>) {
    forall c :: c in w.conns && w.conns[c].state == Open && w.conns[c].pendingWrite > 0 && but != Some(c) ==>
      WriteOut(w.pool, c)
  }

  predicate OneRead(c: Conn) { c.pendingRead == 1 && c.reading != NotReading }

  // Every open connection is being read from; `but` counts n reads.
  ghost predicate Readers(w: World, but: Option<CId>, n: int) {
    forall c :: c in w.conns && w.conns[c].state == Open ==>
      if but == Some(c) then w.conns[c].pendingRead == n else OneRead(w.conns[c])
  }

  // `but` is the connection whose read handler is running, if any, and n the reads it counts.
  ghost predicate Counted(w: World, k: Claim, but: Option<CId>, n: int) {
    (k.write ==> Backed(w, None)) && (k.read ==> Readers(w, but, n))
  }

  // ----- operations that send nothing -----

  lemma StaysBacked(w: World, w': World, but: Option<CId>)
    requires Backed(w, but) && Stays(w, w')
    ensures Backed(w', but)
  {
    forall c | c in w'.conns && w'.conns[c].state == Open && w'.conns[c].pendingWrite > 0 && but != Some(c)
      ensures WriteOut(w'.pool, c)
    {
      assert WriteOut(w.pool, c);
    }
  }

  lemma StillCounted(w: World, w': World, k: Claim, but: Option<CId>, n: int)
    requires Counted(w, k, but, n) && Still(w, w')
    ensures Counted(w', k, but, n)
  {
    if k.write { StaysBacked(w, w', None); }
    hide Backed;
  }

  lemma SameCounted(w: World, w': World, k: Claim, but: Option<CId>, n: int)
    requires Counted(w, k, but, n)
    requires w'.conns == w.conns && w'.pool.owner == w.pool.owner && w'.pool.writes == w.pool.writes
    ensures Counted(w', k, but, n)
  {
  }

  // A read handler of c begins, ends without another read, or starts one.
  lemma TakeReadCounts(w: World, k: Claim, c: CId)
    requires Known(w) && Counted(w, k, None, 0) && c in w.conns
    ensures Counted(TakeRead(w, c), k, Some(c), 1)
  {
    hide Known;
    if k.write {
      SetStays(w, c, w.conns[c].(reading := NotReading));
      StaysBacked(w, TakeRead(w, c), None);
    }
    hide Backed;
  }

  lemma CountDownCounts(w: World, k: Claim, c: CId)
    requires Known(w) && Counted(w, k, Some(c), 1) && c in w.conns
    ensures Counted(CountDown(w, c), k, Some(c), 0)
  {
    hide Known;
    if k.write {
      SetStays(w, c, w.conns[c].(pendingRead := w.conns[c].pendingRead - 1));
      StaysBacked(w, CountDown(w, c), None);
    }
    hide Backed;
  }

  lemma ClosedCounts(w: World, k: Claim, c: CId, n: int)
    requires Counted(w, k, Some(c), n) && (c in w.conns ==> w.conns[c].state != Open)
    ensures Counted(w, k, None, 0)
  {
  }

  lemma CloseCounts(w: World, k: Claim, c: CId, n: int)
    requires Known(w) && Counted(w, k, Some(c), n) && c in w.conns
    ensures Counted(Close(w, c), k, None, 0)
  {
    hide Known, Counted, Still;
    CloseStill(w, c);
    StillCounted(w, Close(w, c), k, Some(c), n);
    ClosedCounts(Close(w, c), k, c, n);
  }

  lemma StartReadCounts(w: World, k: Claim, c: CId, kind: Reading, t: Option<bool>)
    requires Known(w) && Counted(w, k, Some(c), 0) && c in w.conns && kind != NotReading && (k.read ==> t == None)
    ensures Counted(StartRead(w, c, kind, t), k, None, 0)
  {
    hide Known, Stays;
    if k.write {
      StartReadStays(w, c, kind, t);
      StaysBacked(w, StartRead(w, c, kind, t), None);
    }
    hide Backed;
  }

  // ----- new objects -----

  lemma CreateCounts(w: World, k: Claim, c: CId)
    requires Known(w) && Counted(w, k, None, 0) && c !in w.conns
    ensures Counted(Create(w, c), k, Some(c), 0)
  {
    hide Known, WriteOut;
  }

  lemma AttachCounts(w: World, k: Claim, c: CId, p: PId)
    requires Known(w) && Counted(w, k, Some(c), 0) && c in w.conns
    ensures Counted(Attach(w, c, p), k, Some(c), 0)
  {
    hide Known, WriteOut;
  }

  lemma AcceptCounts(w: World, k: Claim, c: CId, single: Option<PId>, t: Option<bool>)
    requires Known(w) && Counted(w, k, None, 0) && c !in w.conns && (k.read ==> t == None)
    ensures Counted(AcceptStep(w, c, single, t), k, None, 0)
  {
    hide Known, Counted, StartRead;
    CreateCounts(w, k, c);
    var w1 := Create(w, c);
    if single.Some? {
      AttachCounts(w1, k, c, single.value);
    }
    var w2 := if single.Some? then Attach(w1, c, single.value) else w1;
    StartReadCounts(w2, k, c, ReadingHeader, t);
  }

  // ----- sending -----

  lemma SendCounted(w: World, m: MId, threw: bool, forceSlow: bool, k: Claim, but: Option<CId>, n: int)
    requires Known(w) && Counted(w, k, but, n) && m in w.pool.owner && (k.write ==> !threw)
    ensures Counted(Send(w, m, threw, forceSlow), k, but, n)
  {
    hide Known, Counted, Still, Frame, StartWrite, Close;
    OwnerKnown(w, m);
    var c := w.pool.owner[m].c;
    var w1 := Frame(TouchProtocol(w, w.pool.owner[m].p), m);
    FrameStill(w, m);
    StillCounted(w, w1, k, but, n);
    match SendChoice(w.conns[c], forceSlow) {
      case Refused =>
      case WriteNow => StartWriteCounted(w1, m, threw, k, but, n);
      case ForceClose =>
        var w2 := Raise(w, SlowConnection(c));
        SameCounted(w, w2, k, but, n);
        CloseStill(w2, c);
        StillCounted(w2, Close(w2, c), k, but, n);
      case Queue => SameCounted(w, Send(w, m, threw, forceSlow), k, but, n);
    }
  }

  lemma StartWriteCounted(w: World, m: MId, threw: bool, k: Claim, but: Option<CId>, n: int)
    requires Known(w) && Counted(w, k, but, n) && m in w.pool.owner && w.pool.owner[m].c in w.conns
    requires k.write ==> !threw
    ensures Counted(StartWrite(w, m, threw), k, but, n)
  {
    hide Known;
    var w', c := StartWrite(w, m, threw), w.pool.owner[m].c;
    if k.write {
      forall x | x in w'.conns && w'.conns[x].state == Open && w'.conns[x].pendingWrite > 0
        ensures WriteOut(w'.pool, x)
      {
        if x == c {
          assert m in w'.pool.writes;
        } else {
          assert WriteOut(w.pool, x);
        }
      }
    }
    hide WriteOut;
  }

  lemma AllocCounted(w: World, p: PId, auto: bool, newMsg: MId, k: Claim, but: Option<CId>, n: int)
    requires Known(w) && Counted(w, k, but, n) && p in w.protos && CanAlloc(w, p)
    requires Taken(w.pool, newMsg) !in w.pool.owner
    ensures Counted(Alloc(w, p, auto, newMsg), k, but, n)
  {
    hide Known, Counted, Still;
    var w1 := Alloc(w, p, false, newMsg);
    AllocStill(w, p, newMsg);
    StillCounted(w, w1, k, but, n);
    SameCounted(w1, Alloc(w, p, auto, newMsg), k, but, n);
  }

  lemma DropCounted(w: World, m: MId, k: Claim, but: Option<CId>, n: int)
    requires Known(w) && Counted(w, k, but, n) && m in w.pool.owner
    ensures Counted(Drop(w, m), k, but, n)
  {
    hide Known, Counted, Still;
    DropStill(w, m);
    StillCounted(w, Drop(w, m), k, but, n);
  }

  lemma CloseOfCounted(w: World, p: PId, k: Claim, but: Option<CId>, n: int)
    requires Known(w) && Counted(w, k, but, n) && p in w.protos
    ensures Counted(CloseOf(w, p), k, but, n)
  {
    hide Known, Counted, Still;
    CloseOfStill(w, p);
    StillCounted(w, CloseOf(w, p), k, but, n);
  }

  lemma DisconnectCounted(w: World, p: PId, newMsg: MId, threw: bool, forceSlow: bool, k: Claim, c: CId)
    requires Known(w) && Counted(w, k, Some(c), 0) && p in w.protos && Taken(w.pool, newMsg) !in w.pool.owner
    requires k.write ==> !threw
    ensures Counted(Disconnect(w, p, newMsg, threw, forceSlow), k, Some(c), 0)
  {
    hide Known, Counted, Drop, Send, CloseOf;
    if CanAlloc(w, p) {
      ConnKnown(w, p);
      var m := Taken(w.pool, newMsg);
      var w1 := Alloc(w, p, false, newMsg);
      AllocCounted(w, p, false, newMsg, k, Some(c), 0);
      var w2 := Send(w1, m, threw, forceSlow);
      SendCounted(w1, m, threw, forceSlow, k, Some(c), 0);
      CloseOfCounted(w2, p, k, Some(c), 0);
      DropCounted(CloseOf(w2, p), m, k, Some(c), 0);
    } else {
      CloseOfCounted(w, p, k, Some(c), 0);
    }
  }

  // ----- the first packet -----

  lemma DeliverToCounts(w: World, c: CId, p: PId, first: FirstPacket, t: Option<bool>, k: Claim)
    requires Known(w) && Counted(w, k, Some(c), 0) && c in w.conns && p in w.protos && (k.read ==> t == None)
    requires first.Rejected? ==> Taken(w.pool, first.newMsg) !in w.pool.owner && (k.write ==> !first.threw)
    ensures Counted(Deliver(w, c, p, first, t), k, None, 0)
  {
    hide Known, Counted, Disconnect, CloseOf, StartRead;
    var w1 := TouchProtocol(w, p);
    SameCounted(w, w1, k, Some(c), 0);
    var w2 := FirstMessage(w1, p, first);
    match first {
      case NoService =>
      case BadKey => CloseOfCounted(w1, p, k, Some(c), 0);
      case Rejected(newMsg, threw, forceSlow) => DisconnectCounted(w1, p, newMsg, threw, forceSlow, k, c);
      case Accepted => SameCounted(w1, w2, k, Some(c), 0);
    }
    hide FirstMessage;
    if c in w2.conns {
      StartReadCounts(w2, k, c, ReadingHeader, t);
    } else {
      ClosedCounts(w2, k, c, 0);
    }
  }

  lemma ReceivedCounted(w: World, c: CId, k: Claim)
    requires Known(w) && Counted(w, k, Some(c), 0) && c in w.conns
    ensures Counted(Received(w, c), k, Some(c), 0)
  {
    hide Known, Counted, Still;
    SetStill(w, c, w.conns[c].(receivedFirst := true));
    StillCounted(w, Received(w, c), k, Some(c), 0);
  }

  lemma DeliverCounts(w: World, c: CId, p: PId, first: FirstPacket, t: Option<bool>, k: Claim)
    requires Known(w) && Counted(w, k, Some(c), 0) && c in w.conns && (k.read ==> t == None)
    requires first.Rejected? ==> Taken(w.pool, first.newMsg) !in w.pool.owner && (k.write ==> !first.threw)
    ensures Counted(DeliverStep(w, c, p, first, t), k, None, 0)
  {
    hide Known, Counted, Deliver, StartRead, Close;
    if w.conns[c].protocol.Some? {
      LinkKnown(w, c);
    }
    var r := Received(w, c);
    ReceivedCounted(w, c, k);
    if w.conns[c].receivedFirst {
      var w1 := if w.conns[c].protocol.Some? then TouchProtocol(w, w.conns[c].protocol.value)
                else Raise(w, NullProtocolUsed(c));
      SameCounted(w, w1, k, Some(c), 0);
      StartReadCounts(w1, k, c, ReadingHeader, t);
    } else if w.conns[c].protocol.None? && first.NoService? {
      CloseCounts(r, k, c, 0);
    } else if w.conns[c].protocol.Some? {
      DeliverToCounts(r, c, w.conns[c].protocol.value, first, t, k);
    } else {
      AttachCounts(r, k, c, p);
      DeliverToCounts(Attach(r, c, p), c, p, first, t, k);
    }
  }

  // ----- the handlers of io_context threads -----

  lemma HeaderCounts(w: World, c: CId, e: Error, bad: bool, t: Option<bool>, k: Claim)
    requires Known(w) && Counted(w, k, None, 0) && c in w.conns && (k.read ==> t == None)
    ensures Counted(HeaderStep(w, c, e, bad, t), k, None, 0)
  {
    hide Known, Counted, Still, StartRead, Close;
    var w1 := TakeRead(w, c);
    TakeReadCounts(w, k, c);
    SameStill(w1, w1);
    ReadFailedStill(w1, c, e);
    var w2 := if e != NoError || bad then ReadFailed(w1, c, e) else w1;
    StillCounted(w1, w2, k, Some(c), 1);
    CloseCounts(w2, k, c, 1);
    CountDownCounts(w2, k, c);
    StartReadCounts(CountDown(w2, c), k, c, ReadingPacket, t);
  }

  lemma PacketCounts(w: World, c: CId, e: Error, flood: bool, p: PId, first: FirstPacket, t: Option<bool>, k: Claim)
    requires Known(w) && Counted(w, k, None, 0) && c in w.conns && p !in w.protos && (k.read ==> t == None)
    requires first.Rejected? ==> Taken(w.pool, first.newMsg) !in w.pool.owner && (k.write ==> !first.threw)
    ensures Counted(PacketStep(w, c, e, flood, p, first, t), k, None, 0)
  {
    hide Known, Counted, Still, DeliverStep, Close;
    var w1 := TakeRead(w, c);
    TakeReadCounts(w, k, c);
    if e != NoError {
      ReadFailedStill(w1, c, e);
      StillCounted(w1, ReadFailed(w1, c, e), k, Some(c), 1);
      CloseCounts(ReadFailed(w1, c, e), k, c, 1);
    } else {
      CloseCounts(w1, k, c, 1);
      CountDownCounts(w1, k, c);
      DeliverCounts(CountDown(w1, c), c, p, first, t, k);
    }
  }

  // The write whose handler runs is no longer outstanding; its connection's count is put right below.
  lemma TakenBacked(w: World, m: MId)
    requires Known(w) && Backed(w, None) && m in w.pool.owner
    ensures Backed(TakeWritten(w, m), Some(w.pool.owner[m].c))
  {
    hide Known;
    var w' := TakeWritten(w, m);
    forall x | x in w'.conns && w'.conns[x].state == Open && w'.conns[x].pendingWrite > 0 && x != w.pool.owner[m].c
      ensures WriteOut(w'.pool, x)
    {
      var o :| o in w.pool.writes && o in w.pool.owner && w.pool.owner[o].c == x;
      assert o in w'.pool.writes;
    }
  }

  // One write less, or the connection is not open any more
  lemma ResultCounts(w: World, c: CId, e: Error)
    requires Known(w) && c in w.conns && (w.conns[c].state == Open ==> w.conns[c].pendingWrite == 1)
    ensures Still(w, WriteResult(w, c, e)) && c in WriteResult(w, c, e).conns
    ensures var d := WriteResult(w, c, e).conns[c]; d.state == Open ==> d.pendingWrite == 0
  {
    hide Known, Still;
    WriteResultStill(w, c, e);
  }

  lemma WrittenCounts(w: World, m: MId, e: Error, k: Claim)
    requires Known(w) && Counted(w, k, None, 0) && m in w.pool.owner && w.pool.owner[m].c in w.conns
    requires var c := w.conns[w.pool.owner[m].c]; c.state == Open ==> c.pendingWrite == 1
    ensures Counted(WrittenStep(w, m, e), k, None, 0)
  {
    hide Known, Still, WriteResult, Drop, Backed, Readers;
    var c, w1 := w.pool.owner[m].c, TakeWritten(w, m);
    ResultCounts(w1, c, e);
    var w2 := WriteResult(w1, c, e);
    if k.write {
      TakenBacked(w, m);
      StillStays(w1, w2);
      StaysBacked(w1, w2, Some(c));
      AllBacked(w2, c);
    }
    if k.read {
      SameReaders(w, w1);
      StillCounted(w1, w2, Claim(false, true), None, 0);
    }
    DropCounted(w2, m, k, None, 0);
  }

  lemma SameReaders(w: World, w': World)
    requires Readers(w, None, 0) && w'.conns == w.conns
    ensures Readers(w', None, 0)
  {
  }

  lemma AllBacked(w: World, c: CId)
    requires Backed(w, Some(c)) && (c in w.conns && w.conns[c].state == Open ==> w.conns[c].pendingWrite == 0)
    ensures Backed(w, None)
  {
    hide WriteOut;
  }

  // The invariant: a write that is outstanding on an open connection is the one it counts.
  lemma OneCounted(w: World, m: MId)
    requires Inv(w) && m in w.pool.writes
    ensures m in w.pool.owner && w.pool.owner[m].c in w.conns
    ensures var c := w.conns[w.pool.owner[m].c]; c.state == Open ==> c.pendingWrite == 1
  {
    hide Objects, Obligations, Order, Partition, Headers, OnePlace, PcOk;
  }

  lemma TakenNew(w: World, newMsg: MId)
    requires Inv(w) && NewMessage(w, newMsg)
    ensures Taken(w.pool, newMsg) !in w.pool.owner
  {
    hide Objects, Obligations, Order, Known, PoolOk;
    TakenIsFree(w, newMsg);
  }

  lemma RejectedNew(w: World, first: FirstPacket)
    requires Inv(w) && (first.Rejected? ==> NewMessage(w, first.newMsg))
    ensures first.Rejected? ==> Taken(w.pool, first.newMsg) !in w.pool.owner
  {
    hide Inv;
    if first.Rejected? { TakenNew(w, first.newMsg); }
  }

  lemma StillStep(w: World, w': World, k: Claim)
    requires Counted(w, k, None, 0) && Still(w, w')
    ensures Counted(w', k, None, 0)
  {
    hide Counted, Still;
    StillCounted(w, w', k, None, 0);
  }

  lemma TimeoutCounts(w: World, c: CId, pending: int, failed: bool, k: Claim)
    requires Known(w) && Counted(w, k, None, 0) && c in w.conns
    ensures Counted(TimeoutStep(w, c, pending, failed), k, None, 0)
  {
    hide Known, Counted, Still;
    DropSocketStill(w, c);
    StillStep(w, DropSocket(w, c), k);
  }

  lemma StopCounts(w: World, c: CId, k: Claim)
    requires Known(w) && Counted(w, k, None, 0) && c in w.conns
    ensures Counted(StopConn(w, c), k, None, 0)
  {
    hide Known, Counted, Still, StopConn;
    StopStill(w, c);
    StillStep(w, StopConn(w, c), k);
  }

  // What a claim says of a step
  lemma KeepsWhat(s: Step, k: Claim)
    requires Keeps(s, k)
    ensures s.Net? && s.net.Accept? && k.read ==> s.net.readThrew == None
    ensures s.Net? && s.net.ParseHeader? && k.read ==> s.net.readThrew == None
    ensures s.Net? && s.net.ParsePacket? && k.read ==> s.net.readThrew == None
    ensures s.Net? && s.net.ParsePacket? && s.net.first.Rejected? && k.write ==> !s.net.first.threw
    ensures s.Work? && s.work.SendMessage? && k.write ==> !s.work.threw
    ensures s.Work? && s.work.SendFront? && k.write ==> !s.work.threw
  {
  }

  lemma NetCounts(w: World, s: NetStep, k: Claim)
    requires AtRest(w) && Known(w) && NetEnabled(w, s) && Counted(w, k, None, 0) && Keeps(Net(s), k)
    ensures Counted(NetNext(w, s), k, None, 0)
  {
    EnabledKnown(w, Net(s));
    KeepsWhat(Net(s), k);
    hide Keeps, Known, Inv, Counted, AcceptStep, HeaderStep, PacketStep, WrittenStep, TimeoutStep, StopConn;
    match s {
      case Accept(c, single, t) => AcceptCounts(w, k, c, single, t);
      case ParseHeader(c, e, bad, t) => HeaderCounts(w, c, e, bad, t, k);
      case ParsePacket(c, e, flood, p, first, t) =>
        RejectedNew(w, first);
        PacketCounts(w, c, e, flood, p, first, t, k);
      case OnWrite(m, e) => OneCounted(w, m); WrittenCounts(w, m, e, k);
      case ReadTimeout(c) => TimeoutCounts(w, c, w.conns[c].pendingRead, w.conns[c].readError, k);
      case WriteTimeout(c) => TimeoutCounts(w, c, w.conns[c].pendingWrite, w.conns[c].writeError, k);
      case OnStop(c) => StopCounts(w, c, k);
    }
  }

  // ----- the dispatcher and the scheduler -----

  lemma RunCounts(w: World, t: Task, k: Claim)
    requires Known(w) && Counted(w, k, None, 0) && KnownTask(t, w.conns, w.protos, w.pool)
    ensures Counted(RunStep(w, t), k, None, 0)
  {
    hide Known, Counted, Still, CloseConn, ReleaseConn, ReleaseProto, ReleaseMsg, Enter;
    var w0 := GoTo(w, SendQueued);
    SameCounted(w, w0, k, None, 0);
    match t {
      case CloseConnection(c) =>
        var w1 := TouchConnection(w0, c);
        SameStill(w0, w1);
        CloseConnStill(w1, c);
        StillAgain(w0, w1, CloseConn(w1, c));
      case ReleaseConnection(c) =>
        var w1 := TouchConnection(w0, c);
        SameStill(w0, w1);
        ReleaseConnStill(w1, c);
        StillAgain(w0, w1, ReleaseConn(w1, c));
      case ReleaseProtocol(p) =>
        var w1 := TouchProtocol(w0, p);
        SameStill(w0, w1);
        ReleaseProtoStill(w1, p);
        StillAgain(w0, w1, ReleaseProto(w1, p));
      case InternalRelease(m) => ReleaseMsgStill(w0, m);
      case Delegate(p) => EnterCounts(w, p, k);
    }
    if !t.Delegate? {
      StillStep(w0, RunStep(w, t), k);
    }
  }

  lemma EnterCounts(w: World, p: PId, k: Claim)
    requires Known(w) && Counted(w, k, None, 0) && p in w.protos
    ensures Counted(Enter(TouchProtocol(w, p), p), k, None, 0)
  {
    hide Known, Counted;
    SameCounted(w, Enter(TouchProtocol(w, p), p), k, None, 0);
  }

  lemma GetCounts(w: World, auto: bool, newMsg: MId, k: Claim)
    requires Inv(w) && Known(w) && Counted(w, k, None, 0) && w.pc.Delegating? && w.pc.p in w.protos
    requires NewMessage(w, newMsg)
    ensures Counted(GetStep(w, w.pc.p, auto, newMsg), k, None, 0)
  {
    hide Known, Inv, Counted;
    var p, w1 := w.pc.p, TouchProtocol(w, w.pc.p);
    TakenNew(w, newMsg);
    SameCounted(w, w1, k, None, 0);
    if CanAlloc(w1, p) {
      AllocCounted(w1, p, auto, newMsg, k, None, 0);
      SameCounted(Alloc(w1, p, auto, newMsg), GetStep(w, p, auto, newMsg), k, None, 0);
    }
  }

  lemma SendStepCounts(w: World, threw: bool, forceSlow: bool, k: Claim)
    requires Known(w) && Counted(w, k, None, 0) && w.pc.Delegating? && w.pc.hand.Unsent? && (k.write ==> !threw)
    ensures Counted(SendStep(w, threw, forceSlow), k, None, 0)
  {
    var w1 := Handed(w);
    assert w.pc.hand.m in w1.pool.owner;
    hide Known, Counted, Send;
    SameCounted(w, w1, k, None, 0);
    SendCounted(w1, w.pc.hand.m, threw, forceSlow, k, None, 0);
  }

  lemma EmptyHandCounts(w: World, k: Claim)
    requires Known(w) && Counted(w, k, None, 0) && w.pc.Delegating? && w.pc.hand.Sent?
    ensures Counted(EmptyHand(w), k, None, 0)
  {
    hide Known, Counted;
    SameCounted(w, EmptyHand(w), k, None, 0);
  }

  lemma CloseStepCounts(w: World, k: Claim)
    requires Known(w) && Counted(w, k, None, 0) && w.pc.Delegating? && w.pc.p in w.protos
    ensures Counted(CloseStep(w), k, None, 0)
  {
    hide Known, Counted, CloseOf;
    var p, w1 := w.pc.p, TouchProtocol(w, w.pc.p);
    SameCounted(w, w1, k, None, 0);
    CloseOfCounted(w1, p, k, None, 0);
    SameCounted(CloseOf(w1, p), CloseStep(w), k, None, 0);
  }

  lemma ExpireCounts(w: World, k: Claim)
    requires Known(w) && Counted(w, k, None, 0) && w.pool.addQueue != []
    ensures Counted(ExpireStep(w), k, None, 0)
  {
    hide Known, Counted, Still, Frame, Drop;
    QueuedOwner(w);
    var m := w.pool.addQueue[0];
    OwnerKnown(w, m);
    var w1 := TakeQueued(w);
    SameCounted(w, w1, k, None, 0);
    FrameStill(w1, m);
    var w2 := Frame(TouchProtocol(w1, w.pool.owner[m].p), m);
    StillStep(w1, w2, k);
    DropCounted(w2, m, k, None, 0);
  }

  lemma FrontCounts(w: World, threw: bool, forceSlow: bool, k: Claim)
    requires Known(w) && Counted(w, k, None, 0) && w.pool.autoSend != [] && (k.write ==> !threw)
    ensures Counted(FrontStep(w, threw, forceSlow), k, None, 0)
  {
    hide Known, Counted, Send, Drop;
    QueuedOwner(w);
    var m, w1 := w.pool.autoSend[0], TakeFront(w);
    SameCounted(w, w1, k, None, 0);
    SendCounted(w1, m, threw, forceSlow, k, None, 0);
    DropCounted(Send(w1, m, threw, forceSlow), m, k, None, 0);
  }

  lemma WorkCounts(w: World, s: WorkStep, k: Claim)
    requires AtRest(w) && Known(w) && WorkEnabled(w, s) && Counted(w, k, None, 0) && Keeps(Work(s), k)
    ensures Counted(WorkNext(w, s), k, None, 0)
  {
    EnabledKnown(w, Work(s));
    KeepsWhat(Work(s), k);
    hide Keeps, Known, Inv, Counted, RunStep, GetStep, SendStep, CloseStep, EmptyHand, ExpireStep, FrontStep;
    match s {
      case RunTask => RunCounts(w, w.pc.task, k);
      case GetMessage(auto, newMsg) => GetCounts(w, auto, newMsg, k);
      case SendMessage(threw, forceSlow) => SendStepCounts(w, threw, forceSlow, k);
      case DropMessage => EmptyHandCounts(w, k);
      case CloseClient => CloseStepCounts(w, k);
      case MoveQueued(dropIt, front) =>
        if dropIt { ExpireCounts(w, k); } else { SameCounted(w, WorkNext(w, s), k, None, 0); }
      case SendFront(threw, forceSlow) => FrontCounts(w, threw, forceSlow, k);
      case _ => SameCounted(w, WorkNext(w, s), k, None, 0);
    }
  }

  // Every step keeps the counters right, as long as it does not throw.
  lemma StepCounts(w: World, s: Step, k: Claim)
    requires AtRest(w) && Known(w) && Enabled(w, s) && Counted(w, k, None, 0) && Keeps(s, k)
    ensures Counted(Next(w, s), k, None, 0)
  {
    hide Known, AtRest, Counted, NetNext, WorkNext, Keeps;
    match s {
      case Net(n) => NetCounts(w, n, k);
      case Work(o) => WorkCounts(w, o, k);
    }
  }

  // ----- over whole runs -----

  predicate AllKeep(ss: seq<Step>, k: Claim) { forall i :: 0 <= i < |ss| ==> Keeps(ss[i], k) }

  lemma {:induction false} RunCounted(ws: seq<World>, ss: seq<Step>, i: nat, k: Claim)
    requires IsRun(ws, ss) && AllKeep(ss, k) && i < |ws|
    ensures Counted(Calm(ws[i]), k, None, 0)
  {
    hide AtRest, Known, Enabled, Next, Counted, Keeps;
    if i == 0 {
      StartCounts(k);
    } else {
      RunCounted(ws, ss, i - 1, k);
      RunAtRest(ws, ss, i - 1);
      assert StepOf(ws[i - 1], ss[i - 1], ws[i]);
      StepCounts(Calm(ws[i - 1]), ss[i - 1], k);
      SameCounted(ws[i], Calm(ws[i]), k, None, 0);
    }
  }

  lemma StartCounts(k: Claim)
    ensures Counted(Calm(START), k, None, 0)
  {
  }

  // The messages whose write on c is outstanding
  ghost function WritesOn(pool: Pool, c: CId): set<MId> {
    set m | m in pool.writes && m in pool.owner && pool.owner[m].c == c
  }

  // As long as no start of a write throws, m_pendingWrite of an open connection is the number of
  // writes that are outstanding on it.
  lemma PendingWritesExact(ws: seq<World>, ss: seq<Step>, i: nat, c: CId)
    requires IsRun(ws, ss) && i < |ws| && c in ws[i].conns && ws[i].conns[c].state == Open
    requires forall j :: 0 <= j < |ss| ==> !WriteThrows(ss[j])
    ensures ws[i].conns[c].pendingWrite == |WritesOn(ws[i].pool, c)|
  {
    hide IsRun, Readers, ReadThrows, WriteThrows;
    RunCounted(ws, ss, i, Claim(true, false));
    OneWriteEach(ws, ss, i, c, false);
    var on := WritesOn(ws[i].pool, c);
    forall n | n in on ensures WritesOf(ws[i], n, c) {
    }
    if ws[i].conns[c].pendingWrite > 0 {
      assert WriteOut(Calm(ws[i]).pool, c);
      var m :| m in ws[i].pool.writes && m in ws[i].pool.owner && ws[i].pool.owner[m].c == c;
      assert WritesOf(ws[i], m, c) && on == {m};
    } else {
      assert on == {};
    }
  }

  // As long as no start of a read throws, one read of each open connection is outstanding, and
  // m_pendingRead is 1.
  lemma OneReadEach(ws: seq<World>, ss: seq<Step>, i: nat, c: CId)
    requires IsRun(ws, ss) && i < |ws| && c in ws[i].conns && ws[i].conns[c].state == Open
    requires forall j :: 0 <= j < |ss| ==> !ReadThrows(ss[j])
    ensures ws[i].conns[c].pendingRead == 1 && ws[i].conns[c].reading != NotReading
  {
    hide IsRun, Backed, ReadThrows, WriteThrows;
    RunCounted(ws, ss, i, Claim(false, true));
  }

  // A write that completes on an open connection is counted down: none is counted and none is
  // outstanding then, so that a close of the connection finds nothing pending.
  lemma WriteCompletes(ws: seq<World>, ss: seq<Step>, i: nat, m: MId)
    requires IsRun(ws, ss) && i < |ss| && ss[i] == Net(OnWrite(m, NoError))
    ensures |ws| == |ss| + 1 && m in ws[i].pool.owner && ws[i].pool.owner[m].c in ws[i].conns
    ensures var c := ws[i].pool.owner[m].c;
      ws[i].conns[c].state == Open && !ws[i].conns[c].writeError ==>
        && c in ws[i + 1].conns && ws[i + 1].conns[c] == ws[i].conns[c].(pendingWrite := 0)
        && WritesOn(ws[i + 1].pool, c) == {} && ws[i].conns[c].pendingWrite == 1
  {
    hide IsRun, StepOf, Inv, Drop;
    StepAt(ws, ss, i);
    RunAtRest(ws, ss, i);
    CompletedStep(ws[i], ws[i + 1], m);
  }

  lemma CompletedStep(w: World, w': World, m: MId)
    requires AtRest(Calm(w)) && StepOf(w, Net(OnWrite(m, NoError)), w')
    ensures m in w.pool.owner && w.pool.owner[m].c in w.conns
    ensures var c := w.pool.owner[m].c;
      w.conns[c].state == Open && !w.conns[c].writeError ==>
        && c in w'.conns && w'.conns[c] == w.conns[c].(pendingWrite := 0)
        && WritesOn(w'.pool, c) == {} && w.conns[c].pendingWrite == 1
  {
    hide Known, Inv;
    OneCounted(Calm(w), m);
    OnlyWrite(Calm(w), m);
  }

  lemma OnlyWrite(w: World, m: MId)
    requires Inv(w) && m in w.pool.writes && m in w.pool.owner
    ensures WritesOn(w.pool, w.pool.owner[m].c) == {m}
  {
    hide Objects, Obligations, Order, Partition, Headers, OnePlace, PcOk;
  }
}
