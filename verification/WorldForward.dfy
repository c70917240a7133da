/** Nothing is undone: connection states only move forward, objects stay known, and what has been
    done once stays done. No invariant is needed for this. */
module WorldForward {
  import opened Wrappers
  import opened ConnectionState
  import opened World
  import opened WorldSteps
  import opened WorldRuns
  import WorldTheorems

  predicate Ahead(c: Conn, d: Conn) {
    && Rank(c.state) <= Rank(d.state) && c.closeRuns <= d.closeRuns && c.stopPosts <= d.stopPosts
    && (c.state == Closing ==> d.state == Closing) && (c.socket == Gone ==> d.socket == Gone)
  }

  ghost predicate Forward(w: World, w': World) {
    && (forall c :: c in w.conns ==> c in w'.conns && Ahead(w.conns[c], w'.conns[c]))
    && (forall p :: p in w.protos ==> p in w'.protos && w.protos[p].deletions <= w'.protos[p].deletions)
  }

  lemma Transitive(a: World, b: World, c: World)
    requires Forward(a, b) && Forward(b, c)
    ensures Forward(a, c)
  {
  }

  lemma CloseForward(w: World, c: CId)
    requires Known(w) && c in w.conns
    ensures Forward(w, Close(w, c))
  {
    hide Known;
  }

  lemma SetForward(w: World, c: CId, d: Conn)
    requires Known(w) && c in w.conns && d.protocol == w.conns[c].protocol
    requires Ahead(w.conns[c], d)
    ensures Forward(w, Set(w, c, d))
  {
    hide Known;
  }

  lemma DropSocketForward(w: World, c: CId)
    requires Known(w) && c in w.conns
    ensures Forward(w, DropSocket(w, c))
  {
    hide Known, Forward;
    var w1 := TouchSocket(w, c);
    var w2 := Set(w1, c, SocketDropped(w.conns[c]));
    SameForward(w, w1);
    SetForward(w1, c, SocketDropped(w.conns[c]));
    Transitive(w, w1, w2);
    SameForward(w2, DropSocket(w, c));
    Transitive(w, w2, DropSocket(w, c));
  }

  lemma ReleaseConnForward(w: World, c: CId)
    requires Known(w) && c in w.conns
    ensures Forward(w, ReleaseConn(w, c))
  {
    hide Known;
  }

  lemma ReleaseProtoForward(w: World, p: PId)
    requires Known(w) && p in w.protos
    ensures Forward(w, ReleaseProto(w, p))
  {
    hide Known;
  }

  lemma UnlinkForward(w: World, c: CId, p: PId)
    requires Known(w) && c in w.conns && p in w.protos
    ensures Forward(w, Unlink(w, c, p))
  {
    hide Known;
  }

  lemma SameForward(w: World, w': World)
    requires w'.conns == w.conns && w'.protos == w.protos
    ensures Forward(w, w')
  {
  }

  lemma LinkKnown(w: World, c: CId)
    requires Known(w) && c in w.conns && w.conns[c].protocol.Some?
    ensures w.conns[c].protocol.value in w.protos
  {
  }

  lemma CloseConnForward(w: World, c: CId)
    requires Known(w) && c in w.conns
    ensures Forward(w, CloseConn(w, c))
  {
    hide Known, Forward;
    SameForward(w, Raise(w, CloseInWrongState(c)));
    if w.conns[c].state == RequestClose {
      var w1 := DetachProtocol(w, c);
      SameForward(w, w);
      if w.conns[c].protocol.Some? {
        LinkKnown(w, c);
        var p := w.conns[c].protocol.value;
        var t := TouchProtocol(w, p);
        SameForward(w, t);
        UnlinkForward(t, c, p);
        ReleaseProtoForward(Unlink(t, c, p), p);
        Transitive(w, t, Unlink(t, c, p));
        Transitive(w, Unlink(t, c, p), w1);
      }
      var w2 := Set(w1, c, CloseBody(w1.conns[c]));
      SetForward(w1, c, CloseBody(w1.conns[c]));
      Transitive(w, w1, w2);
      var w3 := TouchSocket(w2, c);
      SameForward(w2, w3);
      Transitive(w, w2, w3);
      ReleaseConnForward(w3, c);
      Transitive(w, w3, ReleaseConn(w3, c));
    }
  }

  lemma StartReadForward(w: World, c: CId, kind: Reading, t: Option<bool>)
    requires Known(w) && c in w.conns
    ensures Forward(w, StartRead(w, c, kind, t))
  {
    hide Known, Forward;
    var w1, d := TouchSocket(w, c), w.conns[c].(pendingRead := w.conns[c].pendingRead + 1);
    SameForward(w, w1);
    match t {
      case None =>
        SetForward(w1, c, d.(reading := kind));
        Transitive(w, w1, Set(w1, c, d.(reading := kind)));
      case Some(closes) =>
        var w2 := Set(w1, c, d);
        SetForward(w1, c, d);
        Transitive(w, w1, w2);
        CloseForward(w2, c);
        Transitive(w, w2, Close(w2, c));
    }
  }

  lemma StopForward(w: World, c: CId)
    requires Known(w) && c in w.conns
    ensures Forward(w, StopConn(w, c))
  {
    hide Known;
  }

  lemma ReadFailedForward(w: World, c: CId, e: Error)
    requires Known(w) && c in w.conns
    ensures Forward(w, ReadFailed(w, c, e))
  {
    hide Known;
  }

  lemma AllocForward(w: World, p: PId, auto: bool, newMsg: MId)
    requires Known(w) && p in w.protos && CanAlloc(w, p)
    ensures Forward(w, Alloc(w, p, auto, newMsg))
  {
    hide Known;
  }

  lemma SendForward(w: World, m: MId, threw: bool, forceSlow: bool)
    requires Known(w) && m in w.pool.owner
    ensures Forward(w, Send(w, m, threw, forceSlow))
  {
    hide Known, Forward, Frame;
    OwnerKnown(w, m);
    var c := w.pool.owner[m].c;
    match SendChoice(w.conns[c], forceSlow) {
      case Refused => SameForward(w, Send(w, m, threw, forceSlow));
      case WriteNow =>
        var w1 := Frame(TouchProtocol(w, w.pool.owner[m].p), m);
        SameForward(w, w1);
        SetForward(w1, c, w1.conns[c].(pendingWrite := w1.conns[c].pendingWrite + 1));
        var w2 := Set(w1, c, w1.conns[c].(pendingWrite := w1.conns[c].pendingWrite + 1));
        SameForward(w2, StartWrite(w1, m, threw));
        Transitive(w, w1, w2);
        Transitive(w, w2, StartWrite(w1, m, threw));
      case ForceClose =>
        SameForward(w, Raise(w, SlowConnection(c)));
        CloseForward(Raise(w, SlowConnection(c)), c);
        Transitive(w, Raise(w, SlowConnection(c)), Send(w, m, threw, forceSlow));
      case Queue => SameForward(w, Send(w, m, threw, forceSlow));
    }
  }

  lemma OwnerKnown(w: World, m: MId)
    requires Known(w) && m in w.pool.owner
    ensures m in w.pool.header && w.pool.owner[m].c in w.conns && w.pool.owner[m].p in w.protos
  {
  }

  lemma DropForward(w: World, m: MId)
    requires Known(w) && m in w.pool.owner
    ensures Forward(w, Drop(w, m))
  {
    hide Known, Forward;
    SameForward(w, Drop(w, m));
  }

  lemma CloseOfForward(w: World, p: PId)
    requires Known(w) && p in w.protos
    ensures Forward(w, CloseOf(w, p))
  {
    hide Known, Forward;
    match w.protos[p].connection {
      case None => SameForward(w, CloseOf(w, p));
      case Some(c) =>
        ConnKnown(w, p);
        CloseForward(w, c);
    }
  }

  lemma ConnKnown(w: World, p: PId)
    requires Known(w) && p in w.protos && w.protos[p].connection.Some?
    ensures w.protos[p].connection.value in w.conns
  {
  }

  lemma DisconnectForward(w: World, p: PId, newMsg: MId, threw: bool, forceSlow: bool)
    requires Known(w) && p in w.protos
    ensures Forward(w, Disconnect(w, p, newMsg, threw, forceSlow))
  {
    hide Known, Forward;
    if CanAlloc(w, p) {
      var m := Taken(w.pool, newMsg);
      var w1 := Alloc(w, p, false, newMsg);
      var w2 := Send(w1, m, threw, forceSlow);
      var w3 := CloseOf(w2, p);
      AllocForward(w, p, false, newMsg);
      SendForward(w1, m, threw, forceSlow);
      CloseOfForward(w2, p);
      DropForward(w3, m);
      Transitive(w, w1, w2);
      Transitive(w, w2, w3);
      Transitive(w, w3, Drop(w3, m));
    } else {
      CloseOfForward(w, p);
    }
  }

  lemma AttachForward(w: World, c: CId, p: PId)
    requires Known(w) && c in w.conns && p !in w.protos
    ensures Forward(w, Attach(w, c, p))
  {
    hide Known;
  }

  lemma DeliverToForward(w: World, c: CId, p: PId, first: FirstPacket, t: Option<bool>)
    requires Known(w) && c in w.conns && p in w.protos
    ensures Forward(w, Deliver(w, c, p, first, t))
  {
    hide Known, Forward;
    var w0 := TouchProtocol(w, p);
    SameForward(w, w0);
    match first {
      case NoService => SameForward(w0, w0);
      case BadKey => CloseOfForward(w0, p);
      case Rejected(newMsg, threw, forceSlow) => DisconnectForward(w0, p, newMsg, threw, forceSlow);
      case Accepted => SameForward(w0, FirstMessage(w0, p, first));
    }
    var w1 := FirstMessage(w0, p, first);
    Transitive(w, w0, w1);
    if c in w1.conns {
      hide FirstMessage;
      StartReadForward(w1, c, ReadingHeader, t);
      Transitive(w, w1, StartRead(w1, c, ReadingHeader, t));
    }
  }

  lemma DeliverForward(w: World, c: CId, p: PId, first: FirstPacket, t: Option<bool>)
    requires Known(w) && c in w.conns && p !in w.protos
    ensures Forward(w, DeliverStep(w, c, p, first, t))
  {
    hide Known, Forward;
    var r := Received(w, c);
    SetForward(w, c, w.conns[c].(receivedFirst := true));
    if w.conns[c].receivedFirst {
      if w.conns[c].protocol.Some? { LinkKnown(w, c); }
      var w1 := if w.conns[c].protocol.Some? then TouchProtocol(w, w.conns[c].protocol.value)
                else Raise(w, NullProtocolUsed(c));
      assert w1.conns == w.conns && Known(w1);
      SameForward(w, w1);
      StartReadForward(w1, c, ReadingHeader, t);
      Transitive(w, w1, StartRead(w1, c, ReadingHeader, t));
    } else if w.conns[c].protocol.None? && first.NoService? {
      CloseForward(r, c);
      Transitive(w, r, Close(r, c));
    } else if w.conns[c].protocol.Some? {
      LinkKnown(w, c);
      DeliverToForward(r, c, w.conns[c].protocol.value, first, t);
      Transitive(w, r, DeliverStep(w, c, p, first, t));
    } else {
      AttachForward(r, c, p);
      DeliverToForward(Attach(r, c, p), c, p, first, t);
      Transitive(w, r, Attach(r, c, p));
      Transitive(w, Attach(r, c, p), DeliverStep(w, c, p, first, t));
    }
  }

  lemma HeaderForward(w: World, c: CId, e: Error, bad: bool, t: Option<bool>)
    requires Known(w) && c in w.conns
    ensures Forward(w, HeaderStep(w, c, e, bad, t))
  {
    hide Known, Forward;
    var w1 := TakeRead(w, c);
    SetForward(w, c, w1.conns[c]);
    SameForward(w1, w1);
    ReadFailedForward(w1, c, e);
    var w2 := if e != NoError || bad then ReadFailed(w1, c, e) else w1;
    Transitive(w, w1, w2);
    CloseForward(w2, c);
    Transitive(w, w2, Close(w2, c));
    var w3 := CountDown(w2, c);
    SetForward(w2, c, w3.conns[c]);
    StartReadForward(w3, c, ReadingPacket, t);
    Transitive(w, w2, w3);
    Transitive(w, w3, StartRead(w3, c, ReadingPacket, t));
  }

  lemma PacketForward(w: World, c: CId, e: Error, flood: bool, p: PId, first: FirstPacket, t: Option<bool>)
    requires Known(w) && c in w.conns && p !in w.protos
    ensures Forward(w, PacketStep(w, c, e, flood, p, first, t))
  {
    hide Known, Forward;
    var w1 := TakeRead(w, c);
    SetForward(w, c, w1.conns[c]);
    SameForward(w1, w1);
    ReadFailedForward(w1, c, e);
    var w2 := if e != NoError then ReadFailed(w1, c, e) else w1;
    Transitive(w, w1, w2);
    if !ReadGoesOn(w2.conns[c]) || flood {
      CloseForward(w2, c);
      Transitive(w, w2, Close(w2, c));
    } else {
      var w3 := CountDown(w2, c);
      SetForward(w2, c, w3.conns[c]);
      ReadFailedProtos(w1, c, e);
      DeliverForward(w3, c, p, first, t);
      Transitive(w, w2, w3);
      Transitive(w, w3, DeliverStep(w3, c, p, first, t));
    }
  }

  lemma ReadFailedProtos(w: World, c: CId, e: Error)
    requires Known(w) && c in w.conns
    ensures ReadFailed(w, c, e).protos == w.protos
  {
    hide Known;
  }

  lemma WrittenForward(w: World, m: MId, e: Error)
    requires Known(w) && m in w.pool.owner
    ensures Forward(w, WrittenStep(w, m, e))
  {
    hide Known, Forward;
    OwnerKnown(w, m);
    var c, w1 := w.pool.owner[m].c, TakeWritten(w, m);
    SameForward(w, w1);
    WriteResultForward(w1, c, e);
    var w2 := WriteResult(w1, c, e);
    Transitive(w, w1, w2);
    DropForward(w2, m);
    Transitive(w, w2, Drop(w2, m));
  }

  lemma WriteResultForward(w: World, c: CId, e: Error)
    requires Known(w) && c in w.conns
    ensures Forward(w, WriteResult(w, c, e))
  {
    hide Known, Forward;
    SameForward(w, w);
    CloseForward(w, c);
    var w1 := if e == Failed then Close(w, c) else w;
    SameForward(w1, w1);
    SetForward(w1, c, w1.conns[c].(writeError := true));
    var w2 := if e != NoError then Set(w1, c, w1.conns[c].(writeError := true)) else w1;
    Transitive(w, w1, w2);
    DropSocketForward(w2, c);
    SetForward(w2, c, w2.conns[c].(pendingWrite := w2.conns[c].pendingWrite - 1));
    Transitive(w, w2, WriteResult(w, c, e));
  }

  lemma CreateForward(w: World, c: CId, single: Option<PId>, t: Option<bool>)
    requires Known(w) && c !in w.conns && (single.Some? ==> single.value !in w.protos)
    ensures Forward(w, AcceptStep(w, c, single, t))
  {
    var w1 := Create(w, c);
    assert Forward(w, w1) by { hide Known; }
    hide Known, Forward;
    SameForward(w1, w1);
    if single.Some? { AttachForward(w1, c, single.value); }
    var w2 := if single.Some? then Attach(w1, c, single.value) else w1;
    Transitive(w, w1, w2);
    StartReadForward(w2, c, ReadingHeader, t);
    Transitive(w, w2, StartRead(w2, c, ReadingHeader, t));
  }

  lemma ReleaseMsgForward(w: World, m: MId)
    requires Known(w) && m in w.pool.header
    ensures Forward(w, ReleaseMsg(w, m))
  {
    hide Known, Forward, Referenced, Released;
    var w' := ReleaseMsg(w, m);
    if Referenced(w.pool, InHand(w.pc), m) || m !in w.pool.owner {
      SameForward(w, w');
    } else {
      OwnerKnown(w, m);
      var p, c := w.pool.owner[m].p, w.pool.owner[m].c;
      var w1 := TouchProtocol(w, p);
      SameForward(w, w1);
      UnrefForward(w1, p, c);
      Transitive(w, w1, Unref(w1, p, c));
      SameForward(Unref(w1, p, c), w');
      Transitive(w, Unref(w1, p, c), w');
    }
  }

  lemma UnrefForward(w: World, p: PId, c: CId)
    requires Known(w) && p in w.protos && c in w.conns
    ensures Forward(w, Unref(w, p, c))
  {
    hide Known;
  }

  lemma RunForward(w: World, t: Task)
    requires Known(w) && KnownTask(t, w.conns, w.protos, w.pool)
    ensures Forward(w, RunStep(w, t))
  {
    hide Known, Forward;
    var w0 := GoTo(w, SendQueued);
    SameForward(w, w0);
    match t {
      case CloseConnection(c) =>
        var w1 := TouchConnection(w0, c);
        SameForward(w, w1);
        CloseConnForward(w1, c);
        Transitive(w, w1, CloseConn(w1, c));
      case ReleaseConnection(c) =>
        var w1 := TouchConnection(w0, c);
        SameForward(w, w1);
        ReleaseConnForward(w1, c);
        Transitive(w, w1, ReleaseConn(w1, c));
      case ReleaseProtocol(p) =>
        var w1 := TouchProtocol(w0, p);
        SameForward(w, w1);
        ReleaseProtoForward(w1, p);
        Transitive(w, w1, ReleaseProto(w1, p));
      case InternalRelease(m) =>
        ReleaseMsgForward(w0, m);
        Transitive(w, w0, ReleaseMsg(w0, m));
      case Delegate(p) => SameForward(w, RunStep(w, t));
    }
  }

  lemma WorkForward(w: World, s: WorkStep)
    requires Known(w) && WorkEnabled(w, s)
    ensures Forward(w, WorkNext(w, s))
  {
    EnabledKnown(w, Work(s));
    hide Known, Forward, RunStep, GetStep, SendStep, CloseStep, ExpireStep, FrontStep;
    match s {
      case RunTask => RunForward(w, w.pc.task);
      case GetMessage(auto, newMsg) => GetForward(w, auto, newMsg);
      case SendMessage(threw, forceSlow) => SendStepForward(w, threw, forceSlow);
      case CloseClient => CloseStepForward(w);
      case MoveQueued(dropIt, front) => if dropIt { ExpireForward(w); } else { SameForward(w, WorkNext(w, s)); }
      case SendFront(threw, forceSlow) => FrontForward(w, threw, forceSlow);
      case _ => SameForward(w, WorkNext(w, s));
    }
  }

  lemma GetForward(w: World, auto: bool, newMsg: MId)
    requires Known(w) && w.pc.Delegating? && w.pc.p in w.protos
    ensures Forward(w, GetStep(w, w.pc.p, auto, newMsg))
  {
    hide Known, Forward;
    var p, w1 := w.pc.p, TouchProtocol(w, w.pc.p);
    SameForward(w, w1);
    if CanAlloc(w1, p) {
      AllocForward(w1, p, auto, newMsg);
      var w2 := Alloc(w1, p, auto, newMsg);
      Transitive(w, w1, w2);
      SameForward(w2, GetStep(w, p, auto, newMsg));
      Transitive(w, w2, GetStep(w, p, auto, newMsg));
    }
  }

  lemma SendStepForward(w: World, threw: bool, forceSlow: bool)
    requires Known(w) && w.pc.Delegating? && w.pc.hand.Unsent?
    ensures Forward(w, SendStep(w, threw, forceSlow))
  {
    var w1 := Handed(w);
    assert w.pc.hand.m in w1.pool.owner;
    hide Known, Forward;
    SameForward(w, w1);
    SendForward(w1, w.pc.hand.m, threw, forceSlow);
    Transitive(w, w1, SendStep(w, threw, forceSlow));
  }

  lemma CloseStepForward(w: World)
    requires Known(w) && w.pc.Delegating? && w.pc.p in w.protos
    ensures Forward(w, CloseStep(w))
  {
    hide Known, Forward;
    var p, w1 := w.pc.p, TouchProtocol(w, w.pc.p);
    SameForward(w, w1);
    CloseOfForward(w1, p);
    Transitive(w, w1, CloseOf(w1, p));
    SameForward(CloseOf(w1, p), CloseStep(w));
    Transitive(w, CloseOf(w1, p), CloseStep(w));
  }

  lemma ExpireForward(w: World)
    requires Known(w) && w.pool.addQueue != []
    ensures Forward(w, ExpireStep(w))
  {
    QueuedOwner(w);
    hide Known, Forward, Frame;
    OwnerKnown(w, w.pool.addQueue[0]);
    SameForward(w, ExpireStep(w));
  }

  lemma QueuedOwner(w: World)
    requires Known(w)
    ensures w.pool.addQueue != [] ==> w.pool.addQueue[0] in w.pool.owner
    ensures w.pool.autoSend != [] ==> w.pool.autoSend[0] in w.pool.owner
  {
  }

  lemma FrontForward(w: World, threw: bool, forceSlow: bool)
    requires Known(w) && w.pool.autoSend != []
    ensures Forward(w, FrontStep(w, threw, forceSlow))
  {
    QueuedOwner(w);
    hide Known, Forward, Send, Drop;
    var m, w1 := w.pool.autoSend[0], TakeFront(w);
    SameForward(w, w1);
    SendForward(w1, m, threw, forceSlow);
    var w2 := Send(w1, m, threw, forceSlow);
    Transitive(w, w1, w2);
    DropForward(w2, m);
    Transitive(w, w2, Drop(w2, m));
  }

  lemma NetForward(w: World, s: NetStep)
    requires Known(w) && NetEnabled(w, s)
    ensures Forward(w, NetNext(w, s))
  {
    EnabledKnown(w, Net(s));
    hide Known, Forward, AcceptStep, HeaderStep, PacketStep, WrittenStep, DropSocket, StopConn;
    match s {
      case Accept(c, single, t) => CreateForward(w, c, single, t);
      case ParseHeader(c, e, bad, t) => HeaderForward(w, c, e, bad, t);
      case ParsePacket(c, e, flood, p, first, t) => PacketForward(w, c, e, flood, p, first, t);
      case OnWrite(m, e) => WrittenForward(w, m, e);
      case ReadTimeout(c) => SameForward(w, w); DropSocketForward(w, c);
      case WriteTimeout(c) => SameForward(w, w); DropSocketForward(w, c);
      case OnStop(c) => StopForward(w, c);
    }
  }

  // Between any two worlds of a run every connection's state only moved forward through OPEN,
  // REQUEST_CLOSE, CLOSING, CLOSED; no close, onStop or deletion was undone.
  lemma {:induction false} RunForwardOnly(ws: seq<World>, ss: seq<Step>, i: nat, j: nat)
    requires IsRun(ws, ss) && i <= j < |ws|
    ensures forall c :: c in ws[i].conns ==>
      c in ws[j].conns && Rank(ws[i].conns[c].state) <= Rank(ws[j].conns[c].state)
    ensures forall p :: p in ws[i].protos ==>
      p in ws[j].protos && ws[i].protos[p].deletions <= ws[j].protos[p].deletions
    ensures forall c :: c in ws[i].conns && ws[i].conns[c].state != Open ==>
      c in ws[j].conns && ws[j].conns[c].state != Open
    ensures forall c :: c in ws[i].conns && (ws[i].conns[c].state == Closing || ws[i].conns[c].state == Closed) ==>
      c in ws[j].conns && ws[j].conns[c].state == ws[i].conns[c].state
  {
    RunForwards(ws, ss, i, j);
    hide IsRun;
  }

  // Once a protocol has been deleted, no message and no connection is ever attached to it again, and
  // it is not deleted again.
  lemma StaysDeleted(ws: seq<World>, ss: seq<Step>, i: nat, j: nat, p: PId)
    requires IsRun(ws, ss) && i <= j < |ws| && p in ws[i].protos && ws[i].protos[p].deletions > 0
    ensures p in ws[j].protos && ws[j].protos[p].deletions == 1
    ensures forall m :: m in ws[j].pool.owner ==> ws[j].pool.owner[m].p != p
    ensures forall c :: c in ws[j].conns ==> ws[j].conns[c].protocol != Some(p)
  {
    hide IsRun;
    RunForwardOnly(ws, ss, i, j);
    WorldTheorems.DeletedOnce(ws, ss, j, p);
  }

  lemma {:induction false} RunForwards(ws: seq<World>, ss: seq<Step>, i: nat, j: nat)
    requires IsRun(ws, ss) && i <= j < |ws|
    ensures Forward(ws[i], ws[j])
    decreases j
  {
    hide Known, Enabled, Next, Forward;
    if i == j {
      SameForward(ws[i], ws[j]);
    } else {
      RunForwards(ws, ss, i, j - 1);
      assert StepOf(ws[j - 1], ss[j - 1], ws[j]);
      var w := Calm(ws[j - 1]);
      SameForward(ws[j - 1], w);
      StepForward(w, ss[j - 1]);
      Transitive(ws[j - 1], w, ws[j]);
      Transitive(ws[i], ws[j - 1], ws[j]);
    }
  }

  lemma StepForward(w: World, s: Step)
    requires Known(w) && Enabled(w, s)
    ensures Forward(w, Next(w, s))
  {
    hide Known, Forward, NetNext, WorkNext;
    match s {
      case Net(n) => NetForward(w, n);
      case Work(k) => WorkForward(w, k);
    }
  }
}
