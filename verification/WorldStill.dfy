/** What the operations that send nothing leave alone: no open connection gets a write, a protocol or a
    delegate more, no outstanding write and no message in hand is forgotten, and the queues of the pool
    stay as they are. */
module WorldStill {
  import opened Wrappers
  import opened ConnectionState
  import opened World
  import opened WorldSteps
  import opened WorldInvariant
  import opened WorldForward

  predicate Calmer(c: Conn, d: Conn) {
    d.state == Open ==>
      && c.state == Open && d.protocol == c.protocol && (c.receivedFirst ==> d.receivedFirst)
      && (d.pendingWrite == c.pendingWrite || 0 <= d.pendingWrite <= c.pendingWrite)
  }

  predicate SameReads(c: Conn, d: Conn) {
    d.state == Open ==> d.reading == c.reading && d.pendingRead == c.pendingRead
  }

  ghost predicate Stays(w: World, w': World) {
    && w'.pc == w.pc && w'.pool.autoSend == w.pool.autoSend && w'.pool.addQueue == w.pool.addQueue
    && w.pool.writes <= w'.pool.writes
    && (forall p :: multiset(w'.tasks)[Delegate(p)] == multiset(w.tasks)[Delegate(p)])
    && (forall c :: c in w'.conns ==> c in w.conns && Calmer(w.conns[c], w'.conns[c]))
    && (forall m :: (m in InHand(w.pc) || m in w.pool.writes) && m in w.pool.owner ==>
          m in w'.pool.owner && w'.pool.owner[m] == w.pool.owner[m])
  }

  // ... and no read begins or ends.
  ghost predicate Still(w: World, w': World) {
    Stays(w, w') && forall c :: c in w'.conns && c in w.conns ==> SameReads(w.conns[c], w'.conns[c])
  }

  lemma LineCount(tasks: seq<Task>, pc: Pc, p: PId)
    ensures multiset(Line(tasks, pc))[Delegate(p)] ==
      multiset(tasks)[Delegate(p)] + if pc == Running(Delegate(p)) then 1 else 0
  {
  }

  lemma StillStays(w: World, w': World)
    requires Still(w, w')
    ensures Stays(w, w')
  {
  }

  lemma StaysAgain(a: World, b: World, c: World)
    requires Stays(a, b) && Stays(b, c)
    ensures Stays(a, c)
  {
  }

  lemma StillAgain(a: World, b: World, c: World)
    requires Still(a, b) && Still(b, c)
    ensures Still(a, c)
  {
    StaysAgain(a, b, c);
  }

  // Neither connections nor queued tasks nor owners change.
  lemma SameStill(w: World, w': World)
    requires w'.conns == w.conns && w'.tasks == w.tasks && w'.pc == w.pc
    requires w'.pool.owner == w.pool.owner && w'.pool.autoSend == w.pool.autoSend && w'.pool.addQueue == w.pool.addQueue
    requires w.pool.writes <= w'.pool.writes
    ensures Still(w, w')
  {
  }

  lemma SetStays(w: World, c: CId, d: Conn)
    requires Known(w) && c in w.conns && d.protocol == w.conns[c].protocol && Calmer(w.conns[c], d)
    ensures Stays(w, Set(w, c, d))
  {
    hide Known;
  }

  lemma SetStill(w: World, c: CId, d: Conn)
    requires Known(w) && c in w.conns && d.protocol == w.conns[c].protocol
    requires Calmer(w.conns[c], d) && SameReads(w.conns[c], d)
    ensures Still(w, Set(w, c, d))
  {
    hide Known;
  }

  lemma PushStill(w: World, w': World, t: Task)
    requires !t.Delegate? && (w' == w.(tasks := w.tasks + [t]) || w' == w.(tasks := [t] + w.tasks))
    ensures Still(w, w')
  {
  }

  lemma CloseStill(w: World, c: CId)
    requires Known(w) && c in w.conns
    ensures Still(w, Close(w, c))
  {
    hide Known, Still;
    if AsksToClose(w.conns[c]) {
      var w1 := Set(w, c, CloseRequested(w.conns[c]));
      SetStill(w, c, CloseRequested(w.conns[c]));
      PushStill(w1, Close(w, c), CloseConnection(c));
      StillAgain(w, w1, Close(w, c));
    } else {
      SameStill(w, w);
    }
  }

  lemma DropSocketStill(w: World, c: CId)
    requires Known(w) && c in w.conns
    ensures Still(w, DropSocket(w, c))
  {
    hide Known, Still;
    var w1 := TouchSocket(w, c);
    var w2 := Set(w1, c, SocketDropped(w.conns[c]));
    SameStill(w, w1);
    SetStill(w1, c, SocketDropped(w.conns[c]));
    StillAgain(w, w1, w2);
    if AsksToClose(w.conns[c]) {
      PushStill(w2, DropSocket(w, c), CloseConnection(c));
      StillAgain(w, w2, DropSocket(w, c));
    }
  }

  lemma ReleaseConnStill(w: World, c: CId)
    requires Known(w) && c in w.conns
    ensures Still(w, ReleaseConn(w, c))
  {
    hide Known, Still;
    if w.conns[c].refCount > 0 {
      SameStill(w, ReleaseConn(w, c));
    } else {
      var d := w.conns[c].(stopPosts := w.conns[c].stopPosts + 1);
      SetStill(w, c, d);
      SameStill(Set(w, c, d), ReleaseConn(w, c));
      StillAgain(w, Set(w, c, d), ReleaseConn(w, c));
    }
  }

  lemma ReleaseProtoStill(w: World, p: PId)
    requires Known(w) && p in w.protos
    ensures Still(w, ReleaseProto(w, p))
  {
    hide Known, Still;
    SameStill(w, ReleaseProto(w, p));
  }

  lemma UnlinkStill(w: World, c: CId, p: PId)
    requires Known(w) && c in w.conns && p in w.protos && w.conns[c].state != Open
    ensures Still(w, Unlink(w, c, p))
  {
    hide Known;
  }

  lemma DetachStill(w: World, c: CId)
    requires Known(w) && c in w.conns && w.conns[c].state != Open
    ensures Still(w, DetachProtocol(w, c))
  {
    hide Known, Still;
    if w.conns[c].protocol.Some? {
      LinkKnown(w, c);
      var p := w.conns[c].protocol.value;
      var t := TouchProtocol(w, p);
      SameStill(w, t);
      UnlinkStill(t, c, p);
      ReleaseProtoStill(Unlink(t, c, p), p);
      StillAgain(w, t, Unlink(t, c, p));
      StillAgain(w, Unlink(t, c, p), DetachProtocol(w, c));
    } else {
      SameStill(w, w);
    }
  }

  lemma CloseConnStill(w: World, c: CId)
    requires Known(w) && c in w.conns
    ensures Still(w, CloseConn(w, c))
  {
    hide Known, Still, DetachProtocol;
    if w.conns[c].state == RequestClose {
      var w1 := DetachProtocol(w, c);
      DetachStill(w, c);
      var w2 := Set(w1, c, CloseBody(w1.conns[c]));
      SetStill(w1, c, CloseBody(w1.conns[c]));
      StillAgain(w, w1, w2);
      var w3 := TouchSocket(w2, c);
      SameStill(w2, w3);
      StillAgain(w, w2, w3);
      ReleaseConnStill(w3, c);
      StillAgain(w, w3, ReleaseConn(w3, c));
    } else {
      SameStill(w, CloseConn(w, c));
    }
  }

  lemma StartReadStays(w: World, c: CId, kind: Reading, t: Option<bool>)
    requires Known(w) && c in w.conns
    ensures Stays(w, StartRead(w, c, kind, t))
  {
    hide Known, Stays, Still;
    var w1, d := TouchSocket(w, c), w.conns[c].(pendingRead := w.conns[c].pendingRead + 1);
    SameStill(w, w1);
    StillStays(w, w1);
    match t {
      case None =>
        SetStays(w1, c, d.(reading := kind));
        StaysAgain(w, w1, Set(w1, c, d.(reading := kind)));
      case Some(closes) =>
        var w2 := Set(w1, c, d);
        SetStays(w1, c, d);
        StaysAgain(w, w1, w2);
        CloseStill(w2, c);
        StillStays(w2, Close(w2, c));
        StaysAgain(w, w2, Close(w2, c));
    }
  }

  lemma StopStill(w: World, c: CId)
    requires Known(w) && c in w.conns
    ensures Still(w, StopConn(w, c))
  {
    hide Known, Still;
    var w1 := TouchSocket(w, c);
    var w2 := Set(w1, c, Stopped(w1.conns[c]));
    SameStill(w, w1);
    SetStill(w1, c, Stopped(w1.conns[c]));
    StillAgain(w, w1, w2);
    SameStill(w2, StopConn(w, c));
    StillAgain(w, w2, StopConn(w, c));
  }

  lemma ReadFailedStill(w: World, c: CId, e: Error)
    requires Known(w) && c in w.conns
    ensures Still(w, ReadFailed(w, c, e))
  {
    hide Known, Still;
    SameStill(w, w);
    CloseStill(w, c);
    var w1 := if e == Aborted then w else Close(w, c);
    SetStill(w1, c, w1.conns[c].(readError := true));
    StillAgain(w, w1, ReadFailed(w, c, e));
  }

  lemma AllocStill(w: World, p: PId, newMsg: MId)
    requires Known(w) && p in w.protos && CanAlloc(w, p) && Taken(w.pool, newMsg) !in w.pool.owner
    ensures Still(w, Alloc(w, p, false, newMsg))
  {
    hide Known, Still;
    ConnKnown(w, p);
    var c := w.protos[p].connection.value;
    var w1 := Set(w, c, w.conns[c].(refCount := w.conns[c].refCount + 1));
    SetStill(w, c, w.conns[c].(refCount := w.conns[c].refCount + 1));
    NewOwnerStill(w1, Alloc(w, p, false, newMsg), Taken(w.pool, newMsg), Owner(p, c));
    StillAgain(w, w1, Alloc(w, p, false, newMsg));
  }

  // A message that belonged to nobody gets its owner.
  lemma NewOwnerStill(w: World, w': World, m: MId, o: Owner)
    requires m !in w.pool.owner && w'.pool.owner == w.pool.owner[m := o]
    requires w'.conns == w.conns && w'.tasks == w.tasks && w'.pc == w.pc && w'.pool.writes == w.pool.writes
    requires w'.pool.autoSend == w.pool.autoSend && w'.pool.addQueue == w.pool.addQueue
    ensures Still(w, w')
  {
  }

  lemma DropStill(w: World, m: MId)
    requires Known(w) && m in w.pool.owner
    ensures Still(w, Drop(w, m))
  {
    OwnerKnown(w, m);
    hide Known, Still;
    var w1 := Unhold(w, m);
    SameStill(w, w1);
    LetGoStill(w1, m);
    StillAgain(w, w1, Drop(w, m));
  }

  lemma LetGoStill(w: World, m: MId)
    requires Known(w) && m in w.pool.header
    ensures Still(w, LetGo(w, m))
  {
    hide Known, Still, Referenced;
    SameStill(w, w);
    PushStill(w, w.(tasks := [InternalRelease(m)] + w.tasks), InternalRelease(m));
  }

  lemma ReleaseMsgStill(w: World, m: MId)
    requires Known(w) && m in w.pool.header
    ensures Still(w, ReleaseMsg(w, m))
  {
    hide Known, Still, Referenced;
    var w' := ReleaseMsg(w, m);
    if Referenced(w.pool, InHand(w.pc), m) {
      SameStill(w, w');
    } else if m in w.pool.owner {
      OwnerKnown(w, m);
      var p, c := w.pool.owner[m].p, w.pool.owner[m].c;
      var w1 := TouchProtocol(w, p);
      SameStill(w, w1);
      UnrefStill(w1, p, c);
      StillAgain(w, w1, Unref(w1, p, c));
      UnownStill(Unref(w1, p, c), m);
      StillAgain(w, Unref(w1, p, c), w');
    } else {
      var w1 := Raise(w, ProtocolNotFound(m));
      SameStill(w, w1);
      UnownStill(w1, m);
      StillAgain(w, w1, w');
    }
  }

  lemma UnrefStill(w: World, p: PId, c: CId)
    requires Known(w) && p in w.protos && c in w.conns
    ensures Still(w, Unref(w, p, c))
  {
    hide Known;
  }

  lemma UnownStill(w: World, m: MId)
    requires Known(w) && m in w.pool.header && !Referenced(w.pool, InHand(w.pc), m)
    ensures Still(w, Unown(w, m))
  {
    hide Known;
  }

  lemma CloseOfStill(w: World, p: PId)
    requires Known(w) && p in w.protos
    ensures Still(w, CloseOf(w, p))
  {
    hide Known, Still;
    match w.protos[p].connection {
      case None => SameStill(w, CloseOf(w, p));
      case Some(c) =>
        ConnKnown(w, p);
        CloseStill(w, c);
    }
  }

  lemma WriteResultStill(w: World, c: CId, e: Error)
    requires Known(w) && c in w.conns && (w.conns[c].state == Open ==> w.conns[c].pendingWrite >= 1)
    ensures Still(w, WriteResult(w, c, e))
  {
    hide Known, Still, DropSocket;
    SameStill(w, w);
    CloseStill(w, c);
    var w1 := if e == Failed then Close(w, c) else w;
    SameStill(w1, w1);
    SetStill(w1, c, w1.conns[c].(writeError := true));
    var w2 := if e != NoError then Set(w1, c, w1.conns[c].(writeError := true)) else w1;
    StillAgain(w, w1, w2);
    DropSocketStill(w2, c);
    if w2.conns[c].state == Open {
      SetStill(w2, c, w2.conns[c].(pendingWrite := w2.conns[c].pendingWrite - 1));
    }
    StillAgain(w, w2, WriteResult(w, c, e));
  }

  lemma TouchStill(w: World, p: PId)
    requires Known(w) && p in w.protos
    ensures Still(w, TouchProtocol(w, p))
  {
    hide Known, Still;
    SameStill(w, TouchProtocol(w, p));
  }

  lemma FrameStill(w: World, m: MId)
    requires Known(w) && m in w.pool.owner && m in w.pool.header && w.pool.owner[m].p in w.protos
    ensures Still(w, Frame(TouchProtocol(w, w.pool.owner[m].p), m))
  {
    hide Known, Still;
    SameStill(w, Frame(TouchProtocol(w, w.pool.owner[m].p), m));
  }
}
