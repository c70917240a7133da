/** The alarms are not silent: in any world, reachable or not, a step that uses a dead object or takes an
    error branch raises the alarm for it. So their absence from runs says something. */
module WorldAlarms {
  import opened Wrappers
  import opened ConnectionState
  import opened World
  import opened WorldSteps
  import opened WorldForward

  // Alarms stay raised for the rest of the step.
  ghost predicate Louder(w: World, w': World) { forall a :: a in w.alarms ==> a in w'.alarms }

  predicate Dead(w: World, p: PId) { p in w.protos && w.protos[p].deletions > 0 }

  // ----- the uses themselves -----

  lemma Uses(w: World, p: PId, c: CId)
    requires Known(w)
    ensures p in w.protos && w.protos[p].deletions > 0 ==> DeletedProtocolUsed(p) in TouchProtocol(w, p).alarms
    ensures c !in w.manager ==> ReleasedConnectionUsed(c) in TouchConnection(w, c).alarms
    ensures c in w.conns && w.conns[c].socket == Gone ==> NullSocketUsed(c) in TouchSocket(w, c).alarms
    ensures p in w.protos && w.protos[p].connection.None? ==> NullConnectionUsed(p) in CloseOf(w, p).alarms
  {
    hide Known;
  }

  lemma FrameAlarms(w: World, m: MId)
    requires Known(w) && m in w.pool.header
    ensures w.pool.header[m].start < 8 ==> NoRoomForHeader(m) in Frame(w, m).alarms
    ensures Louder(w, Frame(w, m))
  {
    hide Known;
  }

  // ----- callbacks of the dispatcher -----

  lemma DetachAlarms(w: World, c: CId)
    requires Known(w) && c in w.conns
    ensures Louder(w, DetachProtocol(w, c))
    ensures w.conns[c].protocol.Some? && Dead(w, w.conns[c].protocol.value) ==>
      DeletedProtocolUsed(w.conns[c].protocol.value) in DetachProtocol(w, c).alarms
  {
    hide Known;
    if w.conns[c].protocol.Some? {
      LinkKnown(w, c);
    }
  }

  lemma ClosingAlarms(w: World, c: CId)
    requires Known(w) && c in w.conns
    ensures var r := CloseConn(w, c);
      && Louder(w, r)
      && (w.conns[c].state != RequestClose ==> CloseInWrongState(c) in r.alarms)
      && (w.conns[c].state == RequestClose ==> Louder(DetachProtocol(w, c), r))
      && (w.conns[c].state == RequestClose && w.conns[c].socket == Gone && CloseBody(w.conns[c]).state == Closed ==>
            NullSocketUsed(c) in r.alarms)
  {
    hide Known, DetachProtocol;
    DetachAlarms(w, c);
  }

  lemma CloseAlarms(w: World, c: CId)
    requires Known(w) && c in w.conns
    ensures var r := RunStep(w, CloseConnection(c));
      && (c !in w.manager ==> ReleasedConnectionUsed(c) in r.alarms)
      && (w.conns[c].state != RequestClose ==> CloseInWrongState(c) in r.alarms)
      && (w.conns[c].state == RequestClose && w.conns[c].protocol.Some? && Dead(w, w.conns[c].protocol.value) ==>
            DeletedProtocolUsed(w.conns[c].protocol.value) in r.alarms)
      && (w.conns[c].state == RequestClose && w.conns[c].socket == Gone && CloseBody(w.conns[c]).state == Closed ==>
            NullSocketUsed(c) in r.alarms)
  {
    hide Known, DetachProtocol, CloseConn;
    var w1 := TouchConnection(GoTo(w, SendQueued), c);
    assert w1.conns == w.conns && w1.protos == w.protos;
    DetachAlarms(w1, c);
    ClosingAlarms(w1, c);
  }

  lemma ReleaseAlarms(w: World, c: CId, p: PId)
    requires Known(w) && c in w.conns && p in w.protos
    ensures c !in w.manager ==> ReleasedConnectionUsed(c) in RunStep(w, ReleaseConnection(c)).alarms
    ensures Dead(w, p) ==> DeletedProtocolUsed(p) in RunStep(w, ReleaseProtocol(p)).alarms
    ensures Dead(w, p) ==> DeletedProtocolUsed(p) in RunStep(w, Delegate(p)).alarms
  {
    hide Known;
  }

  lemma MessageAlarms(w: World, m: MId)
    requires Known(w) && m in w.pool.header
    ensures var r := RunStep(w, InternalRelease(m));
      && (m in w.pool.autoSend || m in w.pool.addQueue || m in w.pool.writes || m in w.pool.held ==>
            ReleasedMessageUsed(m) in r.alarms)
      && (m !in w.pool.owner ==> ReleasedMessageUsed(m) in r.alarms || ProtocolNotFound(m) in r.alarms)
      && (m in w.pool.owner && Dead(w, w.pool.owner[m].p) ==>
            ReleasedMessageUsed(m) in r.alarms || DeletedProtocolUsed(w.pool.owner[m].p) in r.alarms)
  {
    hide Known;
    if m in w.pool.owner {
      OwnerKnown(w, m);
    }
  }

  // ----- the delegate, and sending -----

  lemma SendAlarms(w: World, m: MId, threw: bool, forceSlow: bool)
    requires Known(w) && m in w.pool.owner && m in w.pool.header && w.pool.owner[m].c in w.conns
    ensures var r, c, p := Send(w, m, threw, forceSlow), w.pool.owner[m].c, w.pool.owner[m].p;
      var way := SendChoice(w.conns[c], forceSlow);
      && (way == WriteNow || way == Refused ==>
            && (Dead(w, p) ==> DeletedProtocolUsed(p) in r.alarms)
            && (w.pool.header[m].start < 8 ==> NoRoomForHeader(m) in r.alarms))
      && (way == WriteNow && w.conns[c].socket == Gone ==> NullSocketUsed(c) in r.alarms)
      && (way == ForceClose ==> SlowConnection(c) in r.alarms)
  {
    hide Known, Frame, StartWrite;
    OwnerKnown(w, m);
    var w0 := TouchProtocol(w, w.pool.owner[m].p);
    FrameAlarms(w0, m);
    WriteAlarms(Frame(w0, m), m, threw);
  }

  lemma WriteAlarms(w: World, m: MId, threw: bool)
    requires Known(w) && m in w.pool.owner && w.pool.owner[m].c in w.conns
    ensures Louder(w, StartWrite(w, m, threw))
    ensures w.conns[w.pool.owner[m].c].socket == Gone ==>
      NullSocketUsed(w.pool.owner[m].c) in StartWrite(w, m, threw).alarms
  {
    hide Known;
  }

  lemma DelegateAlarms(w: World, auto: bool, newMsg: MId)
    requires Known(w) && w.pc.Delegating? && w.pc.p in w.protos && Dead(w, w.pc.p)
    ensures DeletedProtocolUsed(w.pc.p) in GetStep(w, w.pc.p, auto, newMsg).alarms
    ensures DeletedProtocolUsed(w.pc.p) in CloseStep(w).alarms
  {
    hide Known;
  }

  // ----- handlers of io_context threads -----

  lemma StopAlarms(w: World, c: CId)
    requires Known(w) && c in w.conns
    ensures w.conns[c].socket == Gone ==> NullSocketUsed(c) in StopConn(w, c).alarms
    ensures c !in w.manager ==> ConnectionNotFound(c) in StopConn(w, c).alarms
  {
    hide Known;
  }

  lemma DropAlarms(w: World, c: CId)
    requires Known(w) && c in w.conns && w.conns[c].socket == Gone
    ensures NullSocketUsed(c) in DropSocket(w, c).alarms
    ensures forall kind, t :: NullSocketUsed(c) in StartRead(w, c, kind, t).alarms
  {
    hide Known;
  }

  // A first packet for a protocol that is deleted, and a later one for a protocol that is deleted or gone
  lemma DeliverAlarms(w: World, c: CId, p: PId, first: FirstPacket, t: Option<bool>)
    requires Known(w) && c in w.conns && p !in w.protos
    ensures var r, d := DeliverStep(w, c, p, first, t), w.conns[c];
      && (d.receivedFirst && d.protocol.None? ==> NullProtocolUsed(c) in r.alarms)
      && (d.receivedFirst && d.protocol.Some? && Dead(w, d.protocol.value) ==>
            DeletedProtocolUsed(d.protocol.value) in r.alarms)
  {
    hide Known, Deliver;
    if w.conns[c].protocol.Some? {
      LinkKnown(w, c);
    }
  }

  lemma FirstAlarms(w: World, c: CId, p: PId, t: Option<bool>)
    requires Known(w) && c in w.conns && p in w.protos && Dead(w, p)
    ensures DeletedProtocolUsed(p) in Deliver(w, c, p, FirstPacket.Accepted, t).alarms
    ensures DeletedProtocolUsed(p) in Deliver(w, c, p, BadKey, t).alarms
  {
    hide Known, StartRead;
    var w1 := TouchProtocol(w, p);
    assert DeletedProtocolUsed(p) in w1.alarms;
    var w2 := FirstMessage(w1, p, FirstPacket.Accepted);
    var w3 := FirstMessage(w1, p, BadKey);
    assert Louder(w1, w2) && Louder(w1, w3);
    ReadAlarms(w2, c, t);
    if c in w3.conns {
      ReadAlarms(w3, c, t);
    }
  }

  lemma ReadAlarms(w: World, c: CId, t: Option<bool>)
    requires Known(w) && c in w.conns
    ensures Louder(w, StartRead(w, c, ReadingHeader, t))
  {
    hide Known;
  }
}
