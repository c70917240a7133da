/** The steps of a World and the methods of the class Connection do the same to a connection: what
    the contracts of CloseConnection and Send say of one object is what CloseConn and Send of World do
    to one record. */
module Refinement {
  import opened Wrappers
  import opened ConnectionState
  import opened World
  import opened Connections

  function RefsOf(w: World, c: CId): int
    requires c in w.conns
  {
    match w.conns[c].protocol
    case Some(p) => if p in w.protos then w.protos[p].refCount else 0
    case None => 0
  }

  function KeyOf(c: Conn): PId { if c.protocol.Some? then c.protocol.value else 0 }

  lemma ProtocolKnown(w: World, c: CId)
    requires Known(w) && c in w.conns && w.conns[c].protocol.Some?
    ensures w.conns[c].protocol.value in w.protos
  {
  }

  // DetachProtocol: the counterpart of its contract
  lemma DetachEffect(w: World, c: CId)
    requires Known(w) && c in w.conns
    ensures var w' := DetachProtocol(w, c);
      && w'.conns == w.conns[c := w.conns[c].(protocol := None)]
      && w'.events == w.events + Connection.Owed(RefsOf(w, c), Task.ReleaseProtocol(KeyOf(w.conns[c])))
      && w'.tasks == w.tasks && w'.stops == w.stops && w'.manager == w.manager && w'.pool == w.pool && w'.pc == w.pc
    ensures w.conns[c].protocol.Some? ==>
      var p := w.conns[c].protocol.value;
      && p in w.protos
      && DetachProtocol(w, c).protos == w.protos[p := w.protos[p].(connection := None,
          deletions := w.protos[p].deletions + if w.protos[p].refCount > 0 then 0 else 1)]
    ensures w.conns[c].protocol.None? ==> DetachProtocol(w, c).protos == w.protos
  {
    hide Known;
    if w.conns[c].protocol.Some? {
      ProtocolKnown(w, c);
    } else {
      assert w.conns == w.conns[c := w.conns[c].(protocol := None)];
    }
  }

  // closeConnection(): connection, events, posted handlers, protocol; nothing else changes.
  lemma CloseEffect(w: World, c: CId)
    requires Known(w) && c in w.conns && w.conns[c].state == RequestClose
    ensures var w', d := CloseConn(w, c), w.conns[c];
      && w'.conns == w.conns[c := Finished(d)]
      && w'.stops == w.stops + (if StopsNow(d) then multiset{c} else multiset{})
      && w'.events == w.events + Connection.Owed(RefsOf(w, c), Task.ReleaseProtocol(KeyOf(d)))
        + (if StopsLater(d) then multiset{Task.ReleaseConnection(c)} else multiset{})
      && w'.tasks == w.tasks && w'.manager == w.manager && w'.pool == w.pool && w'.pc == w.pc
      && w'.protos == DetachProtocol(w, c).protos
  {
    hide Known, DetachProtocol, Connection.Owed, CloseBody, ReleaseConn, TouchSocket, Finished, StopsNow, StopsLater;
    DetachEffect(w, c);
    FinishedDetached(w.conns[c]);
    BodyDetached(w.conns[c]);
    BodyEffect(DetachProtocol(w, c), c);
    Overwrites(w.conns, c, w.conns[c].(protocol := None), Finished(w.conns[c]));
  }

  lemma Overwrites(conns: map<CId, Conn>, c: CId, d: Conn, e: Conn)
    ensures conns[c := d][c := e] == conns[c := e]
  {
  }

  // The part of closeConnection() after the protocol is gone
  lemma BodyEffect(w: World, c: CId)
    requires Known(w) && c in w.conns && w.conns[c].protocol.None?
    ensures CloseBody(w.conns[c]).protocol == None
    ensures var d := w.conns[c];
      var w2 := Set(w, c, CloseBody(d));
      var w' := if CloseBody(d).state == Closed then ReleaseConn(TouchSocket(w2, c), c) else w2;
      && w'.conns == w.conns[c := Finished(d)]
      && w'.stops == w.stops + (if StopsNow(d) then multiset{c} else multiset{})
      && w'.events == w.events + (if StopsLater(d) then multiset{Task.ReleaseConnection(c)} else multiset{})
      && w'.tasks == w.tasks && w'.manager == w.manager && w'.pool == w.pool && w'.pc == w.pc && w'.protos == w.protos
  {
    hide Known, CloseBody;
    BodyDetached(w.conns[c]);
    var d := w.conns[c];
    Overwrites(w.conns, c, CloseBody(d), Finished(d));
  }

  lemma BodyDetached(c: Conn)
    ensures CloseBody(c.(protocol := None)) == CloseBody(c) && CloseBody(c).refCount == c.refCount
    ensures CloseBody(c).protocol == None
  {
  }

  // send(): the connection, the outstanding write and the queue
  lemma SendEffect(w: World, m: MId, threw: bool, forceSlow: bool)
    requires Known(w) && m in w.pool.owner && w.pool.owner[m].c in w.conns
    ensures var w', c := Send(w, m, threw, forceSlow), w.pool.owner[m].c;
      var way := SendChoice(w.conns[c], forceSlow);
      && w'.conns == w.conns[c := SentOn(w.conns[c], forceSlow)]
      && w'.pool.writes == w.pool.writes + (if way == WriteNow && !threw then {m} else {})
      && w'.pool.addQueue == w.pool.addQueue + (if way == Queue then [m] else [])
      && w'.pool.autoSend == w.pool.autoSend && w'.pool.free == w.pool.free && w'.pool.owner == w.pool.owner
      && w'.tasks == w.tasks + (if way == ForceClose then [Task.CloseConnection(c)] else [])
      && w'.events == w.events && w'.stops == w.stops && w'.manager == w.manager && w'.protos == w.protos
  {
    hide Known, Frame;
    var c, p := w.pool.owner[m].c, w.pool.owner[m].p;
    SendFrames(w, m);
    assert w.conns[c := w.conns[c]] == w.conns;
  }

  lemma SendFrames(w: World, m: MId)
    requires Known(w) && m in w.pool.owner
    ensures w.pool.owner[m].p in w.protos && m in w.pool.header
    ensures var w0 := TouchProtocol(w, w.pool.owner[m].p); var w' := Frame(w0, m);
      && w' == w.(pool := w.pool.(header := w'.pool.header), alarms := w'.alarms)
  {
    IdsOf(w, m);
    FrameOnly(TouchProtocol(w, w.pool.owner[m].p), m);
  }

  lemma IdsOf(w: World, m: MId)
    requires Known(w) && m in w.pool.owner
    ensures w.pool.owner[m].p in w.protos && m in w.pool.header
  {
  }

  // onSendMessage changes the message's header only.
  lemma FrameOnly(w: World, m: MId)
    requires Known(w) && m in w.pool.header
    ensures var w' := Frame(w, m);
      w' == w.(pool := w.pool.(header := w'.pool.header), alarms := w'.alarms)
  {
    hide Known;
  }

  // Sending from an unframed message with full header room frames it exactly when it is not queued.
  lemma SendHeader(w: World, m: MId, threw: bool, forceSlow: bool)
    requires Known(w) && m in w.pool.owner && w.pool.owner[m].c in w.conns
    requires m in w.pool.header && w.pool.header[m] == Header(8, 0)
    ensures var way := SendChoice(w.conns[w.pool.owner[m].c], forceSlow);
      var h := Send(w, m, threw, forceSlow).pool.header;
      h == w.pool.header[m := if way == WriteNow || way == Refused then Header(0, 1) else Header(8, 0)]
  {
    IdsOf(w, m);
    hide Known;
    var h := w.pool.header;
    FramedHeader(TouchProtocol(w, w.pool.owner[m].p), m);
    hide Frame;
    assert h[m := Header(8, 0)] == h;
  }

  lemma FramedHeader(w: World, m: MId)
    requires Known(w) && m in w.pool.header && w.pool.header[m] == Header(8, 0)
    ensures Frame(w, m).pool.header == w.pool.header[m := Header(0, 1)]
  {
    hide Known;
  }
}
