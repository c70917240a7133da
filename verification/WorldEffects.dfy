/** What single steps of a run do, in the fields of the objects they are about. */
module WorldEffects {
  import opened Wrappers
  import opened ConnectionState
  import opened World
  import opened WorldSteps
  import opened WorldInvariant
  import opened WorldConnProofs
  import opened WorldTaskProofs
  import opened WorldRuns
  import opened WorldTheorems
  import Refinement

  // c was open, and now has asked for its close, at the back of the queue.
  ghost predicate AskedToClose(tasks: seq<Task>, w': World, c: CId) {
    c in w'.conns && w'.conns[c].state == RequestClose && w'.tasks == tasks + [CloseConnection(c)]
  }

  // One step of a run of either kind, without the rest of the run
  lemma NetAt(ws: seq<World>, ss: seq<Step>, i: nat, n: NetStep)
    requires IsRun(ws, ss) && i < |ss| && ss[i] == Net(n)
    ensures |ws| == |ss| + 1 && Inv(Calm(ws[i])) && Known(Calm(ws[i])) && NetEnabled(Calm(ws[i]), n)
    ensures ws[i + 1] == NetNext(Calm(ws[i]), n)
  {
    hide IsRun, Inv, Known, NetNext, NetEnabled;
    StepAt(ws, ss, i);
    RunAtRest(ws, ss, i);
  }

  lemma WorkAt(ws: seq<World>, ss: seq<Step>, i: nat, k: WorkStep)
    requires IsRun(ws, ss) && i < |ss| && ss[i] == Work(k)
    ensures |ws| == |ss| + 1 && Inv(Calm(ws[i])) && Known(Calm(ws[i])) && WorkEnabled(Calm(ws[i]), k)
    ensures ws[i + 1] == WorkNext(Calm(ws[i]), k)
  {
    hide IsRun, Inv, Known, WorkNext, WorkEnabled;
    StepAt(ws, ss, i);
    RunAtRest(ws, ss, i);
  }

  // A header that could not be read, or announces a bad size, closes the connection; any other on an
  // open connection leads to the read of the packet.
  lemma HeaderDecides(ws: seq<World>, ss: seq<Step>, i: nat, c: CId, e: Error, bad: bool, t: Option<bool>)
    requires IsRun(ws, ss) && i < |ss| && ss[i] == Net(ParseHeader(c, e, bad, t))
    ensures |ws| == |ss| + 1 && c in ws[i].conns
    ensures ws[i].conns[c].state == Open && (e != NoError || bad) ==>
      AskedToClose(ws[i].tasks, ws[i + 1], c) && ws[i + 1].conns[c].readError
    ensures ws[i].conns[c].state == Open && e == NoError && !bad && t == None ==>
      && ws[i + 1].conns == ws[i].conns[c := ws[i].conns[c].(reading := ReadingPacket)]
      && ws[i + 1].tasks == ws[i].tasks
    ensures ws[i].conns[c].state == Open && e == NoError && !bad && t == Some(true) ==>
      AskedToClose(ws[i].tasks, ws[i + 1], c)
  {
    hide IsRun, Inv, Known, HeaderStep, AskedToClose;
    NetAt(ws, ss, i, ParseHeader(c, e, bad, t));
    OpenReads(Calm(ws[i]), c);
    if ws[i].conns[c].state == Open {
      if e != NoError || bad {
        BadHeader(Calm(ws[i]), c, e, bad, t);
      } else {
        GoodHeader(Calm(ws[i]), c);
      }
    }
  }

  lemma BadHeader(w: World, c: CId, e: Error, bad: bool, t: Option<bool>)
    requires Known(w) && c in w.conns && w.conns[c].state == Open && (e != NoError || bad)
    ensures AskedToClose(w.tasks, HeaderStep(w, c, e, bad, t), c) && HeaderStep(w, c, e, bad, t).conns[c].readError
  {
    hide Known, StartRead;
  }

  lemma GoodHeader(w: World, c: CId)
    requires Known(w) && c in w.conns && w.conns[c].state == Open && !w.conns[c].readError
    ensures var w' := HeaderStep(w, c, NoError, false, None);
      w'.conns == w.conns[c := w.conns[c].(reading := ReadingPacket)] && w'.tasks == w.tasks
    ensures AskedToClose(w.tasks, HeaderStep(w, c, NoError, false, Some(true)), c)
  {
    hide Known;
    var d := w.conns[c];
    var w2 := CountDown(TakeRead(w, c), c);
    assert w2.conns == w.conns[c := d.(reading := NotReading, pendingRead := d.pendingRead - 1)];
  }

  lemma OpenReads(w: World, c: CId)
    requires Inv(w)
    ensures c in w.conns && w.conns[c].state == Open ==> !w.conns[c].readError && !w.conns[c].writeError
  {
    hide Known, PoolOk, Obligations, Order;
    if c in w.conns { ConnOf(w, c); }
  }

  // So does a packet that could not be read, or comes too often.
  lemma BadPacketCloses(ws: seq<World>, ss: seq<Step>, i: nat, c: CId)
    requires IsRun(ws, ss) && i < |ss| && ss[i].Net? && ss[i].net.ParsePacket? && ss[i].net.c == c
    requires ss[i].net.e != NoError || ss[i].net.flood
    ensures |ws| == |ss| + 1 && c in ws[i].conns
    ensures ws[i].conns[c].state == Open ==> AskedToClose(ws[i].tasks, ws[i + 1], c)
  {
    hide IsRun, Inv, Known, DeliverStep;
    NetAt(ws, ss, i, ss[i].net);
    OpenReads(Calm(ws[i]), c);
  }

  function Dropped(d: Conn): Conn { d.(state := RequestClose, socket := Shut, pendingRead := 0, pendingWrite := 0) }

  // A timeout of an open connection shuts its socket and asks for its close if something is pending,
  // and otherwise does nothing.
  lemma TimeoutDecides(ws: seq<World>, ss: seq<Step>, i: nat, c: CId)
    requires IsRun(ws, ss) && i < |ss| && (ss[i] == Net(ReadTimeout(c)) || ss[i] == Net(WriteTimeout(c)))
    ensures |ws| == |ss| + 1 && c in ws[i].conns
    ensures var d := ws[i].conns[c];
      var pending := if ss[i] == Net(ReadTimeout(c)) then d.pendingRead else d.pendingWrite;
      d.state == Open ==>
        && (pending > 0 ==>
              && AskedToClose(ws[i].tasks, ws[i + 1], c) && ws[i + 1].conns[c].socket != Connected
              && (d.socket == Connected ==> ws[i + 1].conns[c] == Dropped(d)))
        && (pending <= 0 ==> ws[i + 1].conns == ws[i].conns && ws[i + 1].tasks == ws[i].tasks)
  {
    hide IsRun, Inv, Known;
    NetAt(ws, ss, i, ss[i].net);
    OpenReads(Calm(ws[i]), c);
  }

  // A write that fails, or completes on a connection that is not open, shuts the socket.
  lemma WriteShuts(ws: seq<World>, ss: seq<Step>, i: nat, m: MId, e: Error)
    requires IsRun(ws, ss) && i < |ss| && ss[i] == Net(OnWrite(m, e))
    ensures |ws| == |ss| + 1 && m in ws[i].pool.owner && ws[i].pool.owner[m].c in ws[i].conns
    ensures var c := ws[i].pool.owner[m].c; var d := ws[i].conns[c];
      e != NoError || d.state != Open ==>
        && c in ws[i + 1].conns && ws[i + 1].conns[c].socket != Connected
        && ws[i + 1].conns[c].state == (if d.state == Open then RequestClose else d.state)
        && ws[i + 1].conns[c].writeError == (d.writeError || e != NoError)
        && (d.socket == Connected ==> ws[i + 1].conns[c].pendingRead == 0 && ws[i + 1].conns[c].pendingWrite == 0)
  {
    hide IsRun, Inv, Known, WrittenStep;
    NetAt(ws, ss, i, OnWrite(m, e));
    WriteKnown(Calm(ws[i]), m);
    WriteEnds(Calm(ws[i]), m, e);
  }

  lemma WriteEnds(w: World, m: MId, e: Error)
    requires Known(w) && m in w.pool.owner && w.pool.owner[m].c in w.conns
    ensures var c := w.pool.owner[m].c; var d, w' := w.conns[c], WrittenStep(w, m, e);
      e != NoError || d.state != Open ==>
        && c in w'.conns && w'.conns[c].socket != Connected
        && w'.conns[c].state == (if d.state == Open then RequestClose else d.state)
        && w'.conns[c].writeError == (d.writeError || e != NoError)
        && (d.socket == Connected ==> w'.conns[c].pendingRead == 0 && w'.conns[c].pendingWrite == 0)
  {
    hide Known, WriteResult;
    var c, w1 := w.pool.owner[m].c, TakeWritten(w, m);
    ResultEnds(w1, c, e);
    assert Drop(WriteResult(w1, c, e), m).conns == WriteResult(w1, c, e).conns;
  }

  lemma ResultEnds(w: World, c: CId, e: Error)
    requires Known(w) && c in w.conns
    ensures var d, w' := w.conns[c], WriteResult(w, c, e);
      e != NoError || d.state != Open ==>
        && c in w'.conns && w'.conns[c].socket != Connected
        && w'.conns[c].state == (if d.state == Open then RequestClose else d.state)
        && w'.conns[c].writeError == (d.writeError || e != NoError)
        && (d.socket == Connected ==> w'.conns[c].pendingRead == 0 && w'.conns[c].pendingWrite == 0)
  {
    hide Known;
  }

  lemma WriteKnown(w: World, m: MId)
    requires Known(w) && m in w.pool.writes
    ensures m in w.pool.owner && w.pool.owner[m].c in w.conns
  {
  }

  // A due event goes to the front of the dispatcher's queue.
  lemma EventsGoFirst(ws: seq<World>, ss: seq<Step>, i: nat, t: Task)
    requires IsRun(ws, ss) && i < |ss| && ss[i] == Work(ScheduledEvent(t))
    ensures |ws| == |ss| + 1 && ws[i + 1].tasks == [t] + ws[i].tasks && ws[i + 1].events == ws[i].events - multiset{t}
  {
    hide IsRun, Known, Inv;
    WorkAt(ws, ss, i, ScheduledEvent(t));
  }

  // So does the release of a message that nothing else refers to any more.
  lemma ReleasesGoFirst(ws: seq<World>, ss: seq<Step>, i: nat)
    requires IsRun(ws, ss) && i < |ss| && ss[i] == Work(DropMessage)
    ensures |ws| == |ss| + 1 && ws[i].pc.Delegating? && ws[i].pc.hand.Sent?
    ensures var m, pool := ws[i].pc.hand.m, ws[i].pool;
      ws[i + 1].tasks ==
        if m in pool.autoSend || m in pool.addQueue || m in pool.writes || m in pool.held then ws[i].tasks
        else [InternalRelease(m)] + ws[i].tasks
  {
    hide IsRun, Known, Inv;
    WorkAt(ws, ss, i, DropMessage);
  }

  // releaseProtocol deletes its protocol if and only if no message refers to it, and is scheduled again
  // otherwise.
  lemma DeletedExactly(ws: seq<World>, ss: seq<Step>, i: nat, p: PId)
    requires IsRun(ws, ss) && i < |ss| && ss[i] == Work(RunTask) && ws[i].pc == Running(ReleaseProtocol(p))
    ensures |ws| == |ss| + 1 && p in ws[i].protos && p in ws[i + 1].protos && ws[i].protos[p].deletions == 0
    ensures var free := ProtoRefs(ws[i].pool.owner, p) == {};
      && ws[i + 1].protos[p].deletions == (if free then 1 else 0)
      && ws[i + 1].events == (if free then ws[i].events else ws[i].events + multiset{ReleaseProtocol(p)})
  {
    hide IsRun, Inv, Known, ProtoRefs;
    WorkAt(ws, ss, i, RunTask);
    ReleasedProto(Calm(ws[i]), p);
  }

  lemma ReleasedProto(w: World, p: PId)
    requires Inv(w) && w.pc == Running(ReleaseProtocol(p))
    ensures p in w.protos && w.protos[p].deletions == 0
    ensures w.protos[p].refCount > 0 <==> ProtoRefs(w.pool.owner, p) != {}
  {
    hide Known, PoolOk, Order, ReleaseTokens, CloseTokens, ConnTokens, ConnsOk, Manager, OwnersAlive;
    assert Tokens(w.tasks, w.pc, w.events)[ReleaseProtocol(p)] >= 1;
  }

  // releaseConnection posts onStop if and only if no message refers to its connection, and is
  // scheduled again otherwise.
  lemma StoppedExactly(ws: seq<World>, ss: seq<Step>, i: nat, c: CId)
    requires IsRun(ws, ss) && i < |ss| && ss[i] == Work(RunTask) && ws[i].pc == Running(ReleaseConnection(c))
    ensures |ws| == |ss| + 1 && c in ws[i].conns && c in ws[i + 1].conns && ws[i].conns[c].stopPosts == 0
    ensures var free := ConnRefs(ws[i].pool.owner, c) == {};
      && ws[i + 1].conns[c].stopPosts == (if free then 1 else 0)
      && ws[i + 1].stops == (if free then ws[i].stops + multiset{c} else ws[i].stops)
      && ws[i + 1].events == (if free then ws[i].events else ws[i].events + multiset{ReleaseConnection(c)})
  {
    hide IsRun, Inv, Known, ConnRefs;
    WorkAt(ws, ss, i, RunTask);
    ReleasedConn(Calm(ws[i]), c);
  }

  lemma ReleasedConn(w: World, c: CId)
    requires Inv(w) && w.pc == Running(ReleaseConnection(c))
    ensures c in w.conns && w.conns[c].stopPosts == 0 && c in w.manager
    ensures w.conns[c].refCount > 0 <==> ConnRefs(w.pool.owner, c) != {}
  {
    hide Known, PoolOk, Order, ReleaseTokens, CloseTokens, ProtoTokens, Links, OwnersAlive;
    assert Tokens(w.tasks, w.pc, w.events)[ReleaseConnection(c)] >= 1;
    ConnIn(w, c);
  }

  // internalReleaseMessage: the message is last in the free list, with header room 8, and each of its
  // two objects has one reference less.
  lemma MessageIsFreed(ws: seq<World>, ss: seq<Step>, i: nat, m: MId)
    requires IsRun(ws, ss) && i < |ss| && ss[i] == Work(RunTask) && ws[i].pc == Running(InternalRelease(m))
    ensures |ws| == |ss| + 1 && m in ws[i].pool.owner && m !in ws[i + 1].pool.owner
    ensures ws[i + 1].pool.free == ws[i].pool.free + [m] && m in ws[i + 1].pool.header
    ensures ws[i + 1].pool.header[m].start == 8
    ensures var o := ws[i].pool.owner[m];
      && o.p in ws[i].protos && o.c in ws[i].conns
      && ws[i + 1].protos == ws[i].protos[o.p := ws[i].protos[o.p].(refCount := ws[i].protos[o.p].refCount - 1)]
      && ws[i + 1].conns == ws[i].conns[o.c := ws[i].conns[o.c].(refCount := ws[i].conns[o.c].refCount - 1)]
  {
    hide IsRun, Inv, Known;
    WorkAt(ws, ss, i, RunTask);
    ReleasedMessage(Calm(ws[i]), m);
  }

  lemma ReleasedMessage(w: World, m: MId)
    requires Inv(w) && w.pc == Running(InternalRelease(m))
    ensures m in w.pool.owner && m in w.pool.header && !Referenced(w.pool, InHand(w.pc), m)
    ensures w.pool.owner[m].p in w.protos && w.pool.owner[m].c in w.conns
  {
    hide Objects, PoolOk, Order, CloseTokens, ConnTokens, ProtoTokens, Referenced;
    assert Tokens(w.tasks, w.pc, w.events)[InternalRelease(m)] >= 1;
  }

  // onStop takes its connection from the manager's list, and nothing else from it.
  lemma OnStopErases(ws: seq<World>, ss: seq<Step>, i: nat, c: CId)
    requires IsRun(ws, ss) && i < |ss| && ss[i] == Net(OnStop(c))
    ensures |ws| == |ss| + 1 && c in ws[i].manager && c in ws[i + 1].conns && ws[i + 1].conns[c].socket == Gone
    ensures forall x :: x in ws[i + 1].manager <==> x in ws[i].manager && x != c
  {
    hide IsRun, Inv, Known, StopConn, NoDup;
    NetAt(ws, ss, i, OnStop(c));
    StopFound(Calm(ws[i]), c);
    StopAt(Calm(ws[i]), c);
  }

  lemma StopAt(w: World, c: CId)
    requires Known(w) && c in w.conns && c in w.manager && NoDup(w.manager)
    ensures var w' := StopConn(w, c);
      && c in w'.conns && w'.conns[c].socket == Gone
      && forall x :: x in w'.manager <==> x in w.manager && x != c
  {
    hide Known, NoDup;
    Erased(w.manager, c);
  }

  lemma StopFound(w: World, c: CId)
    requires Inv(w) && c in w.stops
    ensures c in w.manager && c in w.conns && NoDup(w.manager)
  {
    hide PoolOk, Obligations, Order, ProtoCounts, ConnCounts, Links, OwnersAlive, NoDup;
    assert c in w.conns;
    ConnIn(w, c);
  }

  lemma Erased(s: seq<CId>, c: CId)
    requires NoDup(s) && c in s
    ensures IndexOf(s, c).Some?
    ensures var i := IndexOf(s, c).value; forall x :: x in s[..i] + s[i + 1..] <==> x in s && x != c
  {
    var i := IndexOf(s, c).value;
    assert s == s[..i] + [s[i]] + s[i + 1..];
  }

  // getOutputMessage of a delegate gives it a message for its own protocol and connection, of full
  // header room and not yet framed.
  lemma DelegateGets(ws: seq<World>, ss: seq<Step>, i: nat, newMsg: MId)
    requires IsRun(ws, ss) && i < |ss| && ss[i] == Work(GetMessage(false, newMsg))
    ensures |ws| == |ss| + 1 && ws[i].pc.Delegating? && ws[i].pc.p in ws[i].protos
    ensures var p, m := ws[i].pc.p, Taken(ws[i].pool, newMsg);
      && ws[i].protos[p].connection.Some?
      && ws[i + 1].pc == ws[i].pc.(hand := Unsent(m)) && m !in ws[i].pool.owner
      && ws[i + 1].pool.owner == ws[i].pool.owner[m := Owner(p, ws[i].protos[p].connection.value)]
      && m in ws[i + 1].pool.header && ws[i + 1].pool.header[m] == Header(8, 0)
      && ws[i + 1].pool.free == (if ws[i].pool.free == [] then [] else ws[i].pool.free[..|ws[i].pool.free| - 1])
      && ws[i + 1].pool.autoSend == ws[i].pool.autoSend && ws[i + 1].pool.addQueue == ws[i].pool.addQueue
  {
    hide IsRun, Inv;
    WorkAt(ws, ss, i, GetMessage(false, newMsg));
    GetsFree(Calm(ws[i]), newMsg);
    hide Known;
  }

  lemma GetsFree(w: World, newMsg: MId)
    requires Inv(w) && NewMessage(w, newMsg) && w.pc.Delegating?
    ensures w.pc.p in w.protos && w.protos[w.pc.p].connection.Some? && w.protos[w.pc.p].deletions == 0
    ensures Taken(w.pool, newMsg) !in w.pool.owner
    ensures w.pool.free != [] ==>
      Taken(w.pool, newMsg) in w.pool.header && w.pool.header[Taken(w.pool, newMsg)].start == 8
  {
    hide Objects, Obligations, Order, OnePlace, Writes;
    DelegateFinds(w, w.pc.p);
  }

  // getConnection()->close() of a delegate
  lemma DelegateCloses(ws: seq<World>, ss: seq<Step>, i: nat)
    requires IsRun(ws, ss) && i < |ss| && ss[i] == Work(CloseClient)
    ensures |ws| == |ss| + 1 && ws[i].pc.Delegating? && ws[i].pc.p in ws[i].protos
    ensures ws[i].protos[ws[i].pc.p].connection.Some?
    ensures var c := ws[i].protos[ws[i].pc.p].connection.value;
      && c in ws[i].conns && (ws[i].conns[c].state == Open ==> AskedToClose(ws[i].tasks, ws[i + 1], c))
      && (ws[i].conns[c].state != Open ==> ws[i + 1].conns == ws[i].conns && ws[i + 1].tasks == ws[i].tasks)
  {
    hide IsRun, Inv;
    WorkAt(ws, ss, i, CloseClient);
    DelegateFinds(Calm(ws[i]), ws[i].pc.p);
    hide Known;
    AttachedLives(Calm(ws[i]), ws[i].pc.p);
  }

  // ----- the first packet of a connection -----

  // The world in which onRecvFirstMessage is called: the packet is read, and the protocol is made.
  function Introduced(w: World, c: CId, p: PId): World
    requires c in w.conns
  {
    var d := w.conns[c].(reading := NotReading, pendingRead := w.conns[c].pendingRead - 1, receivedFirst := true,
                         protocol := Some(p));
    w.(conns := w.conns[c := d], protos := w.protos[p := Proto(Some(c), 0, 0)])
  }

  lemma Introduces(w: World, c: CId, p: PId, first: FirstPacket, t: Option<bool>)
    requires Known(w) && c in w.conns && w.conns[c].state == Open && !w.conns[c].readError && p !in w.protos
    requires !w.conns[c].receivedFirst && w.conns[c].protocol.None? && !first.NoService?
    ensures Known(Introduced(w, c, p))
    ensures PacketStep(w, c, NoError, false, p, first, t) == Deliver(Introduced(w, c, p), c, p, first, t)
  {
    hide Known, Deliver;
    var d := w.conns[c];
    var w1 := CountDown(TakeRead(w, c), c);
    assert w1.conns == w.conns[c := d.(reading := NotReading, pendingRead := d.pendingRead - 1)];
    var w2 := Received(w1, c);
    assert w2.conns == w.conns[c := d.(reading := NotReading, pendingRead := d.pendingRead - 1, receivedFirst := true)];
    var w3 := Attach(w2, c, p);
    assert w3.conns == Introduced(w, c, p).conns;
    assert w3 == Introduced(w, c, p);
  }

  // What becomes of it: no service for its id, or a bad key, closes the connection; an accepted one
  // queues its delegate at the back, and reading goes on.
  lemma FirstPacketDecides(ws: seq<World>, ss: seq<Step>, i: nat, c: CId, p: PId, first: FirstPacket)
    requires IsRun(ws, ss) && i < |ss| && ss[i] == Net(ParsePacket(c, NoError, false, p, first, None))
    ensures |ws| == |ss| + 1 && c in ws[i].conns
    ensures var d := ws[i].conns[c];
      d.state == Open && !d.receivedFirst && d.protocol.None? ==>
        && (first.NoService? || first.BadKey? ==> AskedToClose(ws[i].tasks, ws[i + 1], c))
        && (first.Accepted? ==>
              && c in ws[i + 1].conns && ws[i + 1].conns[c] ==
                   d.(receivedFirst := true, protocol := Some(p), reading := ReadingHeader)
              && ws[i + 1].tasks == ws[i].tasks + [Delegate(p)]
              && ws[i + 1].protos == ws[i].protos[p := Proto(Some(c), 0, 0)])
  {
    hide IsRun, Inv, Known, PacketStep, AskedToClose;
    NetAt(ws, ss, i, ParsePacket(c, NoError, false, p, first, None));
    var w, d := Calm(ws[i]), ws[i].conns[c];
    OpenReads(w, c);
    if d.state == Open && !d.receivedFirst && d.protocol.None? {
      match first {
        case NoService => NobodyServes(w, c, p);
        case BadKey => KeyIsBad(w, c, p);
        case Accepted => IsAccepted(w, c, p);
        case Rejected(_, _, _) =>
      }
    }
  }

  lemma NobodyServes(w: World, c: CId, p: PId)
    requires Known(w) && c in w.conns && w.conns[c].state == Open && !w.conns[c].readError && p !in w.protos
    requires !w.conns[c].receivedFirst && w.conns[c].protocol.None?
    ensures AskedToClose(w.tasks, PacketStep(w, c, NoError, false, p, NoService, None), c)
  {
    hide Known, Deliver;
  }

  lemma KeyIsBad(w: World, c: CId, p: PId)
    requires Known(w) && c in w.conns && w.conns[c].state == Open && !w.conns[c].readError && p !in w.protos
    requires !w.conns[c].receivedFirst && w.conns[c].protocol.None?
    ensures AskedToClose(w.tasks, PacketStep(w, c, NoError, false, p, BadKey, None), c)
  {
    hide Known, PacketStep;
    Introduces(w, c, p, BadKey, None);
  }

  lemma IsAccepted(w: World, c: CId, p: PId)
    requires Known(w) && c in w.conns && w.conns[c].state == Open && !w.conns[c].readError && p !in w.protos
    requires !w.conns[c].receivedFirst && w.conns[c].protocol.None?
    ensures var w' := PacketStep(w, c, NoError, false, p, FirstPacket.Accepted, None);
      && c in w'.conns
      && w'.conns[c] == w.conns[c].(receivedFirst := true, protocol := Some(p), reading := ReadingHeader)
      && w'.tasks == w.tasks + [Delegate(p)] && w'.protos == w.protos[p := Proto(Some(c), 0, 0)]
  {
    hide Known, PacketStep;
    Introduces(w, c, p, FirstPacket.Accepted, None);
  }

  // A rejected one is answered and closed: the framed answer is being written, and the close is queued.
  lemma RejectedIsAnswered(ws: seq<World>, ss: seq<Step>, i: nat, c: CId, p: PId, newMsg: MId, forceSlow: bool)
    requires IsRun(ws, ss) && i < |ss|
    requires ss[i] == Net(ParsePacket(c, NoError, false, p, Rejected(newMsg, false, forceSlow), None))
    ensures |ws| == |ss| + 1 && c in ws[i].conns
    ensures var d, m, w' := ws[i].conns[c], Taken(ws[i].pool, newMsg), ws[i + 1];
      d.state == Open && !d.receivedFirst && d.protocol.None? && d.pendingWrite == 0 ==>
        && AskedToClose(ws[i].tasks, w', c) && w'.conns[c].pendingWrite == 1
        && w'.pool.writes == ws[i].pool.writes + {m} && m in w'.pool.header && w'.pool.header[m] == Header(0, 1)
        && w'.pool.owner == ws[i].pool.owner[m := Owner(p, c)]
  {
    hide IsRun, Inv, Known, PacketStep, AskedToClose;
    NetAt(ws, ss, i, ParsePacket(c, NoError, false, p, Rejected(newMsg, false, forceSlow), None));
    var w, d := Calm(ws[i]), ws[i].conns[c];
    OpenReads(w, c);
    if d.state == Open && !d.receivedFirst && d.protocol.None? && d.pendingWrite == 0 {
      FreeHasRoom(w, newMsg);
      Introduces(w, c, p, Rejected(newMsg, false, forceSlow), None);
      IsAnswered(Introduced(w, c, p), c, p, newMsg, forceSlow);
    }
  }

  lemma FreeHasRoom(w: World, newMsg: MId)
    requires Inv(w) && NewMessage(w, newMsg)
    ensures w.pool.free != [] ==>
      Taken(w.pool, newMsg) in w.pool.header && w.pool.header[Taken(w.pool, newMsg)].start == 8
    ensures w.pool.held == {} ==> Taken(w.pool, newMsg) !in w.pool.held
  {
    hide Objects, Obligations, Order, OnePlace, Writes;
  }

  // The first message that is sent on an idle open connection
  lemma SendsAtOnce(w: World, m: MId, forceSlow: bool)
    requires Known(w) && m in w.pool.owner && w.pool.owner[m].c in w.conns && m in w.pool.header
    requires var d := w.conns[w.pool.owner[m].c]; d.state == Open && !d.writeError && d.pendingWrite == 0
    requires w.pool.header[m] == Header(8, 0)
    ensures var w', c := Send(w, m, false, forceSlow), w.pool.owner[m].c;
      && w'.conns == w.conns[c := w.conns[c].(pendingWrite := 1)] && w'.tasks == w.tasks && w'.protos == w.protos
      && w'.pool.writes == w.pool.writes + {m} && w'.pool.owner == w.pool.owner
      && w'.pool.header == w.pool.header[m := Header(0, 1)] && w'.pc == w.pc
  {
    hide Known, Frame;
    Refinement.SendEffect(w, m, false, forceSlow);
    Refinement.SendHeader(w, m, false, forceSlow);
    Refinement.SendFrames(w, m);
  }

  // disconnectClient up to the end of send()
  lemma Answers(w: World, c: CId, p: PId, newMsg: MId, forceSlow: bool)
    requires Known(w) && c in w.conns && p in w.protos && w.protos[p] == Proto(Some(c), 0, 0)
    requires w.conns[c].state == Open && !w.conns[c].writeError && w.conns[c].pendingWrite == 0
    requires w.pool.free != [] ==>
      Taken(w.pool, newMsg) in w.pool.header && w.pool.header[Taken(w.pool, newMsg)].start == 8
    ensures var m, w1 := Taken(w.pool, newMsg), Alloc(w, p, false, newMsg);
      var w' := Send(w1, m, false, forceSlow);
      && w'.conns == w.conns[c := w.conns[c].(refCount := w.conns[c].refCount + 1, pendingWrite := 1)]
      && w'.tasks == w.tasks && p in w'.protos && w'.protos[p].connection == Some(c)
      && w'.pool.writes == w.pool.writes + {m} && m in w'.pool.header && w'.pool.header[m] == Header(0, 1)
      && w'.pool.owner == w.pool.owner[m := Owner(p, c)] && w'.pc == w.pc
  {
    hide Known, Send;
    var m, w1 := Taken(w.pool, newMsg), Alloc(w, p, false, newMsg);
    SendsAtOnce(w1, m, forceSlow);
  }

  // A message that is being written is not released when the local goes.
  lemma DropsWritten(w: World, m: MId)
    requires Known(w) && m in w.pool.owner && m in w.pool.writes
    ensures Drop(w, m) == w.(pool := w.pool.(held := w.pool.held - {m}))
  {
    hide Known;
  }

  lemma IsDisconnected(w: World, c: CId, p: PId, newMsg: MId, forceSlow: bool)
    requires Known(w) && c in w.conns && p in w.protos && w.protos[p] == Proto(Some(c), 0, 0)
    requires w.conns[c].state == Open && !w.conns[c].writeError && w.conns[c].pendingWrite == 0
    requires w.pool.free != [] ==>
      Taken(w.pool, newMsg) in w.pool.header && w.pool.header[Taken(w.pool, newMsg)].start == 8
    ensures var m, w' := Taken(w.pool, newMsg), Disconnect(w, p, newMsg, false, forceSlow);
      && AskedToClose(w.tasks, w', c) && w'.conns[c].pendingWrite == 1
      && w'.pool.writes == w.pool.writes + {m} && m in w'.pool.header && w'.pool.header[m] == Header(0, 1)
      && w'.pool.owner == w.pool.owner[m := Owner(p, c)]
  {
    hide Known, Send, Alloc, Drop;
    Answers(w, c, p, newMsg, forceSlow);
    var m := Taken(w.pool, newMsg);
    var w2 := Send(Alloc(w, p, false, newMsg), m, false, forceSlow);
    DropsWritten(CloseOf(w2, p), m);
  }

  lemma IsAnswered(w: World, c: CId, p: PId, newMsg: MId, forceSlow: bool)
    requires Known(w) && c in w.conns && p in w.protos && w.protos[p] == Proto(Some(c), 0, 0)
    requires w.conns[c].state == Open && !w.conns[c].writeError && w.conns[c].pendingWrite == 0
    requires w.pool.free != [] ==>
      Taken(w.pool, newMsg) in w.pool.header && w.pool.header[Taken(w.pool, newMsg)].start == 8
    ensures var m, w' := Taken(w.pool, newMsg), Deliver(w, c, p, Rejected(newMsg, false, forceSlow), None);
      && AskedToClose(w.tasks, w', c) && w'.conns[c].pendingWrite == 1
      && w'.pool.writes == w.pool.writes + {m} && m in w'.pool.header && w'.pool.header[m] == Header(0, 1)
      && w'.pool.owner == w.pool.owner[m := Owner(p, c)]
  {
    hide Known, Disconnect;
    IsDisconnected(w, c, p, newMsg, forceSlow);
  }

  // What send() of a delegate does to an open connection that is not writing
  lemma DelegateSends(ws: seq<World>, ss: seq<Step>, i: nat, forceSlow: bool)
    requires IsRun(ws, ss) && i < |ss| && ss[i] == Work(SendMessage(false, forceSlow))
    ensures |ws| == |ss| + 1 && ws[i].pc.Delegating? && ws[i].pc.hand.Unsent? && ws[i].pc.hand.m in ws[i].pool.owner
    ensures ws[i].pool.owner[ws[i].pc.hand.m].c in ws[i].conns
    ensures var m := ws[i].pc.hand.m; var c := ws[i].pool.owner[m].c; var d := ws[i].conns[c];
      d.state == Open && d.pendingWrite == 0 ==>
        && ws[i + 1].conns == ws[i].conns[c := d.(pendingWrite := 1)] && ws[i + 1].tasks == ws[i].tasks
        && ws[i + 1].pool.writes == ws[i].pool.writes + {m} && ws[i + 1].pc == ws[i].pc.(hand := Sent(m))
        && m in ws[i + 1].pool.header && ws[i + 1].pool.header[m] == Header(0, 1)
  {
    hide IsRun, Inv, Send;
    WorkAt(ws, ss, i, SendMessage(false, forceSlow));
    var w := Calm(ws[i]);
    HandFacts(w);
    hide Known;
    OpenReads(w, w.pool.owner[w.pc.hand.m].c);
    var d := w.conns[w.pool.owner[w.pc.hand.m].c];
    if d.state == Open && d.pendingWrite == 0 {
      SendsAtOnce(Handed(w), w.pc.hand.m, forceSlow);
    }
  }

  lemma HandFacts(w: World)
    requires Inv(w) && w.pc.Delegating? && w.pc.hand.Unsent?
    ensures var m := w.pc.hand.m;
      && m in w.pool.owner && m in w.pool.header && w.pool.header[m] == Header(8, 0)
      && w.pool.owner[m].c in w.conns && w.pool.owner[m].p in w.protos
  {
    hide Objects, Obligations, Order, OnePlace, Writes, Places;
    assert HeaderOk(w.pool.header[w.pc.hand.m]);
  }

  // ----- the queues of the pool, and new connections -----

  // sendAll takes the queued messages from the front: an expired one is framed and forgotten, any other
  // goes to either end of m_autoSend.
  lemma QueuedMoves(ws: seq<World>, ss: seq<Step>, i: nat, dropIt: bool, front: bool)
    requires IsRun(ws, ss) && i < |ss| && ss[i] == Work(MoveQueued(dropIt, front))
    ensures |ws| == |ss| + 1 && ws[i].pool.addQueue != []
    ensures var m, auto, pool := ws[i].pool.addQueue[0], ws[i].pool.autoSend, ws[i + 1].pool;
      && pool.addQueue == ws[i].pool.addQueue[1..]
      && (dropIt ==> pool.autoSend == auto && m in pool.header && pool.header[m] == Header(0, 1))
      && (!dropIt ==> pool.autoSend == if front then [m] + auto else auto + [m])
  {
    hide IsRun, Inv, Known;
    WorkAt(ws, ss, i, MoveQueued(dropIt, front));
    QueuedHeader(Calm(ws[i]));
  }

  lemma QueuedHeader(w: World)
    requires Inv(w) && w.pool.addQueue != []
    ensures var m := w.pool.addQueue[0];
      && m in w.pool.owner && w.pool.owner[m].p in w.protos
      && m in w.pool.header && w.pool.header[m] == Header(8, 0)
  {
    hide Objects, Obligations, Order, OnePlace, Writes, Places;
    assert HeaderOk(w.pool.header[w.pool.addQueue[0]]);
  }

  // An autosend message goes to the back of m_autoSend.
  lemma AutoIsQueued(ws: seq<World>, ss: seq<Step>, i: nat, newMsg: MId)
    requires IsRun(ws, ss) && i < |ss| && ss[i] == Work(GetMessage(true, newMsg))
    ensures |ws| == |ss| + 1 && ws[i].pc.Delegating?
    ensures var m := Taken(ws[i].pool, newMsg);
      ws[i + 1].pool.autoSend == ws[i].pool.autoSend + [m] && ws[i + 1].pc == ws[i].pc.(hand := Sent(m))
  {
    hide IsRun, Inv;
    WorkAt(ws, ss, i, GetMessage(true, newMsg));
    GetsFree(Calm(ws[i]), newMsg);
    hide Known;
  }

  // A message that cannot be sent at once because another is being written goes to the back of m_addQueue.
  lemma SecondIsQueued(ws: seq<World>, ss: seq<Step>, i: nat, threw: bool, forceSlow: bool)
    requires IsRun(ws, ss) && i < |ss| && ss[i] == Work(SendMessage(threw, forceSlow))
    ensures |ws| == |ss| + 1 && ws[i].pc.Delegating? && ws[i].pc.hand.Unsent? && ws[i].pc.hand.m in ws[i].pool.owner
    ensures ws[i].pool.owner[ws[i].pc.hand.m].c in ws[i].conns
    ensures var m := ws[i].pc.hand.m; var d := ws[i].conns[ws[i].pool.owner[m].c];
      d.state == Open && d.pendingWrite == 1 ==>
        && ws[i + 1].pool.addQueue == ws[i].pool.addQueue + [m] && ws[i + 1].conns == ws[i].conns
        && ws[i + 1].pool.writes == ws[i].pool.writes && ws[i + 1].pool.header == ws[i].pool.header
  {
    hide IsRun, Inv;
    WorkAt(ws, ss, i, SendMessage(threw, forceSlow));
    HandFacts(Calm(ws[i]));
    hide Known;
    OpenReads(Calm(ws[i]), ws[i].pool.owner[ws[i].pc.hand.m].c);
  }

  // An accepted socket becomes an open connection at the end of the manager's list, whose first header
  // is being read; a single-socket service gives it its protocol.
  lemma AcceptOpens(ws: seq<World>, ss: seq<Step>, i: nat, c: CId, single: Option<PId>)
    requires IsRun(ws, ss) && i < |ss| && ss[i] == Net(Accept(c, single, None))
    ensures |ws| == |ss| + 1 && c !in ws[i].conns && ws[i + 1].manager == ws[i].manager + [c]
    ensures ws[i + 1].conns == ws[i].conns[c :=
      Conn(Open, Connected, 0, 1, false, false, false, ReadingHeader, single, 0, 0, 0)]
    ensures single.Some? ==> ws[i + 1].protos == ws[i].protos[single.value := Proto(Some(c), 0, 0)]
  {
    hide IsRun, Inv, Known;
    NetAt(ws, ss, i, Accept(c, single, None));
  }
}
