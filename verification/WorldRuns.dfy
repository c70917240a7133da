/** The invariant over whole runs, and what it means for the source. */
module WorldRuns {
  import opened Wrappers
  import opened ConnectionState
  import opened World
  import opened WorldSteps
  import opened WorldInvariant
  import opened WorldConnProofs
  import opened WorldSendProofs
  import opened WorldTaskProofs
  import opened WorldPoolProofs
  import opened WorldStepProofs

  // Between two steps no function is running, so no local refers to a message.
  ghost predicate AtRest(w: World) {
    Inv(w) && w.pool.held == {}
  }

  // ----- new connections and protocols -----

  lemma NewConnCounts(conns: map<CId, Conn>, protos: map<PId, Proto>, owner: map<MId, Owner>, c: CId)
    requires ConnCounts(conns, owner) && OwnersAlive(conns, protos, owner) && c !in conns
    ensures ConnCounts(conns[c := FRESH], owner) && OwnersAlive(conns[c := FRESH], protos, owner)
  {
    assert forall m :: m in owner ==> owner[m].c != c;
    assert ConnRefs(owner, c) == {};
    hide ConnRefs;
  }

  lemma NewConnLinks(conns: map<CId, Conn>, protos: map<PId, Proto>, c: CId)
    requires Links(conns, protos) && ConnsOk(conns) && c !in conns
    ensures Links(conns[c := FRESH], protos) && ConnsOk(conns[c := FRESH])
  {
  }

  lemma NewConnListed(conns: map<CId, Conn>, stops: multiset<CId>, manager: seq<CId>, c: CId)
    requires Manager(conns, stops, manager) && c !in conns && c !in manager && c !in stops
    ensures Manager(conns[c := FRESH], stops, manager + [c])
  {
    assert forall x :: x in manager + [c] <==> x in manager || x == c;
  }

  lemma CreateObjects(w: World, c: CId)
    requires Known(w) && Objects(w) && c !in w.conns
    ensures Objects(Create(w, c))
  {
    hide ConnsOk, Manager, Links, ProtoCounts, ConnCounts, OwnersAlive, KnownPc, KnownTask, KnownMessages, KnownLinks;
    NewConnCounts(w.conns, w.protos, w.pool.owner, c);
    NewConnLinks(w.conns, w.protos, c);
    NewConnListed(w.conns, w.stops, w.manager, c);
  }

  lemma CreateRest(w: World, c: CId)
    requires Known(w) && PoolOk(w) && Obligations(w) && Order(w) && c !in w.conns
    ensures PoolOk(Create(w, c)) && Obligations(Create(w, c)) && Order(Create(w, c))
  {
    hide Partition, Headers, OnePlace, Delegates, Events, ReleaseTokens, ProtoTokens, Tokens, Line, PcOk;
  }

  lemma CreateKeeps(w: World, c: CId)
    requires AtRest(w) && c !in w.conns
    ensures AtRest(Create(w, c))
  {
    hide Known, Objects, PoolOk, Obligations, Order;
    CreateObjects(w, c);
    CreateRest(w, c);
  }

  lemma NewProtoCounts(conns: map<CId, Conn>, protos: map<PId, Proto>, owner: map<MId, Owner>, c: CId, d: Conn, p: PId)
    requires ProtoCounts(protos, owner) && ConnCounts(conns, owner) && OwnersAlive(conns, protos, owner)
    requires p !in protos && c in conns && d.refCount == conns[c].refCount && d.stopPosts == conns[c].stopPosts
    ensures ProtoCounts(protos[p := Proto(Some(c), 0, 0)], owner) && ConnCounts(conns[c := d], owner)
    ensures OwnersAlive(conns[c := d], protos[p := Proto(Some(c), 0, 0)], owner)
  {
    assert ProtoRefs(owner, p) == {} by {
      assert forall m :: m in owner ==> owner[m].p != p;
    }
    hide ProtoRefs, ConnRefs;
  }

  lemma NewProtoLinks(conns: map<CId, Conn>, protos: map<PId, Proto>, c: CId, p: PId)
    requires Links(conns, protos) && p !in protos && c in conns && conns[c].protocol.None?
    ensures Links(conns[c := conns[c].(protocol := Some(p))], protos[p := Proto(Some(c), 0, 0)])
  {
  }

  lemma NewProtoConn(conns: map<CId, Conn>, stops: multiset<CId>, manager: seq<CId>, c: CId, p: PId)
    requires ConnsOk(conns) && Manager(conns, stops, manager) && c in conns && conns[c].state == Open
    ensures ConnsOk(conns[c := conns[c].(protocol := Some(p))])
    ensures Manager(conns[c := conns[c].(protocol := Some(p))], stops, manager)
  {
    assert ConnOk(conns[c]);
  }

  lemma AttachObjects(w: World, c: CId, p: PId)
    requires Known(w) && Objects(w) && p !in w.protos && c in w.conns
    requires w.conns[c].protocol.None? && w.conns[c].state == Open
    ensures Objects(Attach(w, c, p))
  {
    hide Known, ConnsOk, Manager, Links, ProtoCounts, ConnCounts, OwnersAlive;
    NewProtoCounts(w.conns, w.protos, w.pool.owner, c, w.conns[c].(protocol := Some(p)), p);
    NewProtoLinks(w.conns, w.protos, c, p);
    NewProtoConn(w.conns, w.stops, w.manager, c, p);
  }

  lemma AttachPool(w: World, c: CId, p: PId)
    requires Known(w) && PoolOk(w) && p !in w.protos && c in w.conns
    ensures PoolOk(Attach(w, c, p))
  {
    hide Known, Partition, Headers, OnePlace;
  }

  lemma AttachWork(w: World, c: CId, p: PId)
    requires Known(w) && Obligations(w) && Order(w) && p !in w.protos && c in w.conns
    ensures Obligations(Attach(w, c, p)) && Order(Attach(w, c, p))
  {
    hide Known, ReleaseTokens, Tokens, Line, Events, Referenced;
  }

  lemma AttachKeeps(w: World, c: CId, p: PId)
    requires AtRest(w) && p !in w.protos && c in w.conns && w.conns[c].protocol.None? && w.conns[c].state == Open
    ensures AtRest(Attach(w, c, p))
  {
    hide Known, Objects, PoolOk, Obligations, Order;
    AttachObjects(w, c, p);
    AttachPool(w, c, p);
    AttachWork(w, c, p);
  }

  lemma AcceptKeeps(w: World, c: CId, single: Option<PId>, t: Option<bool>)
    requires AtRest(w) && c !in w.conns && (single.Some? ==> single.value !in w.protos)
    ensures AtRest(AcceptStep(w, c, single, t))
  {
    hide Known, Objects, PoolOk, Obligations, Order;
    CreateKeeps(w, c);
    var w1 := Create(w, c);
    if single.Some? {
      AttachKeeps(w1, c, single.value);
    }
    StartReadKeeps(if single.Some? then Attach(w1, c, single.value) else w1, c, ReadingHeader, t);
  }

  // ----- reads -----

  lemma HeaderKeeps(w: World, c: CId, e: Error, badSize: bool, t: Option<bool>)
    requires AtRest(w) && c in w.conns
    ensures AtRest(HeaderStep(w, c, e, badSize, t))
  {
    hide Known, Objects, PoolOk, Obligations, Order;
    ConnOf(w, c);
    var w1 := TakeRead(w, c);
    SetKeeps(w, c, w1.conns[c]);
    if e != NoError || badSize {
      ReadFailureKeeps(w1, c, e);
    } else if !ReadGoesOn(w1.conns[c]) {
      CloseKeeps(w1, c);
    } else {
      var w2 := CountDown(w1, c);
      SetKeeps(w1, c, w2.conns[c]);
      StartReadKeeps(w2, c, ReadingPacket, t);
    }
  }

  lemma CloseOfKeeps(w: World, p: PId)
    requires Inv(w) && Attached(w.protos, p) && w.protos[p].connection.value in w.conns
    ensures Inv(CloseOf(w, p))
  {
    hide Known, Objects, PoolOk, Obligations, Order;
    CloseKeeps(w, w.protos[p].connection.value);
  }

  lemma UnplacedAfterAlloc(w: World, m: MId)
    requires m in w.pool.owner && m in w.pool.header && w.pool.header[m] == Header(8, 0) && m in w.pool.held
    requires Places(w.pool.autoSend, w.pool.addQueue, w.pool.writes)[m] == 0 && m !in InHand(w.pc)
    ensures Unplaced(w, m)
  {
  }

  lemma DisconnectKeeps(w: World, p: PId, newMsg: MId, threw: bool, forceSlow: bool)
    requires AtRest(w) && Attached(w.protos, p) && NewMessage(w, newMsg)
    ensures AtRest(Disconnect(w, p, newMsg, threw, forceSlow))
  {
    hide Known, Objects, PoolOk, Obligations, Order, Unplaced;
    var m := Taken(w.pool, newMsg);
    AttachedLives(w, p);
    AllocKeeps(w, p, false, newMsg);
    var w1 := Alloc(w, p, false, newMsg);
    UnplacedAfterAlloc(w1, m);
    SendKeeps(w1, m, threw, forceSlow);
    var w2 := Send(w1, m, threw, forceSlow);
    AttachedLives(w2, p);
    CloseOfKeeps(w2, p);
    DropKeeps(CloseOf(w2, p), m);
  }

  // A protocol with a connection is alive, and the connection has not been closed.
  lemma AttachedLives(w: World, p: PId)
    requires Inv(w) && Attached(w.protos, p)
    ensures w.protos[p].deletions == 0
    ensures w.protos[p].connection.value in w.conns && w.conns[w.protos[p].connection.value].protocol == Some(p)
    ensures var c := w.conns[w.protos[p].connection.value]; c.state == Open || c.state == RequestClose
    ensures w.protos[p].connection.value in w.manager
  {
    hide PoolOk, Obligations, Order, Known;
    AttachedAlive(w, p);
    assert ConnOk(w.conns[w.protos[p].connection.value]);
  }

  lemma DelegateBehind(line: seq<Task>, protos: map<PId, Proto>, p: PId)
    requires Delegates(line, protos) && Attached(protos, p)
    requires forall i :: 0 <= i < |line| && line[i].CloseConnection? ==> protos[p].connection != Some(line[i].c)
    ensures Delegates(line + [Delegate(p)], protos)
  {
  }

  // While a connection is open no close of it is in the line.
  lemma NoCloseWaiting(w: World, c: CId)
    requires Obligations(w) && c in w.conns && w.conns[c].state == Open
    ensures forall i :: 0 <= i < |Line(w.tasks, w.pc)| && Line(w.tasks, w.pc)[i].CloseConnection? ==>
      Line(w.tasks, w.pc)[i].c != c
  {
    hide ReleaseTokens, ConnTokens, ProtoTokens;
    var line, tokens := Line(w.tasks, w.pc), Tokens(w.tasks, w.pc, w.events);
    assert tokens == multiset(line) + w.events;
    assert tokens[CloseConnection(c)] == 0;
    assert CloseConnection(c) !in multiset(line);
    assert CloseConnection(c) !in line;
  }

  lemma PushDelegateTokens(w: World, p: PId)
    requires Known(w) && Obligations(w) && p in w.protos
    ensures Obligations(PushBack(w, Delegate(p)))
  {
    hide Known, ReleaseTokens, CloseTokens, ConnTokens, ProtoTokens;
    var t := Delegate(p);
    var tokens := Tokens(w.tasks, w.pc, w.events);
    assert Tokens(w.tasks + [t], w.pc, w.events) == tokens + multiset{t};
    NotRelease(tokens, w.pool, InHand(w.pc), t);
    NotClose(tokens, w.conns, t);
    NotConn(tokens, w.conns, t);
    NotProto(tokens, w.protos, t);
  }

  lemma PushDelegateOrder(w: World, p: PId)
    requires Known(w) && Obligations(w) && Order(w) && Attached(w.protos, p)
    requires w.protos[p].connection.value in w.conns && w.conns[w.protos[p].connection.value].state == Open
    ensures Order(PushBack(w, Delegate(p)))
  {
    hide Known, Obligations, Delegates, Events;
    NoCloseWaiting(w, w.protos[p].connection.value);
    assert Line(w.tasks + [Delegate(p)], w.pc) == Line(w.tasks, w.pc) + [Delegate(p)];
    DelegateBehind(Line(w.tasks, w.pc), w.protos, p);
  }

  lemma PushDelegateKeeps(w: World, p: PId)
    requires Inv(w) && Attached(w.protos, p)
    requires w.protos[p].connection.value in w.conns && w.conns[w.protos[p].connection.value].state == Open
    ensures Inv(PushBack(w, Delegate(p)))
  {
    hide Known, Objects, PoolOk, Obligations, Order;
    PushBackRest(w, Delegate(p));
    PushDelegateTokens(w, p);
    PushDelegateOrder(w, p);
  }

  lemma FirstMessageKeeps(w: World, p: PId, first: FirstPacket)
    requires AtRest(w) && Attached(w.protos, p)
    requires w.protos[p].connection.value in w.conns && w.conns[w.protos[p].connection.value].state == Open
    requires first.Rejected? ==> NewMessage(w, first.newMsg)
    ensures AtRest(FirstMessage(w, p, first))
  {
    hide Known, Objects, PoolOk, Obligations, Order;
    match first {
      case NoService =>
      case BadKey => CloseOfKeeps(w, p);
      case Rejected(newMsg, threw, forceSlow) => DisconnectKeeps(w, p, newMsg, threw, forceSlow);
      case Accepted => PushDelegateKeeps(w, p);
    }
  }

  lemma SendListed(w: World, m: MId, threw: bool, forceSlow: bool)
    requires Known(w) && m in w.pool.owner
    ensures Send(w, m, threw, forceSlow).manager == w.manager
  {
    hide Known, SendChoice;
    OwnerIds(w, m);
    var c, p := w.pool.owner[m].c, w.pool.owner[m].p;
    match SendChoice(w.conns[c], forceSlow) {
      case Refused => FrameListed(TouchProtocol(w, p), m);
      case WriteNow => FrameListed(TouchProtocol(w, p), m); hide Frame;
      case _ => hide Frame;
    }
  }

  lemma OwnerIds(w: World, m: MId)
    requires Known(w) && m in w.pool.owner
    ensures m in w.pool.header && w.pool.owner[m].p in w.protos && w.pool.owner[m].c in w.conns
  {
  }

  lemma FrameListed(w: World, m: MId)
    requires Known(w) && m in w.pool.header
    ensures Frame(w, m).manager == w.manager
  {
    hide Known;
  }

  // The first packet takes no connection off the manager's list.
  lemma FirstMessageListed(w: World, p: PId, first: FirstPacket)
    requires Known(w) && p in w.protos
    ensures FirstMessage(w, p, first).manager == w.manager
  {
    hide Known, Send, Alloc, Allocated, Referenced;
    if first.Rejected? && CanAlloc(w, p) {
      AllocListed(w, p, first.newMsg);
      SendListed(Alloc(w, p, false, first.newMsg), Taken(w.pool, first.newMsg), first.threw, first.forceSlow);
    }
  }

  lemma AllocListed(w: World, p: PId, newMsg: MId)
    requires Known(w) && p in w.protos && CanAlloc(w, p)
    ensures Alloc(w, p, false, newMsg).manager == w.manager
  {
    hide Known, Allocated;
  }

  lemma Listed(w: World, c: CId)
    requires Inv(w) && c in w.conns
    ensures w.conns[c].socket == Gone <==> c !in w.manager
  {
    hide Known, PoolOk, Obligations, Order, ConnsOk, Links, OwnersAlive, ProtoCounts, ConnCounts, NoDup;
  }

  lemma DeliverToKeeps(w: World, c: CId, p: PId, first: FirstPacket, t: Option<bool>)
    requires AtRest(w) && Attached(w.protos, p) && w.protos[p].connection == Some(c)
    requires c in w.conns && w.conns[c].state == Open
    requires first.Rejected? ==> NewMessage(w, first.newMsg)
    ensures AtRest(Deliver(w, c, p, first, t))
  {
    hide Known, Objects, PoolOk, Obligations, Order, FirstMessage;
    AttachedLives(w, p);
    FirstMessageKeeps(w, p, first);
    assert TouchProtocol(w, p) == w;
    var w1 := FirstMessage(w, p, first);
    if c in w1.conns {
      ConnOf(w, c);
      Listed(w, c);
      Listed(w1, c);
      FirstMessageListed(w, p, first);
      StartReadKeeps(w1, c, ReadingHeader, t);
    }
  }

  lemma LinkedProtocol(w: World, c: CId)
    requires Inv(w) && c in w.conns && w.conns[c].protocol.Some?
    ensures Attached(w.protos, w.conns[c].protocol.value)
    ensures w.protos[w.conns[c].protocol.value].connection == Some(c)
    ensures w.protos[w.conns[c].protocol.value].deletions == 0
  {
    hide PoolOk, Obligations, Order, Known, ConnsOk, Manager, OwnersAlive, ProtoCounts, ConnCounts;
  }

  // An open connection that has received its first packet has a protocol that is alive.
  lemma DeliverKeeps(w: World, c: CId, p: PId, first: FirstPacket, t: Option<bool>)
    requires AtRest(w) && c in w.conns && w.conns[c].state == Open && p !in w.protos
    requires first.Rejected? ==> NewMessage(w, first.newMsg)
    ensures AtRest(DeliverStep(w, c, p, first, t))
  {
    hide Known, Objects, PoolOk, Obligations, Order;
    ConnOf(w, c);
    if w.conns[c].receivedFirst {
      LinkedProtocol(w, c);
      StartReadKeeps(w, c, ReadingHeader, t);
    } else if w.conns[c].protocol.Some? {
      ReceivedKeeps(w, c);
      LinkedProtocol(w, c);
      DeliverToKeeps(Received(w, c), c, w.conns[c].protocol.value, first, t);
    } else if first.NoService? {
      var r := w.conns[c].(receivedFirst := true);
      RequestKeeps(w, c, CloseRequested(r));
      assert Close(Received(w, c), c) == Requested(w, c, CloseRequested(r));
    } else {
      AttachKeeps(w, c, p);
      var w1 := Attach(w, c, p);
      ReceivedKeeps(w1, c);
      assert Attach(Received(w, c), c, p) == Received(w1, c);
      DeliverToKeeps(Received(w1, c), c, p, first, t);
    }
  }

  lemma ReceivedKeeps(w: World, c: CId)
    requires AtRest(w) && c in w.conns && w.conns[c].protocol.Some?
    ensures AtRest(Received(w, c))
  {
    hide Known, Objects, PoolOk, Obligations, Order;
    ConnOf(w, c);
    SetKeeps(w, c, w.conns[c].(receivedFirst := true));
  }

  lemma PacketKeeps(w: World, c: CId, e: Error, flood: bool, p: PId, first: FirstPacket, t: Option<bool>)
    requires AtRest(w) && c in w.conns && p !in w.protos
    requires first.Rejected? ==> NewMessage(w, first.newMsg)
    ensures AtRest(PacketStep(w, c, e, flood, p, first, t))
  {
    hide Known, Objects, PoolOk, Obligations, Order;
    ConnOf(w, c);
    var w1 := TakeRead(w, c);
    SetKeeps(w, c, w1.conns[c]);
    if e != NoError {
      ReadFailureKeeps(w1, c, e);
    } else if !ReadGoesOn(w1.conns[c]) || flood {
      CloseKeeps(w1, c);
    } else {
      var w2 := CountDown(w1, c);
      SetKeeps(w1, c, w2.conns[c]);
      DeliverKeeps(w2, c, p, first, t);
    }
  }

  lemma TimeoutKeeps(w: World, c: CId, pending: int, failed: bool)
    requires AtRest(w) && c in w.conns && !(w.conns[c].socket == Gone && (pending > 0 || failed))
    ensures AtRest(TimeoutStep(w, c, pending, failed))
  {
    hide Known, Objects, PoolOk, Obligations, Order;
    if pending > 0 || failed {
      DropSocketKeeps(w, c);
    }
  }

  // A timeout handler that was waiting for the lock while onStop ran, and finds a reason to close
  // the socket that is gone
  predicate Late(c: Conn, pending: int, failed: bool) { c.socket == Gone && (pending > 0 || failed) }

  predicate LateTimeout(w: World, s: Step) {
    match s
    case Net(ReadTimeout(c)) => c in w.conns && Late(w.conns[c], w.conns[c].pendingRead, w.conns[c].readError)
    case Net(WriteTimeout(c)) => c in w.conns && Late(w.conns[c], w.conns[c].pendingWrite, w.conns[c].writeError)
    case _ => false
  }

  // It follows the null m_socket; nothing else changes.
  lemma LateStep(w: World, s: Step)
    requires AtRest(w) && Enabled(w, s) && LateTimeout(w, s)
    ensures Next(w, s) == w.(alarms := [NullSocketUsed(s.net.c)])
  {
    hide Known, Objects, PoolOk, Obligations, Order;
    ConnOf(w, s.net.c);
  }

  // ----- the delegate -----

  // When delegate is called its protocol is alive and has a connection.
  lemma DelegateFinds(w: World, p: PId)
    requires Inv(w) && (w.pc == Running(Delegate(p)) || (w.pc.Delegating? && w.pc.p == p))
    ensures Attached(w.protos, p) && w.protos[p].deletions == 0
  {
    hide Known, Objects, Obligations, Events;
    if w.pc.Running? {
      assert Line(w.tasks, w.pc)[0] == Delegate(p);
    }
    AttachedLives(w, p);
  }

  lemma EnterTokens(w: World, p: PId)
    requires Known(w) && Owing(w, multiset{Delegate(p)}) && p in w.protos && w.pc == SendQueued
    ensures Obligations(Enter(w, p))
  {
    hide Known, ReleaseTokens, CloseTokens, ConnTokens, ProtoTokens;
    var t := Delegate(p);
    var tokens := Tokens(w.tasks, w.pc, w.events);
    NotRelease(tokens + multiset{t}, w.pool, InHand(w.pc), t);
    NotClose(tokens + multiset{t}, w.conns, t);
    NotConn(tokens + multiset{t}, w.conns, t);
    NotProto(tokens + multiset{t}, w.protos, t);
    assert tokens + multiset{t} - multiset{t} == tokens;
  }

  lemma EnterRest(w: World, p: PId)
    requires Known(w) && Objects(w) && PoolOk(w) && Order(w) && Attached(w.protos, p) && w.pc == SendQueued
    ensures Objects(Enter(w, p)) && PoolOk(Enter(w, p)) && Order(Enter(w, p))
  {
    hide Known, Partition, Headers, OnePlace, Writes, Delegates, Events;
    hide ProtoCounts, ConnCounts, Links, OwnersAlive, ConnsOk, Manager;
  }

  lemma EnterKeeps(w: World, p: PId)
    requires AtRest(w) && w.pc == Running(Delegate(p)) && p in w.protos
    ensures AtRest(Enter(TouchProtocol(w, p), p))
  {
    hide Known, Objects, PoolOk, Obligations, Order, Owing;
    DelegateFinds(w, p);
    BeginRun(w);
    var w0 := GoTo(w, SendQueued);
    EnterTokens(w0, p);
    EnterRest(w0, p);
    assert Enter(w0, p) == Enter(w, p);
  }

  lemma RunHolds(w: World, t: Task)
    requires Known(w) && KnownTask(t, w.conns, w.protos, w.pool)
    ensures RunStep(w, t).pool.held == w.pool.held
  {
    hide Known, CloseBody;
    match t {
      case CloseConnection(c) => CloseHolds(TouchConnection(GoTo(w, SendQueued), c), c);
      case _ =>
    }
  }

  lemma CloseHolds(w: World, c: CId)
    requires Known(w) && c in w.conns
    ensures CloseConn(w, c).pool == w.pool
  {
    hide Known, CloseBody;
  }

  lemma RunKeeps(w: World)
    requires AtRest(w) && w.pc.Running?
    requires KnownTask(w.pc.task, w.conns, w.protos, w.pool)
    ensures AtRest(RunStep(w, w.pc.task))
  {
    hide Known, Objects, PoolOk, Obligations, Order, CloseConn, ReleaseConn, ReleaseProto, ReleaseMsg;
    hide TouchConnection, TouchProtocol;
    RunHolds(w, w.pc.task);
    match w.pc.task {
      case CloseConnection(c) => RunCloseKeeps(w, c);
      case ReleaseConnection(c) => RunReleaseConnKeeps(w, c);
      case ReleaseProtocol(p) => RunReleaseProtoKeeps(w, p);
      case InternalRelease(m) => RunReleaseMsgKeeps(w, m);
      case Delegate(p) => EnterKeeps(w, p);
    }
  }

  lemma TakeInHandPool(w: World, m: MId, auto: bool)
    requires Known(w) && PoolOk(w) && w.pc.Delegating? && m in w.pool.owner && m in w.pool.header
    requires !auto ==> w.pool.header[m].framed == 0 && Places(w.pool.autoSend, w.pool.addQueue, w.pool.writes)[m] == 0
    ensures PoolOk(TakeInHand(w, m, auto))
  {
    hide Known, Places, OnePlace, Writes;
  }

  lemma TakeInHandTokens(w: World, m: MId, auto: bool)
    requires Known(w) && Obligations(w) && w.pc.Delegating? && w.pc.hand == Empty
    requires m in w.pool.owner && m in w.pool.held
    ensures Obligations(TakeInHand(w, m, auto))
  {
    hide Known, CloseTokens, ConnTokens, ProtoTokens;
    var w' := TakeInHand(w, m, auto);
    assert Tokens(w'.tasks, w'.pc, w'.events) == Tokens(w.tasks, w.pc, w.events);
    hide Tokens;
  }

  lemma TakeInHandRest(w: World, m: MId, auto: bool)
    requires Known(w) && Objects(w) && Order(w) && w.pc.Delegating? && m in w.pool.owner
    ensures Objects(TakeInHand(w, m, auto)) && Order(TakeInHand(w, m, auto))
  {
    hide Known, Delegates, Events;
    hide ProtoCounts, ConnCounts, Links, OwnersAlive, ConnsOk, Manager;
  }

  lemma GetKeeps(w: World, auto: bool, newMsg: MId)
    requires AtRest(w) && w.pc.Delegating? && w.pc.hand == Empty && NewMessage(w, newMsg) && w.pc.p in w.protos
    ensures AtRest(GetStep(w, w.pc.p, auto, newMsg))
  {
    hide Known, Objects, PoolOk, Obligations, Order;
    var p, m := w.pc.p, Taken(w.pool, newMsg);
    DelegateFinds(w, p);
    AllocKeeps(w, p, auto, newMsg);
    var w1 := Alloc(w, p, auto, newMsg);
    TakeInHandPool(w1, m, auto);
    TakeInHandTokens(w1, m, auto);
    TakeInHandRest(w1, m, auto);
  }

  // From Unsent to Sent: the same message stays in hand.
  function Handed(w: World): (r: World)
    requires Known(w) && w.pc.Delegating? && w.pc.hand.Unsent?
    ensures Known(r)
  {
    w.(pc := w.pc.(hand := Sent(w.pc.hand.m)))
  }

  lemma HandedKeeps(w: World)
    requires AtRest(w) && w.pc.Delegating? && w.pc.hand.Unsent?
    ensures AtRest(Handed(w)) && Unplaced(Handed(w), w.pc.hand.m)
  {
    hide ReleaseTokens, CloseTokens, ConnTokens, ProtoTokens, Delegates, Partition, Headers, OnePlace, Writes, Events;
    hide ProtoCounts, ConnCounts, Links, OwnersAlive, ConnsOk, Manager, Places, KnownLinks, KnownMessages;
    var w' := Handed(w);
    assert InHand(w'.pc) == InHand(w.pc);
  }

  lemma SendStepKeeps(w: World, threw: bool, forceSlow: bool)
    requires AtRest(w) && w.pc.Delegating? && w.pc.hand.Unsent?
    ensures AtRest(SendStep(w, threw, forceSlow))
  {
    hide Known, Objects, PoolOk, Obligations, Order, Unplaced;
    HandedKeeps(w);
    UnplacedOwned(Handed(w), w.pc.hand.m);
    SendKeeps(Handed(w), w.pc.hand.m, threw, forceSlow);
  }

  lemma UnplacedOwned(w: World, m: MId)
    requires Unplaced(w, m)
    ensures m in w.pool.owner
  {
  }

  function LetHandGo(w: World): (r: World)
    requires Known(w) && w.pc.Delegating? && w.pc.hand.Sent?
    ensures Known(r)
  {
    w.(pc := w.pc.(hand := Empty))
  }

  lemma HandRest(w: World)
    requires AtRest(w) && w.pc.Delegating? && w.pc.hand.Sent?
    ensures Objects(LetHandGo(w)) && PoolOk(LetHandGo(w)) && Order(LetHandGo(w))
    ensures w.pc.hand.m in w.pool.owner && w.pc.hand.m in w.pool.header
  {
    hide Delegates, Partition, Headers, OnePlace, Writes, Events, Obligations;
    hide ProtoCounts, ConnCounts, Links, OwnersAlive, ConnsOk, Manager, Places, KnownLinks;
    assert Line(w.tasks, LetHandGo(w).pc) == Line(w.tasks, w.pc);
  }

  lemma EmptyHandKeeps(w: World)
    requires AtRest(w) && w.pc.Delegating? && w.pc.hand.Sent?
    ensures AtRest(EmptyHand(w))
  {
    hide Known, Objects, PoolOk, Obligations, Order;
    HandRest(w);
    var m, w1 := w.pc.hand.m, LetHandGo(w);
    LetGoObligations(w, w1, m);
    LetGoRest(w1, m);
  }

  // The delegate marks its close as made.
  function Marked(w: World): (r: World)
    requires Known(w) && w.pc.Delegating?
    ensures Known(r)
  {
    w.(pc := w.pc.(closed := true))
  }

  lemma MarkedKeeps(w: World)
    requires AtRest(w) && w.pc.Delegating?
    ensures AtRest(Marked(w))
  {
    hide ReleaseTokens, CloseTokens, ConnTokens, ProtoTokens, Delegates, Partition, Headers, OnePlace, Writes, Events;
    hide ProtoCounts, ConnCounts, Links, OwnersAlive, ConnsOk, Manager, Places, Known;
    var w' := Marked(w);
    assert InHand(w'.pc) == InHand(w.pc);
  }

  lemma CloseStepKeeps(w: World)
    requires AtRest(w) && w.pc.Delegating? && w.pc.p in w.protos
    ensures AtRest(CloseStep(w))
  {
    hide Known, Objects, PoolOk, Obligations, Order;
    var p := w.pc.p;
    DelegateFinds(w, p);
    AttachedLives(w, p);
    CloseOfKeeps(w, p);
    MarkedKeeps(CloseOf(w, p));
  }

  // ----- every step -----

  lemma NetKeeps(w: World, s: NetStep)
    requires AtRest(w) && NetEnabled(w, s) && !LateTimeout(w, Net(s))
    ensures AtRest(NetNext(w, s))
  {
    EnabledKnown(w, Net(s));
    hide Inv, Known;
    match s {
      case Accept(c, single, t) => AcceptKeeps(w, c, single, t);
      case ParseHeader(c, e, bad, t) => HeaderKeeps(w, c, e, bad, t);
      case ParsePacket(c, e, flood, p, first, t) => PacketKeeps(w, c, e, flood, p, first, t);
      case OnWrite(m, e) => WrittenKeeps(w, m, e);
      case ReadTimeout(c) => TimeoutKeeps(w, c, w.conns[c].pendingRead, w.conns[c].readError);
      case WriteTimeout(c) => TimeoutKeeps(w, c, w.conns[c].pendingWrite, w.conns[c].writeError);
      case OnStop(c) => StopKeeps(w, c);
    }
  }

  lemma EnabledKnown(w: World, s: Step)
    requires Known(w) && Enabled(w, s)
    ensures s.Net? && s.net.ReadTimeout? ==> s.net.c in w.conns
    ensures s.Net? && s.net.WriteTimeout? ==> s.net.c in w.conns
    ensures s.Net? && s.net.OnStop? ==> s.net.c in w.conns
    ensures s.Net? && s.net.OnWrite? ==> s.net.m in w.pool.owner
    ensures w.pc.Delegating? ==> w.pc.p in w.protos
    ensures w.pc.Running? ==> KnownTask(w.pc.task, w.conns, w.protos, w.pool)
  {
  }

  lemma WorkKeeps(w: World, s: WorkStep)
    requires AtRest(w) && WorkEnabled(w, s)
    ensures AtRest(WorkNext(w, s))
  {
    EnabledKnown(w, Work(s));
    hide Inv, Known;
    match s {
      case ScheduledEvent(t) => FireKeeps(w, t);
      case PopTask => PopKeeps(w);
      case RunTask => RunKeeps(w);
      case GetMessage(auto, newMsg) => GetKeeps(w, auto, newMsg);
      case SendMessage(threw, forceSlow) => SendStepKeeps(w, threw, forceSlow);
      case DropMessage => EmptyHandKeeps(w);
      case CloseClient => CloseStepKeeps(w);
      case LeaveDelegate => GoToKeeps(w, SendQueued);
      case MoveQueued(dropIt, front) => if dropIt { ExpireKeeps(w); } else { MoveKeeps(w, front); }
      case QueueMoved => GoToKeeps(w, SendAuto);
      case SendFront(threw, forceSlow) => FrontKeeps(w, threw, forceSlow);
      case SendAllDone => GoToKeeps(w, Idle);
    }
  }

  lemma StepKeeps(w: World, s: Step)
    requires AtRest(w) && Enabled(w, s) && !LateTimeout(w, s)
    ensures AtRest(Next(w, s))
  {
    hide AtRest, Known;
    match s {
      case Net(n) => NetKeeps(w, n);
      case Work(k) => WorkKeeps(w, k);
    }
  }

  lemma StartAtRest()
    ensures AtRest(START)
  {
    assert Line([], Idle) == [];
  }

  // ----- runs -----

  // The worlds of a run of the server, from its start, with the step taken between each two.
  ghost predicate IsRun(ws: seq<World>, ss: seq<Step>) {
    && |ws| == |ss| + 1 && ws[0] == START
    && forall i :: 0 <= i < |ss| ==> StepOf(ws[i], ss[i], ws[i + 1])
  }

  // Alarms are those of one step: the next one starts without.
  function Calm(w: World): World { w.(alarms := []) }

  ghost predicate StepOf(w: World, s: Step, w': World) {
    Known(Calm(w)) && Enabled(Calm(w), s) && w' == Next(Calm(w), s)
  }

  // One step of a run: the invariant is kept, and the only alarm is that of a late timeout.
  lemma StepOfKeeps(w: World, s: Step, w': World)
    requires AtRest(Calm(w)) && StepOf(w, s, w')
    ensures AtRest(Calm(w'))
    ensures w'.alarms == if LateTimeout(Calm(w), s) then [NullSocketUsed(s.net.c)] else []
  {
    hide AtRest, Known, Enabled, Next, LateTimeout;
    if LateTimeout(Calm(w), s) {
      LateStep(Calm(w), s);
    } else {
      StepKeeps(Calm(w), s);
      NoAlarms(w');
    }
  }

  lemma NoAlarms(w: World)
    requires AtRest(w)
    ensures w.alarms == [] && Calm(w) == w
  {
    hide Known, Objects, PoolOk, Obligations, Order;
  }

  // The invariant holds in every world of every run.
  lemma {:induction false} RunAtRest(ws: seq<World>, ss: seq<Step>, i: nat)
    requires IsRun(ws, ss) && i < |ws|
    ensures AtRest(Calm(ws[i]))
  {
    hide AtRest, Known, Enabled, Next, StepOf;
    if i == 0 {
      StartAtRest();
    } else {
      RunAtRest(ws, ss, i - 1);
      assert StepOf(ws[i - 1], ss[i - 1], ws[i]);
      StepOfKeeps(ws[i - 1], ss[i - 1], ws[i]);
    }
  }
}
