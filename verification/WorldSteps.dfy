/** The atomic steps of the running server, and their effect on the World. */
module WorldSteps {
  import opened Wrappers
  import opened ConnectionState
  import opened World

  // What the first packet of a connection leads to. NoService: makeProtocol returned NULL.
  datatype FirstPacket =
    | NoService
    | BadKey
    | Rejected(newMsg: MId, threw: bool, forceSlow: bool)
    | Accepted

  // Handlers that io_context threads run.
  datatype NetStep =
    | Accept(c: CId, single: Option<PId>, readThrew: Option<bool>)
    | ParseHeader(c: CId, e: Error, badSize: bool, readThrew: Option<bool>)
    | ParsePacket(c: CId, e: Error, flood: bool, p: PId, first: FirstPacket, readThrew: Option<bool>)
    | OnWrite(m: MId, e: Error)
    | ReadTimeout(c: CId)
    | WriteTimeout(c: CId)
    | OnStop(c: CId)

  // What the scheduler and dispatcher threads do.
  datatype WorkStep =
    | ScheduledEvent(t: Task)
    | PopTask
    | RunTask
    | GetMessage(auto: bool, newMsg: MId)
    | SendMessage(threw: bool, forceSlow: bool)
    | DropMessage
    | CloseClient
    | LeaveDelegate
    | MoveQueued(dropIt: bool, front: bool)
    | QueueMoved
    | SendFront(threw: bool, forceSlow: bool)
    | SendAllDone

  datatype Step = Net(net: NetStep) | Work(work: WorkStep)

  // A message id for getOutputMessage to allocate when the free list is empty.
  predicate NewMessage(w: World, m: MId) { m !in w.pool.header }

  ghost predicate NetEnabled(w: World, s: NetStep) {
    match s
    case Accept(c, single, _) => c !in w.conns && (single.Some? ==> single.value !in w.protos)
    case ParseHeader(c, _, _, _) => c in w.conns && w.conns[c].reading == ReadingHeader
    case ParsePacket(c, _, _, p, first, _) =>
      && c in w.conns && w.conns[c].reading == ReadingPacket
      && p !in w.protos && (first.Rejected? ==> NewMessage(w, first.newMsg))
    case OnWrite(m, _) => m in w.pool.writes
    case ReadTimeout(c) => c in w.conns
    case WriteTimeout(c) => c in w.conns
    case OnStop(c) => c in w.stops
  }

  ghost predicate WorkEnabled(w: World, s: WorkStep) {
    match s
    case ScheduledEvent(t) => t in w.events
    case PopTask => w.pc == Idle && w.tasks != []
    case RunTask => w.pc.Running?
    case GetMessage(_, newMsg) => w.pc.Delegating? && w.pc.hand == Empty && NewMessage(w, newMsg)
    case SendMessage(_, _) => w.pc.Delegating? && w.pc.hand.Unsent?
    case DropMessage => w.pc.Delegating? && w.pc.hand.Sent?
    case CloseClient => w.pc.Delegating? && !w.pc.closed
    case LeaveDelegate => w.pc.Delegating? && w.pc.hand == Empty && w.pc.closed
    case MoveQueued(_, _) => w.pc == SendQueued && w.pool.addQueue != []
    case QueueMoved => w.pc == SendQueued && w.pool.addQueue == []
    case SendFront(_, _) => w.pc == SendAuto && w.pool.autoSend != []
    case SendAllDone => w.pc == SendAuto
  }

  ghost predicate Enabled(w: World, s: Step) {
    match s
    case Net(n) => NetEnabled(w, n)
    case Work(k) => WorkEnabled(w, k)
  }

  // getConnection()->close()
  function CloseOf(w: World, p: PId): (r: World)
    requires Known(w) && p in w.protos
    ensures Known(r) && r.pool == w.pool && r.pc == w.pc && r.protos == w.protos
  {
    match w.protos[p].connection
    case None => Raise(w, NullConnectionUsed(p))
    case Some(c) => Close(w, c)
  }

  // ProtocolLogin::disconnectClient on an io_context thread
  function Disconnect(w: World, p: PId, newMsg: MId, threw: bool, forceSlow: bool): (r: World)
    requires Known(w) && p in w.protos
    ensures Known(r)
  {
    if CanAlloc(w, p) then
      var m := Taken(w.pool, newMsg);
      Drop(CloseOf(Send(Alloc(w, p, false, newMsg), m, threw, forceSlow), p), m)
    else CloseOf(w, p)
  }

  // ProtocolLogin::onRecvFirstMessage
  function FirstMessage(w: World, p: PId, first: FirstPacket): (r: World)
    requires Known(w) && p in w.protos
    ensures Known(r)
  {
    match first
    case NoService => w
    case BadKey => CloseOf(w, p)
    case Rejected(newMsg, threw, forceSlow) => Disconnect(w, p, newMsg, threw, forceSlow)
    case Accepted => PushBack(w, Delegate(p))
  }

  // createConnection()
  function Create(w: World, c: CId): (r: World)
    requires Known(w)
    requires c !in w.conns
    ensures Known(r) && c in r.conns
  {
    w.(conns := w.conns[c := FRESH], manager := w.manager + [c])
  }

  // handle() of an accepted socket: createConnection, the protocol of a single-socket service, accept()
  function AcceptStep(w: World, c: CId, single: Option<PId>, readThrew: Option<bool>): (r: World)
    requires Known(w) && c !in w.conns
    ensures Known(r)
  {
    var w1 := Create(w, c);
    var w2 := if single.Some? then Attach(w1, c, single.value) else w1;
    StartRead(w2, c, ReadingHeader, readThrew)
  }

  predicate ReadGoesOn(c: Conn) { c.state == Open && !c.readError }

  // The read whose handler runs is no longer outstanding.
  function TakeRead(w: World, c: CId): (r: World)
    requires Known(w) && c in w.conns
    ensures Known(r) && r.conns.Keys == w.conns.Keys
  {
    Set(w, c, w.conns[c].(reading := NotReading))
  }

  function CountDown(w: World, c: CId): (r: World)
    requires Known(w) && c in w.conns
    ensures Known(r) && r.conns.Keys == w.conns.Keys
  {
    Set(w, c, w.conns[c].(pendingRead := w.conns[c].pendingRead - 1))
  }

  // parseHeader()
  function HeaderStep(w: World, c: CId, e: Error, badSize: bool, readThrew: Option<bool>): (r: World)
    requires Known(w) && c in w.conns
    ensures Known(r)
  {
    var w1 := TakeRead(w, c);
    var w2 := if e != NoError || badSize then ReadFailed(w1, c, e) else w1;
    if !ReadGoesOn(w2.conns[c]) then Close(w2, c)
    else StartRead(CountDown(w2, c), c, ReadingPacket, readThrew)
  }

  // parsePacket()
  function PacketStep(w: World, c: CId, e: Error, flood: bool, p: PId, first: FirstPacket,
                      readThrew: Option<bool>): (r: World)
    requires Known(w) && c in w.conns
    ensures Known(r)
  {
    var w1 := TakeRead(w, c);
    var w2 := if e != NoError then ReadFailed(w1, c, e) else w1;
    if !ReadGoesOn(w2.conns[c]) || flood then Close(w2, c)
    else DeliverStep(CountDown(w2, c), c, p, first, readThrew)
  }

  function Received(w: World, c: CId): (r: World)
    requires Known(w) && c in w.conns
    ensures Known(r) && r.conns.Keys == w.conns.Keys
  {
    Set(w, c, w.conns[c].(receivedFirst := true))
  }

  // parsePacket() from the checksum on
  function DeliverStep(w: World, c: CId, p: PId, first: FirstPacket, readThrew: Option<bool>): (r: World)
    requires Known(w) && c in w.conns
    ensures Known(r)
  {
    if w.conns[c].receivedFirst then
      var w1 := if w.conns[c].protocol.Some? then TouchProtocol(w, w.conns[c].protocol.value)
                else Raise(w, NullProtocolUsed(c));
      StartRead(w1, c, ReadingHeader, readThrew)
    else if w.conns[c].protocol.None? && first.NoService? then Close(Received(w, c), c)
    else if w.conns[c].protocol.Some? then
      Deliver(Received(w, c), c, w.conns[c].protocol.value, first, readThrew)
    else Deliver(Attach(Received(w, c), c, p), c, p, first, readThrew)
  }

  // onRecvFirstMessage() and the next read
  function Deliver(w: World, c: CId, p: PId, first: FirstPacket, readThrew: Option<bool>): (r: World)
    requires Known(w) && c in w.conns && p in w.protos
    ensures Known(r)
  {
    var w1 := FirstMessage(TouchProtocol(w, p), p, first);
    if c in w1.conns then StartRead(w1, c, ReadingHeader, readThrew) else w1
  }

  // onWrite() up to the release of the message
  function WriteResult(w: World, c: CId, e: Error): (r: World)
    requires Known(w) && c in w.conns
    ensures Known(r) && r.pool == w.pool
  {
    var w1 := if e == Failed then Close(w, c) else w;
    var w2 := if e != NoError then Set(w1, c, w1.conns[c].(writeError := true)) else w1;
    if w2.conns[c].state != Open || w2.conns[c].writeError then DropSocket(w2, c)
    else Set(w2, c, w2.conns[c].(pendingWrite := w2.conns[c].pendingWrite - 1))
  }

  // The onWrite handler of m runs: from now on only its local refers to the message.
  function TakeWritten(w: World, m: MId): (r: World)
    requires Known(w) && m in w.pool.owner
    ensures Known(r) && r.conns == w.conns && r.pool.owner == w.pool.owner
  {
    w.(pool := w.pool.(writes := w.pool.writes - {m}, held := w.pool.held + {m}))
  }

  // onWrite()
  function WrittenStep(w: World, m: MId, e: Error): (r: World)
    requires Known(w) && m in w.pool.owner
    ensures Known(r)
  {
    Drop(WriteResult(TakeWritten(w, m), w.pool.owner[m].c, e), m)
  }

  // onReadTimeout() / onWriteTimeout()
  function TimeoutStep(w: World, c: CId, pending: int, failed: bool): (r: World)
    requires Known(w) && c in w.conns
    ensures Known(r)
  {
    if pending > 0 || failed then DropSocket(w, c) else w
  }

  // The dispatcher thread moves on without touching anything.
  function GoTo(w: World, pc: Pc): (r: World)
    requires Known(w) && !pc.Delegating? && !pc.Running?
    ensures Known(r)
  {
    w.(pc := pc)
  }

  // ProtocolLogin::delegate begins.
  function Enter(w: World, p: PId): (r: World)
    requires Known(w) && p in w.protos
    ensures Known(r)
  {
    w.(pc := Delegating(p, Empty, false))
  }

  // The callback of the popped task; delegate itself takes further steps.
  function RunStep(w: World, t: Task): (r: World)
    requires Known(w) && KnownTask(t, w.conns, w.protos, w.pool)
    ensures Known(r)
  {
    var w0 := GoTo(w, SendQueued);
    match t
    case CloseConnection(c) => CloseConn(TouchConnection(w0, c), c)
    case ReleaseConnection(c) => ReleaseConn(TouchConnection(w0, c), c)
    case ReleaseProtocol(p) => ReleaseProto(TouchProtocol(w0, p), p)
    case InternalRelease(m) => ReleaseMsg(w0, m)
    case Delegate(p) => Enter(TouchProtocol(w, p), p)
  }

  // The message just allocated is the delegate's `output`.
  function TakeInHand(w: World, m: MId, auto: bool): (r: World)
    requires Known(w) && w.pc.Delegating? && m in w.pool.owner
    ensures Known(r)
  {
    w.(pc := w.pc.(hand := if auto then Sent(m) else Unsent(m)), pool := w.pool.(held := w.pool.held - {m}))
  }

  function GetStep(w: World, p: PId, auto: bool, newMsg: MId): (r: World)
    requires Known(w) && p in w.protos && w.pc.Delegating?
    ensures Known(r)
  {
    var w1 := TouchProtocol(w, p);
    if CanAlloc(w1, p) then TakeInHand(Alloc(w1, p, auto, newMsg), Taken(w1.pool, newMsg), auto) else w1
  }

  // OutputMessagePool::send by the delegate
  function SendStep(w: World, threw: bool, forceSlow: bool): (r: World)
    requires Known(w) && w.pc.Delegating? && w.pc.hand.Unsent?
    ensures Known(r)
  {
    Send(w.(pc := w.pc.(hand := Sent(w.pc.hand.m))), w.pc.hand.m, threw, forceSlow)
  }

  // The first message of m_addQueue / of m_autoSend, in sendAll's local
  function TakeQueued(w: World): (r: World)
    requires Known(w) && w.pool.addQueue != []
    ensures Known(r) && r.protos == w.protos && r.pool.owner == w.pool.owner
  {
    w.(pool := w.pool.(addQueue := w.pool.addQueue[1..], held := w.pool.held + {w.pool.addQueue[0]}))
  }

  function TakeFront(w: World): (r: World)
    requires Known(w) && w.pool.autoSend != []
    ensures Known(r) && r.pool.owner == w.pool.owner
  {
    w.(pool := w.pool.(autoSend := w.pool.autoSend[1..], held := w.pool.held + {w.pool.autoSend[0]}))
  }

  // An expired message of sendAll's first loop is framed and forgotten.
  function ExpireStep(w: World): (r: World)
    requires Known(w) && w.pool.addQueue != []
    ensures Known(r)
  {
    var m := w.pool.addQueue[0];
    Drop(Frame(TouchProtocol(TakeQueued(w), w.pool.owner[m].p), m), m)
  }

  lemma RequeueKnown(w: World, addQueue: seq<MId>, autoSend: seq<MId>)
    requires Known(w)
    requires forall m :: m in addQueue || m in autoSend ==> m in w.pool.autoSend || m in w.pool.addQueue
    ensures Known(w.(pool := w.pool.(addQueue := addQueue, autoSend := autoSend)))
  {
    var r := w.(pool := w.pool.(addQueue := addQueue, autoSend := autoSend));
    assert KnownMessages(r.conns, r.protos, r.pool);
    hide KnownMessages, KnownLinks;
  }

  // Another message of the first loop goes to the front or to the back of m_autoSend.
  function MoveStep(w: World, front: bool): (r: World)
    requires Known(w) && w.pool.addQueue != []
    ensures Known(r)
  {
    hide Known;
    var m := w.pool.addQueue[0];
    var autoSend := if front then [m] + w.pool.autoSend else w.pool.autoSend + [m];
    RequeueKnown(w, w.pool.addQueue[1..], autoSend);
    w.(pool := w.pool.(addQueue := w.pool.addQueue[1..], autoSend := autoSend))
  }

  // One message of sendAll's second loop
  function FrontStep(w: World, threw: bool, forceSlow: bool): (r: World)
    requires Known(w) && w.pool.autoSend != []
    ensures Known(r)
  {
    var m := w.pool.autoSend[0];
    Drop(Send(TakeFront(w), m, threw, forceSlow), m)
  }

  // The scheduler hands a due event to the front of the dispatcher's queue.
  function FireStep(w: World, t: Task): (r: World)
    requires Known(w) && t in w.events
    ensures Known(r)
  {
    PushFront(w, t).(events := w.events - multiset{t})
  }

  function PopStep(w: World): (r: World)
    requires Known(w) && w.tasks != []
    ensures Known(r)
  {
    w.(pc := Running(w.tasks[0]), tasks := w.tasks[1..])
  }

  // The delegate's `output` goes out of scope.
  function EmptyHand(w: World): (r: World)
    requires Known(w) && w.pc.Delegating? && w.pc.hand.Sent?
    ensures Known(r)
  {
    LetGo(w.(pc := w.pc.(hand := Empty)), w.pc.hand.m)
  }

  // The delegate calls getConnection()->close().
  function CloseStep(w: World): (r: World)
    requires Known(w) && w.pc.Delegating?
    ensures Known(r)
  {
    CloseOf(TouchProtocol(w, w.pc.p), w.pc.p).(pc := w.pc.(closed := true))
  }

  ghost function NetNext(w: World, s: NetStep): (r: World)
    requires Known(w) && NetEnabled(w, s)
    ensures Known(r)
  {
    match s
    case Accept(c, single, t) => AcceptStep(w, c, single, t)
    case ParseHeader(c, e, bad, t) => HeaderStep(w, c, e, bad, t)
    case ParsePacket(c, e, flood, p, first, t) => PacketStep(w, c, e, flood, p, first, t)
    case OnWrite(m, e) => WrittenStep(w, m, e)
    case ReadTimeout(c) => TimeoutStep(w, c, w.conns[c].pendingRead, w.conns[c].readError)
    case WriteTimeout(c) => TimeoutStep(w, c, w.conns[c].pendingWrite, w.conns[c].writeError)
    case OnStop(c) => StopConn(w, c)
  }

  ghost function WorkNext(w: World, s: WorkStep): (r: World)
    requires Known(w) && WorkEnabled(w, s)
    ensures Known(r)
  {
    match s
    case ScheduledEvent(t) => FireStep(w, t)
    case PopTask => PopStep(w)
    case RunTask => RunStep(w, w.pc.task)
    case GetMessage(auto, newMsg) => GetStep(w, w.pc.p, auto, newMsg)
    case SendMessage(threw, forceSlow) => SendStep(w, threw, forceSlow)
    case DropMessage => EmptyHand(w)
    case CloseClient => CloseStep(w)
    case LeaveDelegate => GoTo(w, SendQueued)
    case MoveQueued(dropIt, front) => if dropIt then ExpireStep(w) else MoveStep(w, front)
    case QueueMoved => GoTo(w, SendAuto)
    case SendFront(threw, forceSlow) => FrontStep(w, threw, forceSlow)
    case SendAllDone => GoTo(w, Idle)
  }

  ghost function Next(w: World, s: Step): (r: World)
    requires Known(w) && Enabled(w, s)
    ensures Known(r)
  {
    match s
    case Net(n) => NetNext(w, n)
    case Work(k) => WorkNext(w, k)
  }
}
