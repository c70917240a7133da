/** The server at run time: connections, protocols, pooled messages, the dispatcher's queue, the
    scheduler's events and the io_context's posted handlers, with one function per operation that
    the handlers are made of. */
module World {
  import opened Wrappers
  import opened ConnectionState

  type CId = nat
  type PId = nat
  type MId = nat

  // A ProtocolLogin object. `deletions` counts runs of `delete this`.
  datatype Proto = Proto(connection: Option<CId>, refCount: int, deletions: nat)

  // m_protocol and m_connection of a message that is not on the free list.
  datatype Owner = Owner(p: PId, c: CId)

  // m_outputBufferStart, and how often onSendMessage framed the message since it was allocated.
  datatype Header = Header(start: int, framed: nat)

  // OutputMessagePool, and who else refers to its messages.
  datatype Pool = Pool(
    owner: map<MId, Owner>,
    header: map<MId, Header>,
    free: seq<MId>,            // m_outputMessages
    autoSend: seq<MId>,        // m_autoSend
    addQueue: seq<MId>,        // m_addQueue
    writes: set<MId>,          // bound into an onWrite handler that has not run
    held: set<MId>)            // referred to by a local of the step being taken

  // Callbacks bound into the dispatcher's and the scheduler's tasks.
  datatype Task =
    | CloseConnection(c: CId)
    | ReleaseConnection(c: CId)
    | ReleaseProtocol(p: PId)
    | InternalRelease(m: MId)
    | Delegate(p: PId)

  // The `output` variable of delegate / disconnectClient.
  datatype Hand = Empty | Unsent(m: MId) | Sent(m: MId)

  // What the dispatcher thread is doing between two atomic steps.
  datatype Pc =
    | Idle
    | Running(task: Task)                                // popped, callback not called yet
    | Delegating(p: PId, hand: Hand, closed: bool)       // inside ProtocolLogin::delegate
    | SendQueued                                         // sendAll, first loop
    | SendAuto                                           // sendAll, second loop

  // Things that must never happen: error lines of the source, and uses of dead objects.
  datatype Alarm =
    | CloseInWrongState(c: CId)
    | ConnectionNotFound(c: CId)
    | ProtocolNotFound(m: MId)
    | NoRoomForHeader(m: MId)
    | SlowConnection(c: CId)
    | DeletedProtocolUsed(p: PId)
    | NullConnectionUsed(p: PId)
    | ReleasedMessageUsed(m: MId)
    | NullProtocolUsed(c: CId)
    | ReleasedConnectionUsed(c: CId)
    | NullSocketUsed(c: CId)

  datatype World = World(
    conns: map<CId, Conn>,
    protos: map<PId, Proto>,
    pool: Pool,
    tasks: seq<Task>,          // Dispatcher::m_taskList
    pc: Pc,
    events: multiset<Task>,    // Scheduler::m_eventList
    stops: multiset<CId>,      // posted onStop handlers
    manager: seq<CId>,         // ConnectionManager::m_connections
    alarms: seq<Alarm>)        // raised by the last step

  const START := World(map[], map[], Pool(map[], map[], [], [], [], {}, {}), [], Idle, multiset{}, multiset{}, [], [])

  // ----- ids that occur anywhere are ids of objects -----

  ghost predicate KnownTask(t: Task, conns: map<CId, Conn>, protos: map<PId, Proto>, pool: Pool) {
    match t
    case CloseConnection(c) => c in conns
    case ReleaseConnection(c) => c in conns
    case ReleaseProtocol(p) => p in protos
    case InternalRelease(m) => m in pool.header
    case Delegate(p) => p in protos
  }

  ghost predicate KnownPc(pc: Pc, conns: map<CId, Conn>, protos: map<PId, Proto>, pool: Pool) {
    match pc
    case Running(t) => KnownTask(t, conns, protos, pool)
    case Delegating(p, h, _) => p in protos && (h != Empty ==> h.m in pool.owner)
    case _ => true
  }

  ghost predicate KnownMessages(conns: map<CId, Conn>, protos: map<PId, Proto>, pool: Pool) {
    && pool.owner.Keys <= pool.header.Keys
    && (forall m :: m in pool.free ==> m in pool.header)
    && (forall m :: m in pool.autoSend || m in pool.addQueue || m in pool.writes || m in pool.held ==> m in pool.owner)
    && (forall m :: m in pool.owner ==> pool.owner[m].p in protos && pool.owner[m].c in conns)
  }

  ghost predicate KnownLinks(conns: map<CId, Conn>, protos: map<PId, Proto>) {
    && (forall c :: c in conns && conns[c].protocol.Some? ==> conns[c].protocol.value in protos)
    && (forall p :: p in protos && protos[p].connection.Some? ==> protos[p].connection.value in conns)
  }

  ghost predicate Known(w: World) {
    && KnownMessages(w.conns, w.protos, w.pool)
    && KnownLinks(w.conns, w.protos)
    && (forall t :: t in w.tasks || t in w.events ==> KnownTask(t, w.conns, w.protos, w.pool))
    && (forall c :: c in w.manager || c in w.stops ==> c in w.conns)
    && KnownPc(w.pc, w.conns, w.protos, w.pool)
  }

  // ----- alarms -----

  function Raise(w: World, a: Alarm): (r: World)
    ensures Known(w) ==> Known(r)
  {
    w.(alarms := w.alarms + [a])
  }

  // The message the running delegate refers to.
  function InHand(pc: Pc): set<MId> {
    if pc.Delegating? && pc.hand != Empty then {pc.hand.m} else {}
  }

  // Any member function called through a Protocol*.
  function TouchProtocol(w: World, p: PId): (r: World)
    requires Known(w) && p in w.protos
    ensures Known(r) && r.pool == w.pool && r.pc == w.pc && r.conns == w.conns && r.protos == w.protos
  {
    if w.protos[p].deletions > 0 then Raise(w, DeletedProtocolUsed(p)) else w
  }

  // Any member function bound to a raw Connection*.
  function TouchConnection(w: World, c: CId): (r: World)
    requires Known(w)
    ensures Known(r)
  {
    if c in w.manager then w else Raise(w, ReleasedConnectionUsed(c))
  }

  // ----- operations of Connection -----

  // Fields of a connection other than m_protocol change.
  function Set(w: World, c: CId, d: Conn): (r: World)
    requires Known(w) && c in w.conns && d.protocol == w.conns[c].protocol
    ensures Known(r) && r.conns.Keys == w.conns.Keys
  {
    w.(conns := w.conns[c := d])
  }

  function PushBack(w: World, t: Task): (r: World)
    requires Known(w) && KnownTask(t, w.conns, w.protos, w.pool)
    ensures Known(r)
  {
    w.(tasks := w.tasks + [t])
  }

  function PushFront(w: World, t: Task): (r: World)
    requires Known(w) && KnownTask(t, w.conns, w.protos, w.pool)
    ensures Known(r)
  {
    w.(tasks := [t] + w.tasks)
  }

  function Schedule(w: World, t: Task): (r: World)
    requires Known(w) && KnownTask(t, w.conns, w.protos, w.pool)
    ensures Known(r)
  {
    w.(events := w.events + multiset{t})
  }

  // close()
  function Close(w: World, c: CId): (r: World)
    requires Known(w) && c in w.conns
    ensures Known(r)
  {
    if AsksToClose(w.conns[c]) then PushBack(Set(w, c, CloseRequested(w.conns[c])), CloseConnection(c)) else w
  }

  // closeSocket() and getHandle() follow m_socket.
  function TouchSocket(w: World, c: CId): (r: World)
    requires Known(w) && c in w.conns
    ensures Known(r) && r.pool == w.pool && r.pc == w.pc && r.conns == w.conns && r.protos == w.protos
  {
    if w.conns[c].socket == Gone then Raise(w, NullSocketUsed(c)) else w
  }

  // closeSocket(); close();
  function DropSocket(w: World, c: CId): (r: World)
    requires Known(w) && c in w.conns
    ensures Known(r)
  {
    var w1 := Set(TouchSocket(w, c), c, SocketDropped(w.conns[c]));
    if AsksToClose(w.conns[c]) then PushBack(w1, CloseConnection(c)) else w1
  }

  // releaseConnection(), with deleteConnection() inlined
  function ReleaseConn(w: World, c: CId): (r: World)
    requires Known(w) && c in w.conns
    ensures Known(r)
  {
    if w.conns[c].refCount > 0 then Schedule(w, ReleaseConnection(c))
    else Set(w, c, w.conns[c].(stopPosts := w.conns[c].stopPosts + 1)).(stops := w.stops + multiset{c})
  }

  // Protocol::releaseProtocol(), with deleteProtocolTask() inlined
  function ReleaseProto(w: World, p: PId): (r: World)
    requires Known(w) && p in w.protos
    ensures Known(r)
  {
    var q := w.protos[p];
    if q.refCount > 0 then Schedule(w, ReleaseProtocol(p))
    else w.(protos := w.protos[p := q.(connection := None, deletions := q.deletions + 1)])
  }

  // setConnection(Connection_ptr()) on the connection's protocol, and m_protocol = NULL
  function Unlink(w: World, c: CId, p: PId): (r: World)
    requires Known(w) && c in w.conns && p in w.protos
    ensures Known(r) && c in r.conns && p in r.protos
  {
    w.(protos := w.protos[p := w.protos[p].(connection := None)],
       conns := w.conns[c := w.conns[c].(protocol := None)])
  }

  // The first part of closeConnection(): the protocol is told and released.
  function DetachProtocol(w: World, c: CId): (r: World)
    requires Known(w) && c in w.conns
    ensures Known(r) && c in r.conns && r.conns[c] == w.conns[c].(protocol := None)
  {
    match w.conns[c].protocol
    case None => w
    case Some(p) => ReleaseProto(Unlink(TouchProtocol(w, p), c, p), p)
  }

  // closeConnection()
  function CloseConn(w: World, c: CId): (r: World)
    requires Known(w) && c in w.conns
    ensures Known(r)
  {
    if w.conns[c].state != RequestClose then Raise(w, CloseInWrongState(c))
    else
      var w1 := DetachProtocol(w, c);
      var w2 := Set(w1, c, CloseBody(w1.conns[c]));
      if w2.conns[c].state == Closed then ReleaseConn(TouchSocket(w2, c), c) else w2
  }

  // onStop(): the socket is deleted and the manager's list entry erased.
  function StopConn(w: World, c: CId): (r: World)
    requires Known(w) && c in w.conns
    ensures Known(r)
  {
    var w1 := TouchSocket(w, c);
    var w2 := Set(w1, c, Stopped(w1.conns[c])).(stops := w.stops - multiset{c});
    match IndexOf(w2.manager, c)
    case None => Raise(w2, ConnectionNotFound(c))
    case Some(i) => w2.(manager := w2.manager[..i] + w2.manager[i + 1..])
  }

  // std::find
  function IndexOf(s: seq<CId>, c: CId): (r: Option<nat>)
    ensures match r case None => c !in s case Some(i) => i < |s| && s[i] == c && c !in s[..i]
  {
    if s == [] then None
    else if s[0] == c then Some(0)
    else match IndexOf(s[1..], c)
      case None => None
      case Some(i) => assert s[..i + 1] == [s[0]] + s[1..][..i]; Some(i + 1)
  }

  // ----- operations of OutputMessage and OutputMessagePool -----

  // The header of message m changes.
  function SetHeader(w: World, m: MId, h: Header): (r: World)
    requires Known(w) && m in w.pool.header
    ensures Known(r) && r.pool.header.Keys == w.pool.header.Keys
    ensures r.conns == w.conns && r.protos == w.protos && r.pool.owner == w.pool.owner
  {
    w.(pool := w.pool.(header := w.pool.header[m := h]))
  }

  // OutputMessage::header for a value of `bytes` bytes
  function Grow(w: World, m: MId, bytes: nat): (r: World)
    requires Known(w) && m in w.pool.header
    ensures Known(r) && m in r.pool.header
    ensures r.conns == w.conns && r.protos == w.protos && r.pool.owner == w.pool.owner
  {
    var h := w.pool.header[m];
    if h.start - bytes < 0 then Raise(w, NoRoomForHeader(m)) else SetHeader(w, m, h.(start := h.start - bytes))
  }

  // Protocol::onSendMessage of a ProtocolLogin: addHeader (2 bytes), then addCryptoHeader (4 + 2)
  function Frame(w: World, m: MId): (r: World)
    requires Known(w) && m in w.pool.header
    ensures Known(r) && r.conns == w.conns && r.protos == w.protos
    ensures r.pool.owner == w.pool.owner && m in r.pool.header
  {
    var h := w.pool.header[m];
    Grow(Grow(Grow(SetHeader(w, m, h.(framed := h.framed + 1)), m, 2), m, 4), m, 2)
  }

  // The message getOutputMessage takes: the last free one, or `newMsg` when the list is empty.
  function Taken(pool: Pool, newMsg: MId): MId {
    if pool.free == [] then newMsg else pool.free[|pool.free| - 1]
  }

  predicate CanAlloc(w: World, p: PId)
    requires p in w.protos
  {
    w.protos[p].connection.Some?
  }

  // The pool after getOutputMessage() for protocol p of connection c
  function Allocated(pool: Pool, p: PId, c: CId, auto: bool, newMsg: MId): Pool
    requires forall m :: m in pool.free ==> m in pool.header
  {
    var m := Taken(pool, newMsg);
    var header := if pool.free == [] then pool.header[m := Header(8, 0)] else pool.header;
    pool.(free := if pool.free == [] then [] else pool.free[..|pool.free| - 1],
          header := header[m := header[m].(framed := 0)],
          autoSend := if auto then pool.autoSend + [m] else pool.autoSend,
          owner := pool.owner[m := Owner(p, c)],
          held := pool.held + {m})
  }

  // getOutputMessage() and configureOutputMessage()
  function Alloc(w: World, p: PId, auto: bool, newMsg: MId): (r: World)
    requires Known(w) && p in w.protos && CanAlloc(w, p)
    ensures Known(r) && r.protos.Keys == w.protos.Keys && Taken(w.pool, newMsg) in r.pool.owner
    ensures r.pc == w.pc
  {
    var c := w.protos[p].connection.value;
    w.(pool := Allocated(w.pool, p, c, auto, newMsg),
       protos := w.protos[p := w.protos[p].(refCount := w.protos[p].refCount + 1)],
       conns := w.conns[c := w.conns[c].(refCount := w.conns[c].refCount + 1)])
  }

  // internalSend(); `threw`: starting the write threw after m_pendingWrite was incremented.
  function StartWrite(w: World, m: MId, threw: bool): (r: World)
    requires Known(w) && m in w.pool.owner
    ensures Known(r)
  {
    var c := w.pool.owner[m].c;
    var w1 := Set(TouchSocket(w, c), c, w.conns[c].(pendingWrite := w.conns[c].pendingWrite + 1));
    if threw then w1 else Writing(w1, m)
  }

  // An onWrite handler that refers to the message is outstanding.
  function Writing(w: World, m: MId): (r: World)
    requires Known(w) && m in w.pool.owner
    ensures Known(r)
  {
    w.(pool := w.pool.(writes := w.pool.writes + {m}))
  }

  // Connection::send(), followed by the onSendMessage that its callers run when it fails.
  function Send(w: World, m: MId, threw: bool, forceSlow: bool): (r: World)
    requires Known(w) && m in w.pool.owner
    ensures Known(r) && r.protos == w.protos && r.pool.owner == w.pool.owner
  {
    var c, p := w.pool.owner[m].c, w.pool.owner[m].p;
    match SendChoice(w.conns[c], forceSlow)
    case Refused => Frame(TouchProtocol(w, p), m)
    case WriteNow => StartWrite(Frame(TouchProtocol(w, p), m), m, threw)
    case ForceClose => Close(Raise(w, SlowConnection(c)), c)
    case Queue => Enqueue(w, m)
  }

  // OutputMessagePool::autoSend()
  function Enqueue(w: World, m: MId): (r: World)
    requires Known(w) && m in w.pool.owner
    ensures Known(r)
  {
    w.(pool := w.pool.(addQueue := w.pool.addQueue + [m]))
  }

  predicate Referenced(pool: Pool, hand: set<MId>, m: MId) {
    m in pool.autoSend || m in pool.addQueue || m in pool.writes || m in pool.held || m in hand
  }

  // The last OutputMessage_ptr to a message queues its release at the front.
  function LetGo(w: World, m: MId): (r: World)
    requires Known(w) && m in w.pool.header
    ensures Known(r)
  {
    if Referenced(w.pool, InHand(w.pc), m) then w else PushFront(w, InternalRelease(m))
  }

  // A local OutputMessage_ptr goes away.
  function Drop(w: World, m: MId): (r: World)
    requires Known(w) && m in w.pool.owner
    ensures Known(r)
  {
    LetGo(Unhold(w, m), m)
  }

  function Unhold(w: World, m: MId): (r: World)
    requires Known(w)
    ensures Known(r)
  {
    w.(pool := w.pool.(held := w.pool.held - {m}))
  }

  // The pool after internalReleaseMessage()
  function Released(pool: Pool, m: MId): Pool
    requires m in pool.header
  {
    pool.(owner := pool.owner - {m},
          header := pool.header[m := pool.header[m].(start := 8)],
          free := pool.free + [m])
  }

  // The message goes back to the free list without its pointers.
  function Unown(w: World, m: MId): (r: World)
    requires Known(w) && m in w.pool.header && !Referenced(w.pool, InHand(w.pc), m)
    ensures Known(r)
  {
    w.(pool := Released(w.pool, m))
  }

  // unRef() of both objects a message refers to
  function Unref(w: World, p: PId, c: CId): (r: World)
    requires Known(w) && p in w.protos && c in w.conns
    ensures Known(r) && r.pool == w.pool && r.pc == w.pc
  {
    w.(protos := w.protos[p := w.protos[p].(refCount := w.protos[p].refCount - 1)],
       conns := w.conns[c := w.conns[c].(refCount := w.conns[c].refCount - 1)])
  }

  // internalReleaseMessage(); a message that is not free has both pointers set.
  function ReleaseMsg(w: World, m: MId): (r: World)
    requires Known(w) && m in w.pool.header
    ensures Known(r)
  {
    if Referenced(w.pool, InHand(w.pc), m) then Raise(w, ReleasedMessageUsed(m))
    else if m in w.pool.owner then
      Unown(Unref(TouchProtocol(w, w.pool.owner[m].p), w.pool.owner[m].p, w.pool.owner[m].c), m)
    else Unown(Raise(w, ProtocolNotFound(m)), m)
  }

  // ----- operations around one read -----

  // ++m_pendingRead and async_read; None: started, Some(b): threw, and closed when b.
  function StartRead(w: World, c: CId, kind: Reading, threw: Option<bool>): (r: World)
    requires Known(w) && c in w.conns
    ensures Known(r)
  {
    var w1, d := TouchSocket(w, c), w.conns[c].(pendingRead := w.conns[c].pendingRead + 1);
    match threw
    case None => Set(w1, c, d.(reading := kind))
    case Some(closes) => if closes then Close(Set(w1, c, d), c) else Set(w1, c, d)
  }

  // handleReadError()
  function ReadFailed(w: World, c: CId, e: Error): (r: World)
    requires Known(w) && c in w.conns
    ensures Known(r) && r.conns.Keys == w.conns.Keys
  {
    var w1 := if e == Aborted then w else Close(w, c);
    Set(w1, c, w1.conns[c].(readError := true))
  }

  // A protocol object made for connection c: makeProtocol and setConnection.
  function Attach(w: World, c: CId, p: PId): (r: World)
    requires Known(w) && c in w.conns
    ensures Known(r) && c in r.conns && p in r.protos
  {
    w.(protos := w.protos[p := Proto(Some(c), 0, 0)], conns := w.conns[c := w.conns[c].(protocol := Some(p))])
  }
}
