/** The fields of a Connection that its close / send / write paths read and write, as a value,
    and what each locked member function of src/net/connection.cpp does to them. */
module ConnectionState {
  import opened Wrappers

  datatype State = Open | RequestClose | Closing | Closed

  // The asynchronous read whose completion handler has not run yet.
  datatype Reading = NotReading | ReadingHeader | ReadingPacket

  // What the error_code given to a completion handler says.
  datatype Error = NoError | Aborted | Failed

  // m_socket: open, closed, or deleted by onStop and NULL.
  datatype Socket = Connected | Shut | Gone

  datatype Conn = Conn(
    state: State,
    socket: Socket,
    pendingWrite: int,
    pendingRead: int,
    writeError: bool,
    readError: bool,
    receivedFirst: bool,
    reading: Reading,
    protocol: Option<nat>,
    refCount: int,
    // history: runs of the body of closeConnection, posts of onStop
    closeRuns: nat,
    stopPosts: nat)

  const FRESH := Conn(Open, Connected, 0, 0, false, false, false, NotReading, None, 0, 0, 0)

  // Order of the four states; a connection only moves to a higher rank.
  function Rank(s: State): nat {
    match s
    case Open => 0
    case RequestClose => 1
    case Closing => 2
    case Closed => 3
  }

  // close(): only an open connection asks the dispatcher to close it.
  predicate AsksToClose(c: Conn) { c.state == Open }

  function CloseRequested(c: Conn): Conn {
    if AsksToClose(c) then c.(state := RequestClose) else c
  }

  // closeSocket()
  function SocketClosed(c: Conn): Conn {
    if c.socket == Connected then c.(socket := Shut, pendingRead := 0, pendingWrite := 0) else c
  }

  // onStop() as far as the connection goes
  function Stopped(c: Conn): Conn { c.(socket := Gone) }

  // The body of closeConnection(), after the state test and without the calls on the protocol
  // and without releaseConnection().
  function CloseBody(c: Conn): Conn {
    var d := c.(protocol := None, state := Closing, closeRuns := c.closeRuns + 1);
    if d.pendingWrite == 0 || d.writeError then SocketClosed(d).(state := Closed) else d
  }

  // send() takes exactly one of these ways.
  datatype SendWay = Refused | WriteNow | ForceClose | Queue

  function SendChoice(c: Conn, forceSlow: bool): SendWay {
    if c.state != Open || c.writeError then Refused
    else if c.pendingWrite == 0 then WriteNow
    else if c.pendingWrite > 100 && forceSlow then ForceClose
    else Queue
  }

  // What a read or write handler does with a bad connection: closeSocket(); close().
  function SocketDropped(c: Conn): Conn {
    CloseRequested(SocketClosed(c))
  }

  // closeConnection() of a connection that asked for it, with releaseConnection()
  function Finished(c: Conn): Conn {
    var d := CloseBody(c);
    if StopsNow(c) then d.(stopPosts := d.stopPosts + 1) else d
  }

  predicate StopsNow(c: Conn) { CloseBody(c).state == Closed && c.refCount <= 0 }

  predicate StopsLater(c: Conn) { CloseBody(c).state == Closed && c.refCount > 0 }

  // send() as far as the connection goes
  function SentOn(c: Conn, forceSlow: bool): Conn {
    match SendChoice(c, forceSlow)
    case Refused => c
    case WriteNow => c.(pendingWrite := c.pendingWrite + 1)
    case ForceClose => CloseRequested(c)
    case Queue => c
  }
}
