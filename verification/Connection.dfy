/** The classes Connection and Protocol of src/net/connection.cpp and src/protocol/protocol.cpp, with the
    fields their close, send and write paths update. Every method leaves the object in the state the
    functions of module ConnectionState give, which are the ones the steps of a World use. */
module Connections {
  import opened Wrappers
  import opened ConnectionState
  import opened World

  /** What the methods reach through the singletons: Dispatcher::m_taskList, the scheduler's events,
      posted onStop handlers, OutputMessagePool::m_addQueue, outstanding writes, calls of
      onSendMessage, and uses of a null m_socket. */
  class Services {
    var tasks: seq<Task>
    var events: multiset<Task>
    var stops: multiset<CId>
    var addQueue: seq<MId>
    var writes: set<MId>
    var framed: seq<MId>
    var alarms: seq<Alarm>

    constructor ()
      ensures tasks == [] && events == multiset{} && stops == multiset{}
      ensures addQueue == [] && writes == {} && framed == [] && alarms == []
    {
      tasks, events, stops, addQueue, writes, framed := [], multiset{}, multiset{}, [], {}, [];
      alarms := [];
    }
  }

  lemma FinishedDetached(c: Conn)
    ensures var d := c.(protocol := None);
      Finished(d) == Finished(c) && StopsNow(d) == StopsNow(c) && StopsLater(d) == StopsLater(c)
  {
  }

  // closeConnection() in fields: a pending write that has not failed leaves everything else for later.
  lemma FinishedFields(c: Conn)
    ensures c.pendingWrite != 0 && !c.writeError ==>
      && Finished(c) == c.(protocol := None, state := Closing, closeRuns := c.closeRuns + 1)
      && !StopsNow(c) && !StopsLater(c)
    ensures c.pendingWrite == 0 || c.writeError ==>
      var shut := c.socket == Connected;
      && Finished(c) == c.(protocol := None, state := Closed, closeRuns := c.closeRuns + 1,
           stopPosts := c.stopPosts + (if c.refCount > 0 then 0 else 1),
           socket := if shut then Shut else c.socket,
           pendingRead := if shut then 0 else c.pendingRead,
           pendingWrite := if shut then 0 else c.pendingWrite)
      && (StopsNow(c) <==> c.refCount <= 0) && (StopsLater(c) <==> c.refCount > 0)
  {
  }

  class ProtocolObject {
    const id: PId
    var m_connection: Option<CId>
    var m_refCount: int
    var deleted: nat

    constructor (id: PId, connection: Option<CId>)
      ensures this.id == id && Value() == Proto(connection, 0, 0)
    {
      this.id := id;
      m_connection, m_refCount, deleted := connection, 0, 0;
    }

    function Value(): Proto
      reads this
    {
      Proto(m_connection, m_refCount, deleted)
    }

    method SetConnection(connection: Option<CId>)
      modifies this
      ensures Value() == old(Value()).(connection := connection)
    {
      m_connection := connection;
    }

    // releaseProtocol(): tries again later while a message refers to the protocol, deletes it otherwise.
    method ReleaseProtocol(s: Services)
      modifies this, s`events
      ensures old(m_refCount) > 0 ==>
        Value() == old(Value()) && s.events == old(s.events) + multiset{Task.ReleaseProtocol(id)}
      ensures old(m_refCount) <= 0 ==>
        s.events == old(s.events) && Value() == old(Value()).(connection := None, deletions := old(deleted) + 1)
    {
      if m_refCount > 0 {
        s.events := s.events + multiset{Task.ReleaseProtocol(id)};
      } else {
        DeleteProtocolTask();
      }
    }

    method DeleteProtocolTask()
      requires m_refCount <= 0
      modifies this
      ensures Value() == old(Value()).(connection := None, deletions := old(deleted) + 1)
    {
      SetConnection(None);
      deleted := deleted + 1;
    }
  }

  class Connection {
    const id: CId
    var m_state: State
    var m_socket: Socket
    var m_pendingWrite: int
    var m_pendingRead: int
    var m_writeError: bool
    var m_readError: bool
    var m_receivedFirst: bool
    var reading: Reading
    var m_protocol: ProtocolObject?
    var m_refCount: int
    var closeRuns: nat
    var stopPosts: nat

    constructor (id: CId)
      ensures this.id == id && Value() == FRESH
    {
      this.id := id;
      m_refCount, m_pendingWrite, m_pendingRead := 0, 0, 0;
      m_state := Open;
      m_receivedFirst, m_writeError, m_readError := false, false, false;
      m_protocol := null;
      m_socket, reading, closeRuns, stopPosts := Connected, NotReading, 0, 0;
    }

    function ProtocolId(): Option<PId>
      reads this
    {
      if m_protocol == null then None else Some(m_protocol.id)
    }

    function Value(): Conn
      reads this
    {
      Conn(m_state, m_socket, m_pendingWrite, m_pendingRead, m_writeError, m_readError, m_receivedFirst,
           reading, ProtocolId(), m_refCount, closeRuns, stopPosts)
    }

    method Close(s: Services)
      modifies this`m_state, s`tasks
      ensures Value() == CloseRequested(old(Value()))
      ensures s.tasks == old(s.tasks) + if AsksToClose(old(Value())) then [Task.CloseConnection(id)] else []
      ensures old(m_state) == Open ==> m_state == RequestClose && s.tasks == old(s.tasks) + [Task.CloseConnection(id)]
      ensures old(m_state) != Open ==> m_state == old(m_state) && s.tasks == old(s.tasks)
    {
      if m_state == Closing || m_state == Closed || m_state == RequestClose {
        return;
      }
      m_state := RequestClose;
      s.tasks := s.tasks + [Task.CloseConnection(id)];
    }

    // What following m_socket does, when it is null
    function NullSocket(): seq<Alarm>
      reads this
    {
      if m_socket == Gone then [NullSocketUsed(id)] else []
    }

    method CloseSocket(s: Services)
      modifies this`m_socket, this`m_pendingRead, this`m_pendingWrite, s`alarms
      ensures Value() == SocketClosed(old(Value()))
      ensures old(m_socket) == Connected ==> m_socket == Shut && m_pendingRead == 0 && m_pendingWrite == 0
      ensures old(m_socket) != Connected ==> Value() == old(Value())
      ensures s.alarms == old(s.alarms) + old(NullSocket())
    {
      if m_socket == Gone {
        s.alarms := s.alarms + [NullSocketUsed(id)];
      } else if m_socket == Connected {
        m_pendingRead, m_pendingWrite := 0, 0;
        m_socket := Shut;
      }
    }

    // onStop() up to the manager's list
    method OnStop(s: Services)
      modifies this`m_socket, s`alarms
      ensures Value() == Stopped(old(Value())) && m_socket == Gone
      ensures s.alarms == old(s.alarms) + old(NullSocket())
    {
      if m_socket == Gone {
        s.alarms := s.alarms + [NullSocketUsed(id)];
      }
      m_socket := Gone;
    }

    method DeleteConnection(s: Services)
      requires m_refCount <= 0
      modifies this`stopPosts, s`stops
      ensures Value() == old(Value()).(stopPosts := old(stopPosts) + 1)
      ensures s.stops == old(s.stops) + multiset{id}
    {
      stopPosts := stopPosts + 1;
      s.stops := s.stops + multiset{id};
    }

    // releaseConnection(): onStop is posted only when no message refers to the connection.
    method ReleaseConnection(s: Services)
      modifies this`stopPosts, s`stops, s`events
      ensures Value() == (if old(m_refCount) > 0 then old(Value()) else old(Value()).(stopPosts := old(stopPosts) + 1))
      ensures s.stops == old(s.stops) + if old(m_refCount) > 0 then multiset{} else multiset{id}
      ensures s.events == old(s.events) +
        if old(m_refCount) > 0 then multiset{Task.ReleaseConnection(id)} else multiset{}
    {
      if m_refCount > 0 {
        s.events := s.events + multiset{Task.ReleaseConnection(id)};
      } else {
        DeleteConnection(s);
      }
    }

    // The first part of closeConnection(): the protocol is told, released and forgotten.
    method DetachProtocol(s: Services)
      modifies this`m_protocol, m_protocol, s`events
      ensures Value() == old(Value()).(protocol := None)
      ensures s.events == old(s.events) + Owed(old(ProtocolRefs()), Task.ReleaseProtocol(old(ProtocolKey())))
      ensures old(m_protocol) != null ==>
        old(m_protocol).Value() == old(m_protocol.Value()).(connection := None,
          deletions := old(m_protocol.deleted) + if old(m_protocol.m_refCount) > 0 then 0 else 1)
    {
      if m_protocol != null {
        m_protocol.SetConnection(None);
        m_protocol.ReleaseProtocol(s);
        m_protocol := null;
      }
    }

    // What is scheduled for an object with that many references to it.
    static function Owed(refs: int, t: Task): multiset<Task> {
      if refs > 0 then multiset{t} else multiset{}
    }

    function ProtocolRefs(): int
      reads this, m_protocol
    {
      if m_protocol == null then 0 else m_protocol.m_refCount
    }

    function ProtocolKey(): PId
      reads this
    {
      if m_protocol == null then 0 else m_protocol.id
    }

    // closeSocket(), releaseConnection(), and the final state
    method ShutDown(s: Services)
      modifies this`m_state, this`m_socket, this`m_pendingRead, this`m_pendingWrite, this`stopPosts
      modifies s`events, s`stops, s`alarms
      ensures s.alarms == old(s.alarms) + old(NullSocket())
      ensures Value() == SocketClosed(old(Value())).(state := Closed,
        stopPosts := old(stopPosts) + if old(m_refCount) > 0 then 0 else 1)
      ensures s.stops == old(s.stops) + if old(m_refCount) > 0 then multiset{} else multiset{id}
      ensures s.events == old(s.events) +
        if old(m_refCount) > 0 then multiset{Task.ReleaseConnection(id)} else multiset{}
    {
      CloseSocket(s);
      ReleaseConnection(s);
      m_state := Closed;
    }

    // The rest of closeConnection(): the socket goes now unless a write is still pending.
    method FinishClose(s: Services)
      requires m_protocol == null
      modifies this`m_state, this`closeRuns, this`m_socket, this`m_pendingRead, this`m_pendingWrite
      modifies this`stopPosts, s`events, s`stops, s`alarms
      ensures Value() == Finished(old(Value()))
      ensures s.alarms == old(s.alarms)
        + if old(m_pendingWrite) == 0 || old(m_writeError) then old(NullSocket()) else []
      ensures s.stops == old(s.stops) + if StopsNow(old(Value())) then multiset{id} else multiset{}
      ensures s.events == old(s.events)
        + if StopsLater(old(Value())) then multiset{Task.ReleaseConnection(id)} else multiset{}
    {
      m_state := Closing;
      closeRuns := closeRuns + 1;
      if m_pendingWrite == 0 || m_writeError {
        ShutDown(s);
      }
    }

    // closeConnection(): only a requested close does anything.
    method CloseConnection(s: Services) returns (wrongState: bool)
      modifies this, m_protocol, s`events, s`stops, s`alarms
      ensures wrongState <==> old(m_state) != RequestClose
      ensures wrongState ==> Value() == old(Value()) && s.events == old(s.events) && s.stops == old(s.stops)
      ensures s.alarms == old(s.alarms)
        + if !wrongState && (old(m_pendingWrite) == 0 || old(m_writeError)) then old(NullSocket()) else []
      ensures !wrongState ==> Value() == Finished(old(Value()))
      ensures !wrongState && old(m_pendingWrite) != 0 && !old(m_writeError) ==>
        Value() == old(Value()).(protocol := None, state := Closing, closeRuns := old(closeRuns) + 1)
      ensures !wrongState && (old(m_pendingWrite) == 0 || old(m_writeError)) ==>
        && m_protocol == null && m_state == Closed && closeRuns == old(closeRuns) + 1
        && stopPosts == old(stopPosts) + (if old(m_refCount) > 0 then 0 else 1)
        && m_socket == (if old(m_socket) == Connected then Shut else old(m_socket))
        && (old(m_socket) == Connected ==> m_pendingRead == 0 && m_pendingWrite == 0)
        && s.stops == old(s.stops) + (if old(m_refCount) > 0 then multiset{} else multiset{id})
      ensures !wrongState && old(m_pendingWrite) != 0 && !old(m_writeError) ==> s.stops == old(s.stops)
      ensures !wrongState ==>
        s.stops == old(s.stops) + if StopsNow(old(Value())) then multiset{id} else multiset{}
      ensures !wrongState ==>
        s.events == old(s.events) + Owed(old(ProtocolRefs()), Task.ReleaseProtocol(old(ProtocolKey())))
          + if StopsLater(old(Value())) then multiset{Task.ReleaseConnection(id)} else multiset{}
      ensures !wrongState && old(m_protocol) != null ==>
        old(m_protocol).Value() == old(m_protocol.Value()).(connection := None,
          deletions := old(m_protocol.deleted) + if old(m_protocol.m_refCount) > 0 then 0 else 1)
    {
      hide Finished, StopsNow, StopsLater;
      wrongState := m_state != RequestClose;
      if !wrongState {
        DetachProtocol(s);
        FinishedFields(old(Value()));
        FinishedDetached(old(Value()));
        FinishClose(s);
      }
    }

    // internalSend()
    method InternalSend(m: MId, threw: bool, s: Services)
      modifies this`m_pendingWrite, s`writes, s`alarms
      ensures s.alarms == old(s.alarms) + old(NullSocket())
      ensures Value() == old(Value()).(pendingWrite := old(m_pendingWrite) + 1)
      ensures s.writes == old(s.writes) + if threw then {} else {m}
    {
      m_pendingWrite := m_pendingWrite + 1;
      if m_socket == Gone {
        s.alarms := s.alarms + [NullSocketUsed(id)];
      }
      if !threw {
        s.writes := s.writes + {m};
      }
    }

    // send(): a message is refused, framed and written, queued, or gives up a slow connection.
    method Send(m: MId, threw: bool, forceSlow: bool, s: Services) returns (sent: bool)
      modifies this`m_pendingWrite, this`m_state, s
      ensures var way := SendChoice(old(Value()), forceSlow);
        && (sent <==> way != Refused)
        && Value() == SentOn(old(Value()), forceSlow)
        && s.framed == old(s.framed) + (if way == WriteNow then [m] else [])
        && s.writes == old(s.writes) + (if way == WriteNow && !threw then {m} else {})
        && s.addQueue == old(s.addQueue) + (if way == Queue then [m] else [])
        && s.tasks == old(s.tasks) + (if way == ForceClose then [Task.CloseConnection(id)] else [])
        && s.events == old(s.events) && s.stops == old(s.stops)
        && s.alarms == old(s.alarms) + (if way == WriteNow then old(NullSocket()) else [])
      ensures sent <==> old(m_state) == Open && !old(m_writeError)
      ensures !sent ==> Value() == old(Value()) && s.addQueue == old(s.addQueue) && s.framed == old(s.framed)
      ensures sent && old(m_pendingWrite) == 0 ==>
        && Value() == old(Value()).(pendingWrite := 1) && s.framed == old(s.framed) + [m]
        && s.writes == old(s.writes) + (if threw then {} else {m}) && s.addQueue == old(s.addQueue)
      ensures sent && old(m_pendingWrite) > 100 && forceSlow ==>
        && Value() == old(Value()).(state := RequestClose) && s.addQueue == old(s.addQueue)
        && s.tasks == old(s.tasks) + [Task.CloseConnection(id)]
      ensures sent && old(m_pendingWrite) != 0 && !(old(m_pendingWrite) > 100 && forceSlow) ==>
        Value() == old(Value()) && s.addQueue == old(s.addQueue) + [m] && s.tasks == old(s.tasks)
    {
      if m_state != Open || m_writeError {
        return false;
      }
      if m_pendingWrite == 0 {
        s.framed := s.framed + [m];
        InternalSend(m, threw, s);
      } else if m_pendingWrite > 100 && forceSlow {
        Close(s);
      } else {
        s.addQueue := s.addQueue + [m];
      }
      return true;
    }

    method HandleReadError(e: Error, s: Services)
      modifies this`m_state, this`m_readError, s`tasks
      ensures Value() == (if e == Aborted then old(Value()) else CloseRequested(old(Value()))).(readError := true)
      ensures s.tasks == old(s.tasks)
        + if e != Aborted && AsksToClose(old(Value())) then [Task.CloseConnection(id)] else []
    {
      if e != Aborted {
        Close(s);
      }
      m_readError := true;
    }

    method HandleWriteError(e: Error, s: Services)
      modifies this`m_state, this`m_writeError, s`tasks
      ensures Value() == (if e == Aborted then old(Value()) else CloseRequested(old(Value()))).(writeError := true)
      ensures s.tasks == old(s.tasks)
        + if e != Aborted && AsksToClose(old(Value())) then [Task.CloseConnection(id)] else []
    {
      if e != Aborted {
        Close(s);
      }
      m_writeError := true;
    }

    // onWrite(): one write less, or no socket and no open state any more.
    method OnWrite(m: MId, e: Error, s: Services)
      modifies this, s`tasks, s`writes, s`alarms
      ensures s.writes == old(s.writes) - {m}
      ensures s.alarms == old(s.alarms)
        + if old(m_state) == Open && !old(m_writeError) && e == NoError then [] else old(NullSocket())
      ensures old(m_state) == Open && !old(m_writeError) && e == NoError ==>
        Value() == old(Value()).(pendingWrite := old(m_pendingWrite) - 1) && s.tasks == old(s.tasks)
      ensures !(old(m_state) == Open && !old(m_writeError) && e == NoError) ==>
        && Value() == SocketDropped(old(Value())).(writeError := old(m_writeError) || e != NoError)
        && s.tasks == old(s.tasks) + if AsksToClose(old(Value())) then [Task.CloseConnection(id)] else []
      ensures m_state == if old(m_state) != Open then old(m_state)
        else if old(m_writeError) || e != NoError then RequestClose else Open
      ensures m_state != Open && old(m_socket) == Connected ==>
        m_socket == Shut && m_pendingRead == 0 && m_pendingWrite == 0
    {
      s.writes := s.writes - {m};
      if e != NoError {
        HandleWriteError(e, s);
      }
      if m_state != Open || m_writeError {
        CloseSocket(s);
        Close(s);
        return;
      }
      m_pendingWrite := m_pendingWrite - 1;
    }

    method OnReadTimeout(s: Services)
      modifies this, s`tasks, s`alarms
      ensures var late := old(m_pendingRead) > 0 || old(m_readError);
        && Value() == (if late then SocketDropped(old(Value())) else old(Value()))
        && s.tasks == old(s.tasks)
           + (if late && AsksToClose(old(Value())) then [Task.CloseConnection(id)] else [])
        && s.alarms == old(s.alarms) + (if late then old(NullSocket()) else [])
        && (late && old(m_socket) == Connected ==> m_socket == Shut && m_pendingRead == 0 && m_pendingWrite == 0)
        && (late && old(m_state) == Open ==> m_state == RequestClose)
    {
      if m_pendingRead > 0 || m_readError {
        CloseSocket(s);
        Close(s);
      }
    }

    method OnWriteTimeout(s: Services)
      modifies this, s`tasks, s`alarms
      ensures var late := old(m_pendingWrite) > 0 || old(m_writeError);
        && Value() == (if late then SocketDropped(old(Value())) else old(Value()))
        && s.tasks == old(s.tasks)
           + (if late && AsksToClose(old(Value())) then [Task.CloseConnection(id)] else [])
        && s.alarms == old(s.alarms) + (if late then old(NullSocket()) else [])
        && (late && old(m_socket) == Connected ==> m_socket == Shut && m_pendingRead == 0 && m_pendingWrite == 0)
        && (late && old(m_state) == Open ==> m_state == RequestClose)
    {
      if m_pendingWrite > 0 || m_writeError {
        CloseSocket(s);
        Close(s);
      }
    }
  }
}
