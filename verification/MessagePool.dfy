/** src/net/outputmessage.cpp: how OutputMessagePool hands messages out and takes them back, on the
    objects themselves; the functions Allocated and Released of module World say the same of ids. */
module MessagePools {
  import opened Wrappers
  import opened World
  import opened Connections

  datatype MessageState = STATE_FREE | STATE_ALLOCATED | STATE_ALLOCATED_NO_AUTOSEND

  class OutputMessage {
    const id: MId
    var m_protocol: ProtocolObject?
    var m_connection: Connection?
    var m_state: MessageState
    var m_frame: nat
    var m_size: nat
    var m_position: nat
    var m_outputBufferStart: nat

    predicate IsFree()
      reads this
    {
      m_protocol == null && m_connection == null && m_frame == 0 && m_outputBufferStart == 8 && m_state == STATE_FREE
    }

    constructor (id: MId)
      ensures this.id == id && IsFree() && m_size == 0 && m_position == 8
    {
      this.id := id;
      m_protocol, m_connection, m_frame, m_outputBufferStart, m_state := null, null, 0, 8, STATE_FREE;
      m_size, m_position := 0, 8;
    }

    method FreeMessage()
      modifies this
      ensures IsFree() && m_size == old(m_size) && m_position == old(m_position)
    {
      m_connection := null;
      m_protocol := null;
      m_frame := 0;
      m_outputBufferStart := 8;
      m_state := STATE_FREE;
    }
  }

  // To whom each message in somebody's hands refers
  type Owners = map<OutputMessage, (ProtocolObject, Connection)>

  ghost function ProtocolRefs(owner: Owners, p: ProtocolObject): set<OutputMessage> {
    set m | m in owner && owner[m].0 == p
  }

  ghost function ConnectionRefs(owner: Owners, c: Connection): set<OutputMessage> {
    set m | m in owner && owner[m].1 == c
  }

  ghost function ProtocolCount(owner: Owners, p: ProtocolObject): nat { |ProtocolRefs(owner, p)| }

  ghost function ConnectionCount(owner: Owners, c: Connection): nat { |ConnectionRefs(owner, c)| }

  lemma ProtocolCounted(owner: Owners, m: OutputMessage, o: (ProtocolObject, Connection), p: ProtocolObject)
    requires m !in owner
    ensures ProtocolCount(owner[m := o], p) == ProtocolCount(owner, p) + if p == o.0 then 1 else 0
  {
    var r := ProtocolRefs(owner, p);
    assert m !in r && ProtocolRefs(owner[m := o], p) == if p == o.0 then r + {m} else r;
  }

  lemma ConnectionCounted(owner: Owners, m: OutputMessage, o: (ProtocolObject, Connection), c: Connection)
    requires m !in owner
    ensures ConnectionCount(owner[m := o], c) == ConnectionCount(owner, c) + if c == o.1 then 1 else 0
  {
    var r := ConnectionRefs(owner, c);
    assert m !in r && ConnectionRefs(owner[m := o], c) == if c == o.1 then r + {m} else r;
  }

  // A message more or less changes the count of its own two objects and of no other.
  lemma Counted(owner: Owners, m: OutputMessage, o: (ProtocolObject, Connection))
    requires m !in owner
    ensures forall p: ProtocolObject ::
      ProtocolCount(owner[m := o], p) == ProtocolCount(owner, p) + if p == o.0 then 1 else 0
    ensures forall c: Connection ::
      ConnectionCount(owner[m := o], c) == ConnectionCount(owner, c) + if c == o.1 then 1 else 0
  {
    forall p: ProtocolObject
      ensures ProtocolCount(owner[m := o], p) == ProtocolCount(owner, p) + if p == o.0 then 1 else 0
    {
      ProtocolCounted(owner, m, o, p);
    }
    forall c: Connection
      ensures ConnectionCount(owner[m := o], c) == ConnectionCount(owner, c) + if c == o.1 then 1 else 0
    {
      ConnectionCounted(owner, m, o, c);
    }
  }

  // A free message is in the list once, and is in nobody's hands.
  ghost predicate FreeListOk(free: seq<OutputMessage>, owner: Owners)
    reads free
  {
    && (forall i, j :: 0 <= i < j < |free| ==> free[i] != free[j])
    && (forall m :: m in free ==> m.IsFree() && m !in owner)
  }

  ghost predicate LiveOk(autoSend: seq<OutputMessage>, owner: Owners,
                         protocols: set<ProtocolObject>, connections: set<Connection>)
    reads owner.Keys
  {
    && (forall m :: m in owner ==> m.m_protocol == owner[m].0 && m.m_connection == owner[m].1)
    && (forall m :: m in owner ==> owner[m].0 in protocols && owner[m].1 in connections)
    && (forall m :: m in autoSend ==> m in owner)
  }

  // The reference counts of some objects
  ghost function ProtocolCounts(protocols: set<ProtocolObject>): map<ProtocolObject, int>
    reads protocols
  {
    map p | p in protocols :: p.m_refCount
  }

  ghost function ConnectionCounts(connections: set<Connection>): map<Connection, int>
    reads connections
  {
    map c | c in connections :: c.m_refCount
  }

  // Every reference count is the number of messages that refer to the object.
  ghost predicate CountsOk(owner: Owners, ps: map<ProtocolObject, int>, cs: map<Connection, int>) {
    && (forall p :: p in ps ==> ps[p] == ProtocolCount(owner, p))
    && (forall c :: c in cs ==> cs[c] == ConnectionCount(owner, c))
  }

  // ----- a message is handed out, or taken back -----

  lemma CountsMore(owner: Owners, m: OutputMessage, o: (ProtocolObject, Connection),
                   ps: map<ProtocolObject, int>, cs: map<Connection, int>)
    requires CountsOk(owner, ps, cs) && m !in owner && o.0 in ps && o.1 in cs
    ensures CountsOk(owner[m := o], ps[o.0 := ps[o.0] + 1], cs[o.1 := cs[o.1] + 1])
  {
    hide ProtocolCount, ConnectionCount;
    Counted(owner, m, o);
  }

  lemma CountsLess(owner: Owners, m: OutputMessage, ps: map<ProtocolObject, int>, cs: map<Connection, int>)
    requires CountsOk(owner, ps, cs) && m in owner && owner[m].0 in ps && owner[m].1 in cs
    ensures var o := owner[m];
      CountsOk(owner - {m}, ps[o.0 := ps[o.0] - 1], cs[o.1 := cs[o.1] - 1])
  {
    hide ProtocolCount, ConnectionCount;
    Counted(owner - {m}, m, owner[m]);
    assert (owner - {m})[m := owner[m]] == owner;
  }

  lemma FreeKept(free: seq<OutputMessage>, owner: Owners, m: OutputMessage, o: (ProtocolObject, Connection))
    requires FreeListOk(free, owner) && m !in free
    ensures FreeListOk(free, owner[m := o])
  {
  }

  lemma LiveMore(autoSend: seq<OutputMessage>, owner: Owners, protocols: set<ProtocolObject>,
                 connections: set<Connection>, m: OutputMessage, more: bool)
    requires LiveOk(autoSend, owner, protocols, connections) && m !in owner
    requires m.m_protocol != null && m.m_connection != null
    requires m.m_protocol in protocols && m.m_connection in connections
    ensures var o: (ProtocolObject, Connection) := (m.m_protocol, m.m_connection);
      LiveOk(autoSend + if more then [m] else [], owner[m := o], protocols, connections)
  {
  }

  lemma LiveLess(autoSend: seq<OutputMessage>, owner: Owners, protocols: set<ProtocolObject>,
                 connections: set<Connection>, m: OutputMessage)
    requires LiveOk(autoSend, owner, protocols, connections) && m !in autoSend
    ensures LiveOk(autoSend, owner - {m}, protocols, connections) && m !in (owner - {m}).Keys
    ensures m in owner ==> m.m_protocol == owner[m].0 && m.m_connection == owner[m].1
    ensures m in owner ==> owner[m].0 in protocols && owner[m].1 in connections
  {
  }

  lemma FreeMore(free: seq<OutputMessage>, owner: Owners, m: OutputMessage)
    requires FreeListOk(free, owner) && m.IsFree() && m !in free
    ensures FreeListOk(free + [m], owner - {m})
  {
  }

  class MessagePool {
    var m_outputMessages: seq<OutputMessage>
    var m_autoSend: seq<OutputMessage>
    var m_frameTime: nat
    var m_shutdown: bool
    ghost var owner: Owners
    ghost var protocols: set<ProtocolObject>
    ghost var connections: set<Connection>

    ghost predicate Valid()
      reads this, m_outputMessages, owner.Keys, protocols, connections
    {
      && FreeListOk(m_outputMessages, owner)
      && LiveOk(m_autoSend, owner, protocols, connections)
      && CountsOk(owner, ProtocolCounts(protocols), ConnectionCounts(connections))
    }

    constructor (frameTime: nat)
      ensures Valid() && m_outputMessages == [] && m_autoSend == [] && !m_shutdown && m_frameTime == frameTime
      ensures owner == map[] && protocols == {} && connections == {}
    {
      m_outputMessages, m_autoSend, m_frameTime, m_shutdown := [], [], frameTime, false;
      owner, protocols, connections := map[], {}, {};
    }

    // getOutputMessage(): nothing for a protocol without a connection. `connection` is the one that
    // the protocol points at.
    method GetOutputMessage(protocol: ProtocolObject, connection: Connection?, autoSend: bool, newId: MId)
      returns (omsg: OutputMessage?)
      requires Valid() && protocol in protocols && (connection != null ==> connection in connections)
      requires protocol.m_connection == if connection == null then None else Some(connection.id)
      modifies this`m_outputMessages, this`m_autoSend, this`owner, m_outputMessages, protocol`m_refCount
      modifies (if connection == null then {} else {connection})`m_refCount
      ensures Valid()
      ensures omsg == null <==> m_shutdown || connection == null
      ensures omsg == null ==> m_outputMessages == old(m_outputMessages) && m_autoSend == old(m_autoSend)
      ensures omsg == null ==> owner == old(owner)
      ensures omsg != null ==> omsg !in old(owner) && owner == old(owner)[omsg := (protocol, connection)]
      ensures omsg != null ==>
        if old(m_outputMessages) == [] then fresh(omsg) && m_outputMessages == []
        else old(m_outputMessages) == m_outputMessages + [omsg]
      ensures omsg != null ==> omsg.m_size == 0 && omsg.m_position == 8 && omsg.m_outputBufferStart == 8
      ensures omsg != null ==>
        omsg.m_frame == m_frameTime && omsg.m_protocol == protocol && omsg.m_connection == connection
      ensures omsg != null ==>
        omsg.m_state == if autoSend then STATE_ALLOCATED else STATE_ALLOCATED_NO_AUTOSEND
      ensures omsg != null ==> m_autoSend == old(m_autoSend) + if autoSend then [omsg] else []
      ensures omsg != null ==> protocol.m_refCount == old(protocol.m_refCount) + 1
      ensures omsg != null ==> connection.m_refCount == old(connection.m_refCount) + 1
    {
      if m_shutdown || connection == null {
        return null;
      }
      hide FreeListOk, LiveOk, CountsOk;
      omsg := TakeFree(newId);
      assert old(m_outputMessages) != [] ==> omsg in old(m_outputMessages);
      Configure(omsg, protocol, connection, autoSend);
    }

    // The last free message, or a new one
    method TakeFree(newId: MId) returns (omsg: OutputMessage)
      requires Valid()
      modifies this`m_outputMessages
      ensures Valid() && omsg !in m_outputMessages && omsg !in owner && omsg.IsFree()
      ensures if old(m_outputMessages) == [] then fresh(omsg) && m_outputMessages == []
        else old(m_outputMessages) == m_outputMessages + [omsg]
    {
      hide CountsOk;
      if |m_outputMessages| == 0 {
        var msg := new OutputMessage(newId);
        m_outputMessages := [msg];
      }
      var n := |m_outputMessages| - 1;
      omsg := m_outputMessages[n];
      m_outputMessages := m_outputMessages[..n];
    }

    method Configure(msg: OutputMessage, protocol: ProtocolObject, connection: Connection, autoSend: bool)
      requires Valid() && protocol in protocols && connection in connections
      requires msg !in m_outputMessages && msg !in owner && msg.IsFree()
      modifies this`m_autoSend, this`owner, msg, protocol`m_refCount, connection`m_refCount
      ensures Valid() && owner == old(owner)[msg := (protocol, connection)]
      ensures msg.m_frame == m_frameTime && msg.m_size == 0 && msg.m_position == 8 && msg.m_outputBufferStart == 8
      ensures msg.m_protocol == protocol && msg.m_connection == connection
      ensures msg.m_state == if autoSend then STATE_ALLOCATED else STATE_ALLOCATED_NO_AUTOSEND
      ensures m_autoSend == old(m_autoSend) + if autoSend then [msg] else []
      ensures protocol.m_refCount == old(protocol.m_refCount) + 1
      ensures connection.m_refCount == old(connection.m_refCount) + 1
    {
      hide FreeListOk, LiveOk, CountsOk;
      ghost var ps, cs := ProtocolCounts(protocols), ConnectionCounts(connections);
      ghost var queued := m_autoSend;
      Fill(msg, protocol, connection, autoSend);
      CountsMore(owner, msg, (protocol, connection), ps, cs);
      assert ProtocolCounts(protocols) == ps[protocol := ps[protocol] + 1];
      assert ConnectionCounts(connections) == cs[connection := cs[connection] + 1];
      FreeKept(m_outputMessages, owner, msg, (protocol, connection));
      LiveMore(queued, owner, protocols, connections, msg, autoSend);
      owner := owner[msg := (protocol, connection)];
    }

    // The assignments of configureOutputMessage
    method Fill(msg: OutputMessage, protocol: ProtocolObject, connection: Connection, autoSend: bool)
      modifies this`m_autoSend, msg, protocol`m_refCount, connection`m_refCount
      ensures msg.m_protocol == protocol && msg.m_connection == connection
      ensures msg.m_frame == m_frameTime && msg.m_size == 0 && msg.m_position == 8
      ensures msg.m_state == if autoSend then STATE_ALLOCATED else STATE_ALLOCATED_NO_AUTOSEND
      ensures msg.m_outputBufferStart == old(msg.m_outputBufferStart)
      ensures m_autoSend == old(m_autoSend) + if autoSend then [msg] else []
      ensures protocol.m_refCount == old(protocol.m_refCount) + 1
      ensures connection.m_refCount == old(connection.m_refCount) + 1
    {
      msg.m_size, msg.m_position := 0, 8;
      if autoSend {
        msg.m_state := STATE_ALLOCATED;
        m_autoSend := m_autoSend + [msg];
      } else {
        msg.m_state := STATE_ALLOCATED_NO_AUTOSEND;
      }
      msg.m_protocol := protocol;
      protocol.m_refCount := protocol.m_refCount + 1;
      msg.m_frame := m_frameTime;
      msg.m_connection := connection;
      connection.m_refCount := connection.m_refCount + 1;
    }

    // releaseMessage(), the deleter of a handed out message
    static method ReleaseMessage(msg: OutputMessage, s: Services)
      modifies s`tasks
      ensures s.tasks == [InternalRelease(msg.id)] + old(s.tasks)
    {
      s.tasks := [InternalRelease(msg.id)] + s.tasks;
    }

    // Its unRef calls and freeMessage. `warnings` counts the lines it prints about null pointers.
    method Unref(msg: OutputMessage) returns (warnings: nat)
      requires CountsOk(owner, ProtocolCounts(protocols), ConnectionCounts(connections))
      requires msg !in owner ==> msg.m_protocol !in protocols && msg.m_connection !in connections
      requires msg in owner ==> msg.m_protocol == owner[msg].0 && msg.m_connection == owner[msg].1
      requires msg in owner ==> owner[msg].0 in protocols && owner[msg].1 in connections
      modifies msg
      modifies (if msg.m_protocol == null then {} else {msg.m_protocol})`m_refCount
      modifies (if msg.m_connection == null then {} else {msg.m_connection})`m_refCount
      ensures CountsOk(owner - {msg}, ProtocolCounts(protocols), ConnectionCounts(connections))
      ensures msg.IsFree()
      ensures warnings == if old(msg.m_protocol) != null then 0 else if old(msg.m_connection) != null then 1 else 2
      ensures old(msg.m_protocol) != null ==>
        old(msg.m_protocol).m_refCount == old(if msg.m_protocol == null then 0 else msg.m_protocol.m_refCount) - 1
      ensures old(msg.m_connection) != null ==>
        old(msg.m_connection).m_refCount == old(if msg.m_connection == null then 0 else msg.m_connection.m_refCount) - 1
    {
      hide CountsOk;
      ghost var ps, cs := ProtocolCounts(protocols), ConnectionCounts(connections);
      warnings := 0;
      if msg.m_protocol != null {
        msg.m_protocol.m_refCount := msg.m_protocol.m_refCount - 1;
      } else {
        warnings := warnings + 1;
      }
      if msg.m_connection != null {
        msg.m_connection.m_refCount := msg.m_connection.m_refCount - 1;
      } else if msg.m_protocol == null {
        warnings := warnings + 1;
      }
      msg.FreeMessage();
      if msg in owner {
        ghost var o := owner[msg];
        CountsLess(owner, msg, ps, cs);
        assert ProtocolCounts(protocols) == ps[o.0 := ps[o.0] - 1];
        assert ConnectionCounts(connections) == cs[o.1 := cs[o.1] - 1];
      } else {
        assert ProtocolCounts(protocols) == ps && ConnectionCounts(connections) == cs;
        assert owner - {msg} == owner;
      }
    }

    // internalReleaseMessage(): run by the dispatcher, once for each handed out message. Of any other
    // message, only objects that the pool does not count may lose a reference.
    method InternalReleaseMessage(msg: OutputMessage) returns (warnings: nat)
      requires Valid() && msg !in m_autoSend && msg !in m_outputMessages
      requires msg !in owner ==> msg.m_protocol !in protocols && msg.m_connection !in connections
      modifies this`m_outputMessages, this`owner, msg
      modifies (if msg.m_protocol == null then {} else {msg.m_protocol})`m_refCount
      modifies (if msg.m_connection == null then {} else {msg.m_connection})`m_refCount
      ensures Valid() && owner == old(owner) - {msg} && msg.IsFree()
      ensures m_outputMessages == old(m_outputMessages) + [msg]
      ensures msg.m_protocol == null && msg.m_connection == null && msg.m_frame == 0 && msg.m_outputBufferStart == 8
      ensures warnings == if old(msg.m_protocol) != null then 0 else if old(msg.m_connection) != null then 1 else 2
      ensures msg in old(owner) ==> warnings == 0
      ensures old(msg.m_protocol) != null ==>
        old(msg.m_protocol).m_refCount == old(if msg.m_protocol == null then 0 else msg.m_protocol.m_refCount) - 1
      ensures old(msg.m_connection) != null ==>
        old(msg.m_connection).m_refCount == old(if msg.m_connection == null then 0 else msg.m_connection.m_refCount) - 1
    {
      hide FreeListOk, LiveOk, CountsOk;
      LiveLess(m_autoSend, owner, protocols, connections, msg);
      warnings := Unref(msg);
      FreeMore(m_outputMessages, owner, msg);
      m_outputMessages := m_outputMessages + [msg];
      owner := owner - {msg};
    }
  }
}
