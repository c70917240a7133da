/** What every reachable World satisfies. Each part is stated over the components it is about, so
    that an operation that leaves those components alone keeps it. */
module WorldInvariant {
  import opened Wrappers
  import opened ConnectionState
  import opened World

  // The messages whose m_protocol is p / whose m_connection is c.
  function ProtoRefs(owner: map<MId, Owner>, p: PId): set<MId> { set m | m in owner && owner[m].p == p }
  function ConnRefs(owner: map<MId, Owner>, c: CId): set<MId> { set m | m in owner && owner[m].c == c }

  // Reference counts count exactly the messages that refer to the object.
  ghost predicate ProtoCounts(protos: map<PId, Proto>, owner: map<MId, Owner>) {
    forall p :: p in protos ==> protos[p].refCount == |ProtoRefs(owner, p)|
  }

  ghost predicate ConnCounts(conns: map<CId, Conn>, owner: map<MId, Owner>) {
    forall c :: c in conns ==> conns[c].refCount == |ConnRefs(owner, c)|
  }

  // m_protocol and m_connection point at each other.
  ghost predicate Links(conns: map<CId, Conn>, protos: map<PId, Proto>) {
    && (forall c :: c in conns && conns[c].protocol.Some? ==>
          conns[c].protocol.value in protos && protos[conns[c].protocol.value].connection == Some(c))
    && (forall p :: p in protos && protos[p].connection.Some? ==>
          && protos[p].connection.value in conns
          && conns[protos[p].connection.value].protocol == Some(p)
          && protos[p].deletions == 0)
    && (forall p :: p in protos ==> protos[p].deletions <= 1)
  }

  // No message refers to a deleted protocol or to a connection whose onStop is posted.
  ghost predicate OwnersAlive(conns: map<CId, Conn>, protos: map<PId, Proto>, owner: map<MId, Owner>) {
    forall m :: m in owner ==>
      && owner[m].p in protos && protos[owner[m].p].deletions == 0
      && owner[m].c in conns && conns[owner[m].c].stopPosts == 0
  }

  // The fields of one connection agree with each other.
  ghost predicate ConnOk(c: Conn) {
    && 0 <= c.pendingWrite <= 1
    && (c.writeError || c.readError ==> c.state != Open)
    && (c.state == Open && c.receivedFirst ==> c.protocol.Some?)
    && (c.protocol.Some? ==> c.state == Open || c.state == RequestClose)
    && c.closeRuns == (if c.state == Closing || c.state == Closed then 1 else 0)
    && c.stopPosts <= 1 && (c.stopPosts == 1 ==> c.state == Closed)
    && (c.socket == Gone ==> c.stopPosts == 1)
  }

  ghost predicate ConnsOk(conns: map<CId, Conn>) {
    forall c :: c in conns ==> ConnOk(conns[c])
  }

  ghost predicate NoDup<T>(s: seq<T>) { forall i, j :: 0 <= i < j < |s| ==> s[i] != s[j] }

  // Where the pool itself, or a pending write, refers to a message.
  ghost function Places(autoSend: seq<MId>, addQueue: seq<MId>, writes: set<MId>): multiset<MId> {
    multiset(autoSend) + multiset(addQueue) + multiset(writes)
  }

  // A message is either free or owned; an owned one is unframed with 8 bytes of header room, or
  // framed exactly once with none.
  ghost predicate Partition(pool: Pool) {
    && (forall m :: m in pool.header <==> m in pool.owner || m in pool.free)
    && (forall m :: m in pool.free ==> m !in pool.owner)
    && NoDup(pool.free)
  }

  ghost predicate HeaderOk(h: Header) {
    h == Header(8, 0) || h == Header(0, 1)
  }

  ghost predicate Headers(pool: Pool) {
    && (forall m :: m in pool.free && m in pool.header ==> pool.header[m].start == 8)
    && (forall m :: m in pool.owner && m in pool.header ==> HeaderOk(pool.header[m]))
    && (forall m :: (m in pool.autoSend || m in pool.addQueue) && m in pool.header ==> pool.header[m].framed == 0)
    && (forall m :: m in pool.writes && m in pool.header ==> pool.header[m].framed == 1)
  }

  ghost predicate OnePlace(autoSend: seq<MId>, addQueue: seq<MId>, writes: set<MId>) {
    forall m :: Places(autoSend, addQueue, writes)[m] <= 1
  }

  // At most one asynchronous write per connection, and it is counted while the connection is open.
  ghost predicate Writes(conns: map<CId, Conn>, owner: map<MId, Owner>, writes: set<MId>) {
    forall m :: m in writes && m in owner && owner[m].c in conns ==>
      && (conns[owner[m].c].state == Open ==> conns[owner[m].c].pendingWrite == 1)
      && (forall n :: n in writes && n in owner && owner[m].c == owner[n].c ==> m == n)
  }

  // Every callback that is queued, popped but not called, or scheduled.
  ghost function Tokens(tasks: seq<Task>, pc: Pc, events: multiset<Task>): multiset<Task> {
    multiset(tasks) + (if pc.Running? then multiset{pc.task} else multiset{}) + events
  }

  // Obligations are neither lost nor duplicated.
  ghost predicate ReleaseTokens(tokens: multiset<Task>, pool: Pool, hand: set<MId>) {
    forall m :: tokens[InternalRelease(m)] == if m in pool.owner && !Referenced(pool, hand, m) then 1 else 0
  }

  ghost predicate CloseTokens(tokens: multiset<Task>, conns: map<CId, Conn>) {
    forall c :: tokens[CloseConnection(c)] == if c in conns && conns[c].state == RequestClose then 1 else 0
  }

  ghost predicate ConnTokens(tokens: multiset<Task>, conns: map<CId, Conn>) {
    forall c :: tokens[ReleaseConnection(c)] ==
      if c in conns && conns[c].state == Closed && conns[c].stopPosts == 0 then 1 else 0
  }

  ghost predicate ProtoTokens(tokens: multiset<Task>, protos: map<PId, Proto>) {
    forall p :: tokens[ReleaseProtocol(p)] ==
      if p in protos && protos[p].connection == None && protos[p].deletions == 0 then 1 else 0
  }

  // A connection stays in the manager's list until its one onStop has run.
  ghost predicate Manager(conns: map<CId, Conn>, stops: multiset<CId>, manager: seq<CId>) {
    && (forall c :: c in conns ==> stops[c] + (if c in manager then 0 else 1) == conns[c].stopPosts)
    && (forall c :: c in conns ==> (conns[c].socket == Gone <==> c !in manager))
    && NoDup(manager)
  }

  // The popped task, if any, before the queued ones.
  ghost function Line(tasks: seq<Task>, pc: Pc): seq<Task> {
    (if pc.Running? then [pc.task] else []) + tasks
  }

  ghost predicate Attached(protos: map<PId, Proto>, p: PId) {
    p in protos && protos[p].connection.Some?
  }

  // A waiting delegate finds its protocol attached, and no close of that connection is ahead of it.
  ghost predicate Delegates(line: seq<Task>, protos: map<PId, Proto>) {
    && (forall j :: 0 <= j < |line| && line[j].Delegate? ==> Attached(protos, line[j].p))
    && (forall i, j :: 0 <= i < j < |line| && line[i].CloseConnection? && line[j].Delegate? && line[j].p in protos ==>
          protos[line[j].p].connection != Some(line[i].c))
  }

  // The scheduler holds release callbacks only.
  ghost predicate Events(events: multiset<Task>) {
    forall t :: t in events ==> t.ReleaseConnection? || t.ReleaseProtocol?
  }

  // While delegate runs its protocol stays attached; its `Unsent` message is nowhere in the pool.
  ghost predicate PcOk(pc: Pc, protos: map<PId, Proto>, pool: Pool) {
    pc.Delegating? ==>
      && Attached(protos, pc.p)
      && (pc.hand.Unsent? ==>
            && pc.hand.m in pool.header && pool.header[pc.hand.m].framed == 0
            && Places(pool.autoSend, pool.addQueue, pool.writes)[pc.hand.m] == 0)
  }

  ghost predicate Objects(w: World) {
    && ProtoCounts(w.protos, w.pool.owner)
    && ConnCounts(w.conns, w.pool.owner)
    && Links(w.conns, w.protos)
    && OwnersAlive(w.conns, w.protos, w.pool.owner)
    && ConnsOk(w.conns)
    && Manager(w.conns, w.stops, w.manager)
  }

  ghost predicate PoolOk(w: World) {
    && Partition(w.pool)
    && Headers(w.pool)
    && OnePlace(w.pool.autoSend, w.pool.addQueue, w.pool.writes)
    && Writes(w.conns, w.pool.owner, w.pool.writes)
    && PcOk(w.pc, w.protos, w.pool)
  }

  ghost predicate Obligations(w: World) {
    var tokens := Tokens(w.tasks, w.pc, w.events);
    && ReleaseTokens(tokens, w.pool, InHand(w.pc))
    && CloseTokens(tokens, w.conns)
    && ConnTokens(tokens, w.conns)
    && ProtoTokens(tokens, w.protos)
  }

  ghost predicate Order(w: World) {
    Delegates(Line(w.tasks, w.pc), w.protos) && Events(w.events)
  }

  ghost predicate Inv(w: World) {
    Known(w) && Objects(w) && PoolOk(w) && Obligations(w) && Order(w) && w.alarms == []
  }
}
