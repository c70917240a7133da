/** The operations on connection records keep the invariant. */
module WorldConnProofs {
  import opened Wrappers
  import opened ConnectionState
  import opened World
  import opened WorldInvariant

  // A connection record that differs in flags and counters only.
  predicate SameLinks(c: Conn, d: Conn) {
    && d.protocol == c.protocol && d.refCount == c.refCount && d.stopPosts == c.stopPosts
    && (d.socket == Gone <==> c.socket == Gone)
  }

  lemma SetCounts(conns: map<CId, Conn>, protos: map<PId, Proto>, owner: map<MId, Owner>, c: CId, d: Conn)
    requires ConnCounts(conns, owner) && OwnersAlive(conns, protos, owner) && c in conns && SameLinks(conns[c], d)
    ensures ConnCounts(conns[c := d], owner) && OwnersAlive(conns[c := d], protos, owner)
  {
    hide ConnRefs;
  }

  lemma SetLinks(conns: map<CId, Conn>, protos: map<PId, Proto>, c: CId, d: Conn)
    requires Links(conns, protos) && c in conns && SameLinks(conns[c], d)
    ensures Links(conns[c := d], protos)
  {
  }

  lemma SetListed(conns: map<CId, Conn>, stops: multiset<CId>, manager: seq<CId>, c: CId, d: Conn)
    requires ConnsOk(conns) && Manager(conns, stops, manager) && c in conns && SameLinks(conns[c], d) && ConnOk(d)
    ensures ConnsOk(conns[c := d]) && Manager(conns[c := d], stops, manager)
  {
    hide ConnOk, NoDup;
  }

  lemma SetObjects(w: World, c: CId, d: Conn)
    requires Known(w) && Objects(w) && c in w.conns && SameLinks(w.conns[c], d) && ConnOk(d)
    ensures Objects(Set(w, c, d))
  {
    hide Known, ProtoCounts, ConnCounts, Links, OwnersAlive, ConnsOk, Manager, ConnOk, SameLinks;
    SetCounts(w.conns, w.protos, w.pool.owner, c, d);
    SetLinks(w.conns, w.protos, c, d);
    SetListed(w.conns, w.stops, w.manager, c, d);
  }

  lemma SetPool(w: World, c: CId, d: Conn)
    requires Known(w) && PoolOk(w) && c in w.conns && d.protocol == w.conns[c].protocol
    requires d.state == Open ==> w.conns[c].state == Open && d.pendingWrite == w.conns[c].pendingWrite
    ensures PoolOk(Set(w, c, d))
  {
  }

  lemma SetObligations(w: World, c: CId, d: Conn)
    requires Known(w) && Obligations(w) && c in w.conns && SameLinks(w.conns[c], d)
    requires d.state == w.conns[c].state
    ensures Obligations(Set(w, c, d))
  {
  }

  lemma SetOrder(w: World, c: CId, d: Conn)
    requires Known(w) && Order(w) && c in w.conns && d.protocol == w.conns[c].protocol
    ensures Order(Set(w, c, d))
  {
  }

  // Flags and counters of a connection change, its state does not.
  lemma SetKeeps(w: World, c: CId, d: Conn)
    requires Inv(w) && c in w.conns && SameLinks(w.conns[c], d) && ConnOk(d)
    requires d.state == w.conns[c].state
    requires d.state == Open ==> d.pendingWrite == w.conns[c].pendingWrite
    ensures Inv(Set(w, c, d))
  {
    hide Known, Objects, PoolOk, Obligations, Order;
    SetObjects(w, c, d);
    SetPool(w, c, d);
    SetObligations(w, c, d);
    SetOrder(w, c, d);
  }

  // A close request: the state moves on and one closeConnection task is queued at the back.
  function Requested(w: World, c: CId, d: Conn): World
    requires Known(w) && c in w.conns && d.protocol == w.conns[c].protocol
  {
    PushBack(Set(w, c, d), CloseConnection(c))
  }

  lemma CloseToken(tokens: multiset<Task>, conns: map<CId, Conn>, c: CId, d: Conn)
    requires CloseTokens(tokens, conns) && ConnTokens(tokens, conns)
    requires c in conns && conns[c].state == Open && d.state == RequestClose && d.stopPosts == conns[c].stopPosts
    ensures CloseTokens(tokens + multiset{CloseConnection(c)}, conns[c := d])
    ensures ConnTokens(tokens + multiset{CloseConnection(c)}, conns[c := d])
  {
  }

  // Tokens of one kind do not count for the others.
  lemma NotRelease(tokens: multiset<Task>, pool: Pool, hand: set<MId>, t: Task)
    requires ReleaseTokens(tokens, pool, hand) && !t.InternalRelease?
    ensures ReleaseTokens(tokens + multiset{t}, pool, hand) && ReleaseTokens(tokens - multiset{t}, pool, hand)
  {
    hide Referenced;
  }

  lemma NotProto(tokens: multiset<Task>, protos: map<PId, Proto>, t: Task)
    requires ProtoTokens(tokens, protos) && !t.ReleaseProtocol?
    ensures ProtoTokens(tokens + multiset{t}, protos) && ProtoTokens(tokens - multiset{t}, protos)
  {
  }

  lemma BackToken(tasks: seq<Task>, pc: Pc, events: multiset<Task>, t: Task)
    ensures Tokens(tasks + [t], pc, events) == Tokens(tasks, pc, events) + multiset{t}
  {
  }

  lemma RequestObligations(w: World, c: CId, d: Conn)
    requires Known(w) && Obligations(w) && c in w.conns && SameLinks(w.conns[c], d)
    requires w.conns[c].state == Open && d.state == RequestClose
    ensures Obligations(Requested(w, c, d))
  {
    hide Tokens, CloseTokens, ConnTokens, ReleaseTokens, ProtoTokens, Known, InHand;
    var tokens, t := Tokens(w.tasks, w.pc, w.events), CloseConnection(c);
    BackToken(w.tasks, w.pc, w.events, t);
    CloseToken(tokens, w.conns, c, d);
    NotRelease(tokens, w.pool, InHand(w.pc), t);
    NotProto(tokens, w.protos, t);
  }

  lemma CloseBehind(line: seq<Task>, protos: map<PId, Proto>, c: CId)
    requires Delegates(line, protos)
    ensures Delegates(line + [CloseConnection(c)], protos)
  {
  }

  lemma RequestOrder(w: World, c: CId, d: Conn)
    requires Known(w) && Order(w) && c in w.conns && d.protocol == w.conns[c].protocol
    ensures Order(Requested(w, c, d))
  {
    hide Known;
    assert Line(w.tasks + [CloseConnection(c)], w.pc) == Line(w.tasks, w.pc) + [CloseConnection(c)];
    CloseBehind(Line(w.tasks, w.pc), w.protos, c);
  }

  // Tasks are part of neither.
  lemma PushBackRest(w: World, t: Task)
    requires Known(w) && KnownTask(t, w.conns, w.protos, w.pool) && Objects(w) && PoolOk(w)
    ensures Objects(PushBack(w, t)) && PoolOk(PushBack(w, t))
  {
    hide Known;
  }

  lemma RequestKeeps(w: World, c: CId, d: Conn)
    requires Inv(w) && c in w.conns && SameLinks(w.conns[c], d) && ConnOk(d)
    requires w.conns[c].state == Open && d.state == RequestClose
    ensures Inv(Requested(w, c, d))
  {
    hide Known, Objects, PoolOk, Obligations, Order;
    SetObjects(w, c, d);
    SetPool(w, c, d);
    PushBackRest(Set(w, c, d), CloseConnection(c));
    RequestObligations(w, c, d);
    RequestOrder(w, c, d);
  }

  lemma ConnOf(w: World, c: CId)
    requires Inv(w) && c in w.conns
    ensures ConnOk(w.conns[c])
  {
  }

  lemma CloseKeeps(w: World, c: CId)
    requires Inv(w) && c in w.conns
    ensures Inv(Close(w, c))
    ensures Close(w, c).conns[c].state != Open
  {
    hide Known, Objects, PoolOk, Obligations, Order;
    ConnOf(w, c);
    if AsksToClose(w.conns[c]) {
      RequestKeeps(w, c, CloseRequested(w.conns[c]));
    }
  }

  lemma DropSocketKeeps(w: World, c: CId)
    requires Inv(w) && c in w.conns && w.conns[c].socket != Gone
    ensures Inv(DropSocket(w, c))
  {
    hide Known, Objects, PoolOk, Obligations, Order;
    ConnOf(w, c);
    if AsksToClose(w.conns[c]) {
      RequestKeeps(w, c, SocketDropped(w.conns[c]));
    } else {
      SetKeeps(w, c, SocketDropped(w.conns[c]));
    }
  }

  lemma StartReadKeeps(w: World, c: CId, kind: Reading, threw: Option<bool>)
    requires Inv(w) && c in w.conns && w.conns[c].socket != Gone
    ensures Inv(StartRead(w, c, kind, threw))
  {
    hide Known, Objects, PoolOk, Obligations, Order;
    var d := w.conns[c].(pendingRead := w.conns[c].pendingRead + 1);
    ConnOf(w, c);
    match threw
    case None => SetKeeps(w, c, d.(reading := kind));
    case Some(closes) =>
      SetKeeps(w, c, d);
      if closes { CloseKeeps(Set(w, c, d), c); }
  }

  // A failed read ends in close(): handleReadError makes it, or its caller after an aborted read.
  lemma ReadFailureKeeps(w: World, c: CId, e: Error)
    requires Inv(w) && c in w.conns
    ensures Inv(Close(ReadFailed(w, c, e), c))
    ensures ReadFailed(w, c, e).conns[c].readError
  {
    hide Known, Objects, PoolOk, Obligations, Order;
    ConnOf(w, c);
    var w1 := ReadFailed(w, c, e);
    var r := w.conns[c].(readError := true);
    if e != Aborted {
      CloseKeeps(w, c);
      var w2 := Close(w, c);
      ConnOf(w2, c);
      SetKeeps(w2, c, w2.conns[c].(readError := true));
    } else if AsksToClose(w.conns[c]) {
      RequestKeeps(w, c, CloseRequested(r));
      assert Close(w1, c) == Requested(w, c, CloseRequested(r));
    } else {
      SetKeeps(w, c, r);
    }
  }
}
