/** The callbacks run by the dispatcher keep the invariant. A callback that is being run is a token
    that has left the queue and is still owed. */
module WorldTaskProofs {
  import opened Wrappers
  import opened ConnectionState
  import opened World
  import opened WorldSteps
  import opened WorldInvariant
  import opened WorldConnProofs

  ghost predicate TokensOk(tokens: multiset<Task>, w: World) {
    && ReleaseTokens(tokens, w.pool, InHand(w.pc))
    && CloseTokens(tokens, w.conns)
    && ConnTokens(tokens, w.conns)
    && ProtoTokens(tokens, w.protos)
  }

  ghost predicate Owing(w: World, owed: multiset<Task>) {
    TokensOk(Tokens(w.tasks, w.pc, w.events) + owed, w)
  }

  // The invariant while the tasks in `owed` are being run.
  ghost predicate InvOwing(w: World, owed: multiset<Task>) {
    Known(w) && Objects(w) && PoolOk(w) && Owing(w, owed) && Order(w) && w.alarms == [] && !w.pc.Running?
  }

  lemma NothingOwed(w: World)
    requires InvOwing(w, multiset{})
    ensures Inv(w)
  {
    hide Known, Objects, PoolOk, Order;
    assert Tokens(w.tasks, w.pc, w.events) + multiset{} == Tokens(w.tasks, w.pc, w.events);
  }

  lemma ShorterLine(t: Task, tasks: seq<Task>, protos: map<PId, Proto>)
    requires Delegates([t] + tasks, protos)
    ensures Delegates(tasks, protos)
    ensures t.CloseConnection? ==>
      forall j :: 0 <= j < |tasks| && tasks[j].Delegate? && tasks[j].p in protos ==>
        protos[tasks[j].p].connection != Some(t.c)
  {
    var line := [t] + tasks;
    assert line[0] == t;
    forall j | 0 <= j < |tasks| ensures tasks[j] == line[j + 1] {
    }
    forall i, j | 0 <= i < j < |tasks| && tasks[i].CloseConnection? && tasks[j].Delegate? && tasks[j].p in protos
      ensures protos[tasks[j].p].connection != Some(tasks[i].c)
    {
      assert line[i + 1] == tasks[i] && line[j + 1] == tasks[j];
    }
    forall j | 0 <= j < |tasks| && tasks[j].Delegate? && tasks[j].p in protos && t.CloseConnection?
      ensures protos[tasks[j].p].connection != Some(t.c)
    {
      assert line[0] == t && line[j + 1] == tasks[j];
    }
  }

  // An owed callback is scheduled again, or done with.
  lemma OwedToken(tasks: seq<Task>, pc: Pc, events: multiset<Task>, owed: multiset<Task>, t: Task)
    ensures Tokens(tasks, pc, events + multiset{t}) + owed == Tokens(tasks, pc, events) + (owed + multiset{t})
    ensures Tokens(tasks, pc, events) + owed == Tokens(tasks, pc, events) + (owed + multiset{t}) - multiset{t}
    ensures (Tokens(tasks, pc, events) + (owed + multiset{t}))[t] >= 1
  {
  }

  lemma NotClose(tokens: multiset<Task>, conns: map<CId, Conn>, t: Task)
    requires CloseTokens(tokens, conns) && !t.CloseConnection?
    ensures CloseTokens(tokens + multiset{t}, conns) && CloseTokens(tokens - multiset{t}, conns)
  {
  }

  lemma NotConn(tokens: multiset<Task>, conns: map<CId, Conn>, t: Task)
    requires ConnTokens(tokens, conns) && !t.ReleaseConnection?
    ensures ConnTokens(tokens + multiset{t}, conns) && ConnTokens(tokens - multiset{t}, conns)
  {
  }

  // The popped task leaves the dispatcher's variable and becomes owed.
  lemma BeginTokens(w: World)
    requires Known(w) && Obligations(w) && w.pc.Running?
    ensures Owing(GoTo(w, SendQueued), multiset{w.pc.task})
  {
    var w0 := GoTo(w, SendQueued);
    assert Tokens(w0.tasks, w0.pc, w0.events) + multiset{w.pc.task} == Tokens(w.tasks, w.pc, w.events);
    hide Known, Tokens, ReleaseTokens, CloseTokens, ConnTokens, ProtoTokens;
  }

  lemma BeginRest(w: World)
    requires Known(w) && Objects(w) && PoolOk(w) && Order(w) && w.pc.Running?
    ensures Objects(GoTo(w, SendQueued)) && PoolOk(GoTo(w, SendQueued)) && Order(GoTo(w, SendQueued))
    ensures Delegates([w.pc.task] + w.tasks, w.protos)
  {
    var w0 := GoTo(w, SendQueued);
    assert Line(w.tasks, w.pc) == [w.pc.task] + w.tasks;
    assert Line(w0.tasks, w0.pc) == w.tasks;
    ShorterLine(w.pc.task, w.tasks, w.protos);
    hide Known, Line, Delegates, Partition, Headers, Writes, Events, OnePlace;
  }

  lemma BeginRun(w: World)
    requires Inv(w) && w.pc.Running?
    ensures InvOwing(GoTo(w, SendQueued), multiset{w.pc.task})
    ensures Delegates([w.pc.task] + w.tasks, w.protos)
  {
    hide Known, Objects, PoolOk, Obligations, Order, Owing;
    BeginTokens(w);
    BeginRest(w);
  }

  // ----- releaseProtocol -----

  lemma DeadProto(conns: map<CId, Conn>, protos: map<PId, Proto>, owner: map<MId, Owner>, p: PId, q: Proto)
    requires ProtoCounts(protos, owner) && OwnersAlive(conns, protos, owner)
    requires p in protos && protos[p].refCount <= 0 && q.refCount == protos[p].refCount
    ensures ProtoCounts(protos[p := q], owner) && OwnersAlive(conns, protos[p := q], owner)
  {
    assert |ProtoRefs(owner, p)| == 0;
    assert forall m :: m in owner && owner[m].p == p ==> m in ProtoRefs(owner, p);
  }

  lemma DeadLinks(conns: map<CId, Conn>, protos: map<PId, Proto>, p: PId, q: Proto)
    requires Links(conns, protos) && p in protos && protos[p].connection.None? && protos[p].deletions == 0
    requires q.connection.None? && q.deletions == 1
    ensures Links(conns, protos[p := q])
  {
  }

  lemma ReleaseProtoObjects(w: World, p: PId)
    requires Known(w) && Objects(w) && p in w.protos && w.protos[p].connection.None? && w.protos[p].deletions == 0
    ensures Objects(ReleaseProto(w, p))
  {
    hide Known, ConnsOk, Manager, Links, ProtoCounts, ConnCounts, OwnersAlive;
    var q := w.protos[p].(connection := None, deletions := w.protos[p].deletions + 1);
    if w.protos[p].refCount <= 0 {
      DeadProto(w.conns, w.protos, w.pool.owner, p, q);
      DeadLinks(w.conns, w.protos, p, q);
    }
  }

  lemma DeadToken(tokens: multiset<Task>, protos: map<PId, Proto>, p: PId, q: Proto)
    requires ProtoTokens(tokens, protos) && tokens[ReleaseProtocol(p)] >= 1 && q.deletions == 1
    ensures p in protos && protos[p].connection.None? && protos[p].deletions == 0
    ensures ProtoTokens(tokens - multiset{ReleaseProtocol(p)}, protos[p := q])
  {
  }

  lemma ReleaseProtoTokens(w: World, p: PId, owed: multiset<Task>)
    requires Known(w) && Owing(w, owed + multiset{ReleaseProtocol(p)}) && p in w.protos && !w.pc.Running?
    ensures w.protos[p].connection.None? && w.protos[p].deletions == 0
    ensures Owing(ReleaseProto(w, p), owed)
  {
    var t := ReleaseProtocol(p);
    var tokens := Tokens(w.tasks, w.pc, w.events) + (owed + multiset{t});
    OwedToken(w.tasks, w.pc, w.events, owed, t);
    hide Tokens, Known;
    var q := w.protos[p].(connection := None, deletions := 1);
    DeadToken(tokens, w.protos, p, q);
    NotRelease(tokens, w.pool, InHand(w.pc), t);
    NotClose(tokens, w.conns, t);
    NotConn(tokens, w.conns, t);
    hide ReleaseTokens, CloseTokens, ConnTokens, ProtoTokens;
  }

  lemma ReleaseProtoRest(w: World, p: PId)
    requires Known(w) && PoolOk(w) && Order(w) && p in w.protos && w.protos[p].connection.None? && !w.pc.Delegating?
    ensures PoolOk(ReleaseProto(w, p)) && Order(ReleaseProto(w, p))
  {
    hide Known, Line, Partition, Headers, Writes, OnePlace;
  }

  // releaseProtocol() of a detached protocol: rescheduled while messages refer to it, else deleted.
  lemma ReleaseProtoKeeps(w: World, p: PId, owed: multiset<Task>)
    requires InvOwing(w, owed + multiset{ReleaseProtocol(p)}) && p in w.protos && !w.pc.Delegating?
    ensures InvOwing(ReleaseProto(w, p), owed)
    ensures w.protos[p].deletions == 0
  {
    hide Known, Objects, PoolOk, Owing, Order;
    ReleaseProtoTokens(w, p, owed);
    ReleaseProtoObjects(w, p);
    ReleaseProtoRest(w, p);
  }

  // ----- releaseConnection -----

  lemma DeadConn(conns: map<CId, Conn>, protos: map<PId, Proto>, owner: map<MId, Owner>, c: CId, d: Conn)
    requires ConnCounts(conns, owner) && OwnersAlive(conns, protos, owner)
    requires c in conns && conns[c].refCount <= 0 && d.refCount == conns[c].refCount
    ensures ConnCounts(conns[c := d], owner) && OwnersAlive(conns[c := d], protos, owner)
  {
    assert |ConnRefs(owner, c)| == 0;
    assert forall m :: m in owner && owner[m].c == c ==> m in ConnRefs(owner, c);
  }

  lemma StopPosted(conns: map<CId, Conn>, stops: multiset<CId>, manager: seq<CId>, c: CId, d: Conn)
    requires Manager(conns, stops, manager) && ConnsOk(conns) && c in conns
    requires conns[c].stopPosts == 0 && conns[c].state == Closed && d == conns[c].(stopPosts := 1)
    ensures Manager(conns[c := d], stops + multiset{c}, manager) && ConnsOk(conns[c := d])
  {
    assert ConnOk(conns[c]);
  }

  lemma SameProtocolLinks(conns: map<CId, Conn>, protos: map<PId, Proto>, c: CId, d: Conn)
    requires Links(conns, protos) && c in conns && d.protocol == conns[c].protocol
    ensures Links(conns[c := d], protos)
  {
  }

  lemma ReleaseConnObjects(w: World, c: CId)
    requires Known(w) && Objects(w) && c in w.conns && w.conns[c].state == Closed && w.conns[c].stopPosts == 0
    ensures Objects(ReleaseConn(w, c))
  {
    hide Known, ConnsOk, Manager, Links, ProtoCounts, ConnCounts, OwnersAlive;
    var d := w.conns[c].(stopPosts := w.conns[c].stopPosts + 1);
    if w.conns[c].refCount <= 0 {
      DeadConn(w.conns, w.protos, w.pool.owner, c, d);
      StopPosted(w.conns, w.stops, w.manager, c, d);
      SameProtocolLinks(w.conns, w.protos, c, d);
    }
  }

  lemma StopToken(tokens: multiset<Task>, conns: map<CId, Conn>, c: CId, d: Conn)
    requires ConnTokens(tokens, conns) && CloseTokens(tokens, conns)
    requires tokens[ReleaseConnection(c)] >= 1 && d.stopPosts == 1 && d.state == Closed
    ensures c in conns && conns[c].state == Closed && conns[c].stopPosts == 0
    ensures ConnTokens(tokens - multiset{ReleaseConnection(c)}, conns[c := d])
    ensures CloseTokens(tokens - multiset{ReleaseConnection(c)}, conns[c := d])
  {
  }

  lemma ReleaseConnTokens(w: World, c: CId, owed: multiset<Task>)
    requires Known(w) && Owing(w, owed + multiset{ReleaseConnection(c)}) && c in w.conns && !w.pc.Running?
    ensures w.conns[c].state == Closed && w.conns[c].stopPosts == 0
    ensures Owing(ReleaseConn(w, c), owed)
  {
    hide Tokens, Known, InHand, ReleaseTokens, CloseTokens, ConnTokens, ProtoTokens;
    var t := ReleaseConnection(c);
    var tokens := Tokens(w.tasks, w.pc, w.events) + (owed + multiset{t});
    OwedToken(w.tasks, w.pc, w.events, owed, t);
    StopToken(tokens, w.conns, c, w.conns[c].(stopPosts := 1, state := Closed));
    NotRelease(tokens, w.pool, InHand(w.pc), t);
    NotProto(tokens, w.protos, t);
  }

  lemma ReleaseConnRest(w: World, c: CId)
    requires Known(w) && PoolOk(w) && Order(w) && c in w.conns && w.conns[c].state == Closed
    ensures PoolOk(ReleaseConn(w, c)) && Order(ReleaseConn(w, c))
  {
    hide Known, Line, Partition, Headers, OnePlace, Delegates;
  }

  // releaseConnection() of a closed connection: rescheduled while messages refer to it, else onStop.
  lemma ReleaseConnKeeps(w: World, c: CId, owed: multiset<Task>)
    requires InvOwing(w, owed + multiset{ReleaseConnection(c)}) && c in w.conns
    ensures InvOwing(ReleaseConn(w, c), owed)
    ensures w.conns[c].stopPosts == 0
  {
    hide Known, Objects, PoolOk, Owing, Order;
    ReleaseConnTokens(w, c, owed);
    ReleaseConnObjects(w, c);
    ReleaseConnRest(w, c);
  }

  // ----- closeConnection -----

  lemma UnlinkLinks(conns: map<CId, Conn>, protos: map<PId, Proto>, c: CId, p: PId)
    requires Links(conns, protos) && c in conns && conns[c].protocol == Some(p)
    ensures p in protos && protos[p].connection == Some(c) && protos[p].deletions == 0
    ensures Links(conns[c := conns[c].(protocol := None)], protos[p := protos[p].(connection := None)])
  {
  }

  lemma UnlinkCounts(conns: map<CId, Conn>, protos: map<PId, Proto>, owner: map<MId, Owner>, c: CId, p: PId)
    requires ProtoCounts(protos, owner) && ConnCounts(conns, owner) && OwnersAlive(conns, protos, owner)
    requires c in conns && p in protos
    ensures ProtoCounts(protos[p := protos[p].(connection := None)], owner)
    ensures ConnCounts(conns[c := conns[c].(protocol := None)], owner)
    ensures OwnersAlive(conns[c := conns[c].(protocol := None)], protos[p := protos[p].(connection := None)], owner)
  {
    hide ProtoRefs, ConnRefs;
  }

  lemma UnlinkObjects(w: World, c: CId, p: PId)
    requires Known(w) && Objects(w) && c in w.conns
    requires w.conns[c].protocol == Some(p) && w.conns[c].state == RequestClose
    ensures p in w.protos && Objects(Unlink(w, c, p)) && w.protos[p].connection == Some(c) && w.protos[p].deletions == 0
  {
    hide Known, Links, ProtoCounts, ConnCounts, OwnersAlive;
    UnlinkLinks(w.conns, w.protos, c, p);
    UnlinkCounts(w.conns, w.protos, w.pool.owner, c, p);
    assert ConnOk(w.conns[c]);
  }

  lemma UnlinkToken(tokens: multiset<Task>, conns: map<CId, Conn>, protos: map<PId, Proto>, c: CId, p: PId)
    requires ProtoTokens(tokens, protos) && ConnTokens(tokens, conns) && CloseTokens(tokens, conns)
    requires p in protos && protos[p].connection.Some? && protos[p].deletions == 0 && c in conns
    ensures ProtoTokens(tokens + multiset{ReleaseProtocol(p)}, protos[p := protos[p].(connection := None)])
    ensures ConnTokens(tokens, conns[c := conns[c].(protocol := None)])
    ensures CloseTokens(tokens, conns[c := conns[c].(protocol := None)])
  {
  }

  lemma UnlinkTokens(w: World, c: CId, p: PId, owed: multiset<Task>)
    requires Known(w) && Owing(w, owed) && c in w.conns && p in w.protos
    requires w.protos[p].connection == Some(c) && w.protos[p].deletions == 0
    ensures Owing(Unlink(w, c, p), owed + multiset{ReleaseProtocol(p)})
  {
    var t := ReleaseProtocol(p);
    var tokens := Tokens(w.tasks, w.pc, w.events) + owed;
    UnlinkToken(tokens, w.conns, w.protos, c, p);
    NotRelease(tokens, w.pool, InHand(w.pc), t);
    NotClose(tokens, w.conns[c := w.conns[c].(protocol := None)], t);
    NotConn(tokens, w.conns[c := w.conns[c].(protocol := None)], t);
    assert Tokens(w.tasks, w.pc, w.events) + (owed + multiset{t}) == tokens + multiset{t};
    hide Known, Tokens, ReleaseTokens, CloseTokens, ConnTokens, ProtoTokens;
  }

  lemma UnlinkLine(tasks: seq<Task>, protos: map<PId, Proto>, p: PId)
    requires Delegates(tasks, protos) && p in protos
    requires forall j :: 0 <= j < |tasks| && tasks[j].Delegate? ==> tasks[j].p != p
    ensures Delegates(tasks, protos[p := protos[p].(connection := None)])
  {
  }

  lemma UnlinkWrites(conns: map<CId, Conn>, owner: map<MId, Owner>, writes: set<MId>, c: CId)
    requires Writes(conns, owner, writes) && c in conns
    ensures Writes(conns[c := conns[c].(protocol := None)], owner, writes)
  {
  }

  lemma UnlinkRest(w: World, c: CId, p: PId)
    requires Known(w) && PoolOk(w) && Order(w) && c in w.conns && p in w.protos && !w.pc.Delegating? && !w.pc.Running?
    requires forall j :: 0 <= j < |w.tasks| && w.tasks[j].Delegate? ==> w.tasks[j].p != p
    ensures PoolOk(Unlink(w, c, p)) && Order(Unlink(w, c, p))
  {
    assert Line(w.tasks, w.pc) == w.tasks;
    UnlinkLine(w.tasks, w.protos, p);
    UnlinkWrites(w.conns, w.pool.owner, w.pool.writes, c);
    hide Known, Line, Partition, Headers, OnePlace, Writes, Delegates, Events;
  }

  // The protocol of a connection whose close is being run is told and released.
  lemma DetachKeeps(w: World, c: CId, owed: multiset<Task>)
    requires InvOwing(w, owed) && c in w.conns && w.conns[c].state == RequestClose && !w.pc.Delegating?
    requires forall j :: 0 <= j < |w.tasks| && w.tasks[j].Delegate? && w.tasks[j].p in w.protos ==>
      w.protos[w.tasks[j].p].connection != Some(c)
    ensures InvOwing(DetachProtocol(w, c), owed)
  {
    hide Known, Objects, PoolOk, Owing, Order;
    if w.conns[c].protocol.Some? {
      var p := w.conns[c].protocol.value;
      UnlinkObjects(w, c, p);
      UnlinkTokens(w, c, p, owed);
      UnlinkRest(w, c, p);
      ReleaseProtoKeeps(Unlink(w, c, p), p, owed);
    }
  }

  lemma CloseBodyToken(tokens: multiset<Task>, conns: map<CId, Conn>, c: CId, d: Conn, owed: multiset<Task>)
    requires CloseTokens(tokens + multiset{CloseConnection(c)}, conns)
    requires ConnTokens(tokens + multiset{CloseConnection(c)}, conns)
    requires c in conns && conns[c].state == RequestClose && d.stopPosts == 0
    requires (d.state == Closing || d.state == Closed)
    requires owed == if d.state == Closed then multiset{ReleaseConnection(c)} else multiset{}
    ensures CloseTokens(tokens + owed, conns[c := d]) && ConnTokens(tokens + owed, conns[c := d])
  {
    var u := tokens + multiset{CloseConnection(c)};
    assert u[CloseConnection(c)] == 1;
    assert u[ReleaseConnection(c)] == 0;
    forall x ensures (tokens + owed)[CloseConnection(x)] == if x == c then 0 else u[CloseConnection(x)] {
    }
    forall x ensures (tokens + owed)[ReleaseConnection(x)]
      == u[ReleaseConnection(x)] + (if x == c && d.state == Closed then 1 else 0) {
    }
  }

  lemma CloseBodyTokens(w: World, c: CId)
    requires Known(w) && Owing(w, multiset{CloseConnection(c)}) && c in w.conns && w.conns[c].protocol.None?
    requires w.conns[c].state == RequestClose && w.conns[c].stopPosts == 0
    ensures var d := CloseBody(w.conns[c]);
      Owing(Set(w, c, d), if d.state == Closed then multiset{ReleaseConnection(c)} else multiset{})
  {
    var t, r := CloseConnection(c), ReleaseConnection(c);
    var d := CloseBody(w.conns[c]);
    var owed := if d.state == Closed then multiset{r} else multiset{};
    var tokens := Tokens(w.tasks, w.pc, w.events);
    CloseBodyToken(tokens, w.conns, c, d, owed);
    NotRelease(tokens + multiset{t}, w.pool, InHand(w.pc), t);
    NotProto(tokens + multiset{t}, w.protos, t);
    assert tokens + multiset{t} - multiset{t} == tokens;
    NotRelease(tokens, w.pool, InHand(w.pc), r);
    NotProto(tokens, w.protos, r);
    assert tokens + multiset{} == tokens;
    hide Known, Tokens, ReleaseTokens, CloseTokens, ConnTokens, ProtoTokens;
  }

  lemma CloseBodyKeeps(w: World, c: CId)
    requires InvOwing(w, multiset{CloseConnection(c)}) && c in w.conns && w.conns[c].protocol.None?
    requires w.conns[c].state == RequestClose
    ensures var d := CloseBody(w.conns[c]);
      InvOwing(Set(w, c, d), if d.state == Closed then multiset{ReleaseConnection(c)} else multiset{})
  {
    hide Known, Objects, PoolOk, Owing, Order;
    ConnIn(w, c);
    var d := CloseBody(w.conns[c]);
    SetObjects(w, c, d);
    SetPool(w, c, d);
    SetOrder(w, c, d);
    CloseBodyTokens(w, c);
  }

  lemma ConnIn(w: World, c: CId)
    requires Objects(w) && c in w.conns
    ensures ConnOk(w.conns[c])
    ensures w.conns[c].stopPosts == 0 ==> c in w.manager
  {
  }

  lemma RequestedState(w: World, c: CId)
    requires Owing(w, multiset{CloseConnection(c)})
    ensures c in w.conns && w.conns[c].state == RequestClose
  {
    assert (Tokens(w.tasks, w.pc, w.events) + multiset{CloseConnection(c)})[CloseConnection(c)] >= 1;
  }

  lemma RunCloseKeeps(w: World, c: CId)
    requires Inv(w) && w.pc == Running(CloseConnection(c))
    ensures c in w.conns && Inv(CloseConn(TouchConnection(GoTo(w, SendQueued), c), c))
  {
    hide Known, Objects, PoolOk, Obligations, Owing, Order;
    BeginRun(w);
    ShorterLine(w.pc.task, w.tasks, w.protos);
    hide Delegates;
    var w0 := GoTo(w, SendQueued);
    RequestedState(w0, c);
    ConnIn(w0, c);
    DetachKeeps(w0, c, multiset{CloseConnection(c)});
    var w1 := DetachProtocol(w0, c);
    CloseBodyKeeps(w1, c);
    var w2 := Set(w1, c, CloseBody(w1.conns[c]));
    if w2.conns[c].state == Closed {
      assert multiset{} + multiset{ReleaseConnection(c)} == multiset{ReleaseConnection(c)};
      ReleaseConnKeeps(w2, c, multiset{});
      NothingOwed(ReleaseConn(w2, c));
    } else {
      NothingOwed(w2);
    }
  }

  lemma RunReleaseConnKeeps(w: World, c: CId)
    requires Inv(w) && w.pc == Running(ReleaseConnection(c)) && c in w.conns
    ensures Inv(ReleaseConn(TouchConnection(GoTo(w, SendQueued), c), c))
  {
    hide Known, Objects, PoolOk, Obligations, Owing, Order;
    BeginRun(w);
    var w0 := GoTo(w, SendQueued);
    assert multiset{} + multiset{ReleaseConnection(c)} == multiset{ReleaseConnection(c)};
    ReleaseConnKeeps(w0, c, multiset{});
    ConnIn(w0, c);
    NothingOwed(ReleaseConn(w0, c));
  }

  lemma RunReleaseProtoKeeps(w: World, p: PId)
    requires Inv(w) && w.pc == Running(ReleaseProtocol(p)) && p in w.protos
    ensures Inv(ReleaseProto(TouchProtocol(GoTo(w, SendQueued), p), p))
  {
    hide Known, Objects, PoolOk, Obligations, Owing, Order;
    BeginRun(w);
    var w0 := GoTo(w, SendQueued);
    assert multiset{} + multiset{ReleaseProtocol(p)} == multiset{ReleaseProtocol(p)};
    ReleaseProtoKeeps(w0, p, multiset{});
    NothingOwed(ReleaseProto(w0, p));
  }
}
