/** Every step keeps the invariant, and leaves no message in a local. */
module WorldStepProofs {
  import opened ConnectionState
  import opened World
  import opened WorldSteps
  import opened WorldInvariant
  import opened WorldConnProofs
  import opened WorldSendProofs
  import opened WorldPoolProofs

  // ----- sendAll -----

  lemma HeadTail(s: seq<MId>)
    requires s != []
    ensures multiset(s) == multiset{s[0]} + multiset(s[1..])
    ensures multiset([s[0]] + s[1..]) == multiset(s)
  {
    assert s == [s[0]] + s[1..];
  }

  // The head of a queue leaves it, and has no other place.
  lemma FewerQueued(a: seq<MId>, q: seq<MId>, writes: set<MId>)
    requires OnePlace(a, q, writes) && q != []
    ensures OnePlace(a, q[1..], writes) && Places(a, q, writes) == Places(a, q[1..], writes) + multiset{q[0]}
    ensures Places(a, q[1..], writes)[q[0]] == 0
  {
    HeadTail(q);
    var p, r := Places(a, q, writes), Places(a, q[1..], writes);
    assert p == r + multiset{q[0]};
    assert p[q[0]] <= 1;
    hide Places;
    forall m ensures r[m] <= 1 {
      assert p[m] <= 1;
    }
  }

  lemma FewerFront(a: seq<MId>, q: seq<MId>, writes: set<MId>)
    requires OnePlace(a, q, writes) && a != []
    ensures OnePlace(a[1..], q, writes) && Places(a, q, writes) == Places(a[1..], q, writes) + multiset{a[0]}
    ensures Places(a[1..], q, writes)[a[0]] == 0
  {
    HeadTail(a);
    var p, r := Places(a, q, writes), Places(a[1..], q, writes);
    assert p == r + multiset{a[0]};
    assert p[a[0]] <= 1;
    hide Places;
    forall m ensures r[m] <= 1 {
      assert p[m] <= 1;
    }
  }

  // The head of m_addQueue moves to either end of m_autoSend.
  lemma MovedPlaces(a: seq<MId>, q: seq<MId>, writes: set<MId>, front: bool)
    requires OnePlace(a, q, writes) && q != []
    ensures var b := if front then [q[0]] + a else a + [q[0]];
      OnePlace(b, q[1..], writes) && Places(b, q[1..], writes) == Places(a, q, writes)
  {
    HeadTail(q);
    var b := if front then [q[0]] + a else a + [q[0]];
    assert multiset(b) == multiset(a) + multiset{q[0]};
    assert Places(b, q[1..], writes) == Places(a, q, writes);
    hide Places;
  }

  // What a message just taken out of m_addQueue or m_autoSend looks like.
  lemma TakenHead(w: World, m: MId)
    requires Known(w) && PoolOk(w) && (m in w.pool.addQueue || m in w.pool.autoSend)
    ensures m in w.pool.owner && m in w.pool.header && w.pool.header[m].framed == 0
  {
  }

  lemma TakeQueuedPool(w: World)
    requires Known(w) && PoolOk(w) && w.pool.addQueue != [] && !w.pc.Delegating?
    ensures PoolOk(TakeQueued(w)) && Unplaced(TakeQueued(w), w.pool.addQueue[0])
  {
    hide Known, Places, OnePlace, Writes;
    TakenHead(w, w.pool.addQueue[0]);
    FewerQueued(w.pool.autoSend, w.pool.addQueue, w.pool.writes);
  }

  lemma TakeFrontPool(w: World)
    requires Known(w) && PoolOk(w) && w.pool.autoSend != [] && !w.pc.Delegating?
    ensures PoolOk(TakeFront(w)) && Unplaced(TakeFront(w), w.pool.autoSend[0])
  {
    hide Known, Places, OnePlace, Writes;
    TakenHead(w, w.pool.autoSend[0]);
    FewerFront(w.pool.autoSend, w.pool.addQueue, w.pool.writes);
  }

  lemma MoveHeaders(pool: Pool, autoSend: seq<MId>)
    requires Headers(pool) && pool.addQueue != []
    requires forall m :: m in autoSend ==> m in pool.autoSend || m == pool.addQueue[0]
    ensures Headers(pool.(addQueue := pool.addQueue[1..], autoSend := autoSend))
  {
  }

  lemma MovePool(w: World, front: bool)
    requires Known(w) && PoolOk(w) && w.pool.addQueue != [] && !w.pc.Delegating?
    ensures PoolOk(MoveStep(w, front))
  {
    hide Known, Places, OnePlace, Writes, Headers;
    MovedPlaces(w.pool.autoSend, w.pool.addQueue, w.pool.writes, front);
    MoveHeaders(w.pool, MoveStep(w, front).pool.autoSend);
  }

  lemma SplitHead(s: seq<MId>, m: MId)
    requires s != []
    ensures m in s <==> m == s[0] || m in s[1..]
  {
  }

  lemma MoveKeeps(w: World, front: bool)
    requires Inv(w) && w.pc == SendQueued && w.pool.addQueue != []
    ensures Inv(MoveStep(w, front)) && MoveStep(w, front).pool.held == w.pool.held
  {
    hide Known, Objects, PoolOk, Obligations, Order;
    var w' := MoveStep(w, front);
    MovePool(w, front);
    forall m ensures Referenced(w.pool, InHand(w.pc), m) <==> Referenced(w'.pool, InHand(w.pc), m) {
      SplitHead(w.pool.addQueue, m);
    }
    SameReferences(w, w');
    PoolOnly(w, w');
  }

  lemma TakeQueuedKeeps(w: World)
    requires Inv(w) && !w.pc.Delegating? && w.pool.addQueue != []
    ensures Inv(TakeQueued(w)) && Unplaced(TakeQueued(w), w.pool.addQueue[0])
  {
    hide Known, Objects, PoolOk, Obligations, Order, Unplaced;
    var w' := TakeQueued(w);
    TakeQueuedPool(w);
    forall m ensures Referenced(w.pool, InHand(w.pc), m) <==> Referenced(w'.pool, InHand(w.pc), m) {
      SplitHead(w.pool.addQueue, m);
    }
    SameReferences(w, w');
    PoolOnly(w, w');
  }

  lemma TakeFrontKeeps(w: World)
    requires Inv(w) && !w.pc.Delegating? && w.pool.autoSend != []
    ensures Inv(TakeFront(w)) && Unplaced(TakeFront(w), w.pool.autoSend[0])
  {
    hide Known, Objects, PoolOk, Obligations, Order, Unplaced;
    var w' := TakeFront(w);
    TakeFrontPool(w);
    forall m ensures Referenced(w.pool, InHand(w.pc), m) <==> Referenced(w'.pool, InHand(w.pc), m) {
      SplitHead(w.pool.autoSend, m);
    }
    SameReferences(w, w');
    PoolOnly(w, w');
  }

  lemma ExpireKeeps(w: World)
    requires Inv(w) && w.pc == SendQueued && w.pool.addQueue != [] && w.pool.held == {}
    ensures Inv(ExpireStep(w)) && ExpireStep(w).pool.held == {}
  {
    hide Known, Objects, PoolOk, Obligations, Order;
    var m := w.pool.addQueue[0];
    var w1 := TakeQueued(w);
    TakeQueuedKeeps(w);
    OwnerLives(w, m);
    FrameKeeps(w1, m);
    DropKeeps(Frame(w1, m), m);
  }

  lemma FrontKeeps(w: World, threw: bool, forceSlow: bool)
    requires Inv(w) && w.pc == SendAuto && w.pool.autoSend != [] && w.pool.held == {}
    ensures Inv(FrontStep(w, threw, forceSlow)) && FrontStep(w, threw, forceSlow).pool.held == {}
  {
    hide Known, Objects, PoolOk, Obligations, Order;
    var m := w.pool.autoSend[0];
    TakeFrontKeeps(w);
    SendKeeps(TakeFront(w), m, threw, forceSlow);
    DropKeeps(Send(TakeFront(w), m, threw, forceSlow), m);
  }

  // ----- onWrite -----

  lemma WrittenPlaces(a: seq<MId>, q: seq<MId>, writes: set<MId>, m: MId)
    requires OnePlace(a, q, writes) && m in writes
    ensures OnePlace(a, q, writes - {m}) && forall n :: Places(a, q, writes - {m})[n] <= Places(a, q, writes)[n]
  {
    var p, r := Places(a, q, writes), Places(a, q, writes - {m});
    forall n ensures r[n] <= p[n] {
      assert multiset(writes - {m})[n] <= multiset(writes)[n];
    }
    hide Places;
    forall n ensures r[n] <= 1 {
      assert p[n] <= 1;
    }
  }

  lemma TakeWrittenPool(w: World, m: MId)
    requires Known(w) && PoolOk(w) && m in w.pool.owner && m in w.pool.writes && w.pool.owner[m].c in w.conns
    ensures PoolOk(TakeWritten(w, m))
    ensures forall n :: n in w.pool.writes - {m} && n in w.pool.owner ==> w.pool.owner[n].c != w.pool.owner[m].c
    ensures w.conns[w.pool.owner[m].c].state == Open ==> w.conns[w.pool.owner[m].c].pendingWrite == 1
  {
    hide Known, Places, OnePlace;
    WrittenPlaces(w.pool.autoSend, w.pool.addQueue, w.pool.writes, m);
  }

  lemma TakeWrittenKeeps(w: World, m: MId)
    requires Inv(w) && m in w.pool.owner && m in w.pool.writes && w.pool.owner[m].c in w.conns
    ensures Inv(TakeWritten(w, m))
  {
    hide Known, Objects, PoolOk, Obligations, Order;
    TakeWrittenPool(w, m);
    SameReferences(w, TakeWritten(w, m));
    PoolOnly(w, TakeWritten(w, m));
  }

  // With no write outstanding the counter may go down.
  lemma CountDownPool(w: World, c: CId, d: Conn)
    requires Known(w) && PoolOk(w) && c in w.conns && d.protocol == w.conns[c].protocol
    requires forall n :: n in w.pool.writes && n in w.pool.owner ==> w.pool.owner[n].c != c
    ensures PoolOk(Set(w, c, d))
  {
    hide Known, Partition, Headers, OnePlace;
  }

  lemma CountDownKeeps(w: World, c: CId)
    requires Inv(w) && c in w.conns && w.conns[c].state == Open && w.conns[c].pendingWrite == 1
    requires forall n :: n in w.pool.writes && n in w.pool.owner ==> w.pool.owner[n].c != c
    ensures Inv(Set(w, c, w.conns[c].(pendingWrite := w.conns[c].pendingWrite - 1)))
  {
    hide Known, Objects, PoolOk, Obligations, Order;
    ConnOf(w, c);
    var d := w.conns[c].(pendingWrite := w.conns[c].pendingWrite - 1);
    SetObjects(w, c, d);
    CountDownPool(w, c, d);
    SetObligations(w, c, d);
    SetOrder(w, c, d);
  }

  // A failed write ends in close(), made by handleWriteError or, for an aborted one, by onWrite.
  lemma WriteFailureKeeps(w: World, c: CId, e: Error)
    requires Inv(w) && c in w.conns && e != NoError && w.conns[c].socket != Gone
    ensures Inv(WriteResult(w, c, e))
  {
    hide Known, Objects, PoolOk, Obligations, Order;
    ConnOf(w, c);
    if e == Failed {
      CloseKeeps(w, c);
      var w1 := Close(w, c);
      ConnOf(w1, c);
      SetKeeps(w1, c, w1.conns[c].(writeError := true));
      DropSocketKeeps(Set(w1, c, w1.conns[c].(writeError := true)), c);
    } else {
      var d := w.conns[c].(writeError := true);
      if AsksToClose(w.conns[c]) {
        RequestKeeps(w, c, SocketDropped(d));
        assert DropSocket(Set(w, c, d), c) == Requested(w, c, SocketDropped(d));
      } else {
        SetKeeps(w, c, d);
        DropSocketKeeps(Set(w, c, d), c);
      }
    }
  }

  lemma WrittenKeeps(w: World, m: MId, e: Error)
    requires Inv(w) && m in w.pool.writes && w.pool.held == {}
    ensures m in w.pool.owner && Inv(WrittenStep(w, m, e)) && WrittenStep(w, m, e).pool.held == {}
  {
    hide Known, Objects, PoolOk, Obligations, Order;
    WriteOwner(w, m);
    OwnedHeader(w, m);
    var c := w.pool.owner[m].c;
    OwnerLives(w, m);
    TakeWrittenPool(w, m);
    TakeWrittenKeeps(w, m);
    var w1 := TakeWritten(w, m);
    ConnOf(w1, c);
    if e != NoError {
      WriteFailureKeeps(w1, c, e);
    } else if w1.conns[c].state != Open || w1.conns[c].writeError {
      DropSocketKeeps(w1, c);
    } else {
      CountDownKeeps(w1, c);
    }
    DropKeeps(WriteResult(w1, c, e), m);
  }

  lemma WriteOwner(w: World, m: MId)
    requires Known(w) && m in w.pool.writes
    ensures m in w.pool.owner
  {
  }

  // ----- dispatcher queue and scheduler -----

  lemma FireKeeps(w: World, t: Task)
    requires Inv(w) && t in w.events
    ensures Inv(FireStep(w, t)) && FireStep(w, t).pool == w.pool
  {
    hide Known, Objects, PoolOk, ReleaseTokens, CloseTokens, ConnTokens, ProtoTokens, Delegates;
    var w' := FireStep(w, t);
    assert Tokens(w'.tasks, w'.pc, w'.events) == Tokens(w.tasks, w.pc, w.events);
    FrontTask(w.tasks, w.pc, w.protos, t);
    FireRest(w, t);
  }

  lemma FireRest(w: World, t: Task)
    requires Known(w) && Objects(w) && PoolOk(w) && t in w.events
    ensures Objects(FireStep(w, t)) && PoolOk(FireStep(w, t))
  {
    hide Known;
  }

  lemma PopKeeps(w: World)
    requires Inv(w) && w.pc == Idle && w.tasks != []
    ensures Inv(PopStep(w)) && PopStep(w).pool == w.pool
  {
    hide Known, Objects, Delegates, Partition, Headers, OnePlace, Writes;
    hide ReleaseTokens, CloseTokens, ConnTokens, ProtoTokens;
    hide Tokens, Line;
    PopTokens(w.tasks, w.events);
    PopRest(w);
  }

  lemma PopTokens(tasks: seq<Task>, events: multiset<Task>)
    requires tasks != []
    ensures Tokens(tasks[1..], Running(tasks[0]), events) == Tokens(tasks, Idle, events)
    ensures Line(tasks[1..], Running(tasks[0])) == Line(tasks, Idle)
  {
    assert tasks == [tasks[0]] + tasks[1..];
  }

  lemma PopRest(w: World)
    requires Known(w) && Objects(w) && w.tasks != []
    ensures Objects(PopStep(w))
  {
    hide Known;
  }

  lemma GoToKeeps(w: World, pc: Pc)
    requires Inv(w) && !pc.Delegating? && !pc.Running? && !w.pc.Running? && InHand(w.pc) == {}
    ensures Inv(GoTo(w, pc)) && GoTo(w, pc).pool == w.pool
  {
    hide Known, Delegates, Partition, Headers, OnePlace, Writes, Events;
    hide ReleaseTokens, CloseTokens, ConnTokens, ProtoTokens;
    hide ProtoCounts, ConnCounts, Links, OwnersAlive, ConnsOk, Manager;
    assert Line(w.tasks, pc) == Line(w.tasks, w.pc);
  }

  lemma Erased(s: seq<CId>, c: CId)
    requires NoDup(s) && c in s
    ensures IndexOf(s, c).Some?
    ensures var i := IndexOf(s, c).value; var r := s[..i] + s[i + 1..];
      NoDup(r) && forall x :: x in r <==> x in s && x != c
  {
    var i := IndexOf(s, c).value;
    var r := s[..i] + s[i + 1..];
    hide NoDup;
    assert s == s[..i] + [c] + s[i + 1..];
    forall k | 0 <= k < |r| ensures r[k] == s[if k < i then k else k + 1] {
    }
    ErasedNoDup(s, r, i);
    ErasedMembers(s, r, i);
  }

  lemma ErasedNoDup(s: seq<CId>, r: seq<CId>, i: nat)
    requires NoDup(s) && i < |s| && |r| == |s| - 1
    requires forall k :: 0 <= k < |r| ==> r[k] == s[if k < i then k else k + 1]
    ensures NoDup(r)
  {
  }

  lemma ErasedMembers(s: seq<CId>, r: seq<CId>, i: nat)
    requires NoDup(s) && i < |s| && |r| == |s| - 1
    requires forall k :: 0 <= k < |r| ==> r[k] == s[if k < i then k else k + 1]
    ensures forall x :: x in r <==> x in s && x != s[i]
  {
    forall x | x in s && x != s[i] ensures x in r {
      var k :| 0 <= k < |s| && s[k] == x;
      assert r[if k < i then k else k - 1] == x;
    }
  }

  // onStop finds its connection in the manager's list.
  lemma StopObjects(conns: map<CId, Conn>, stops: multiset<CId>, manager: seq<CId>, c: CId)
    requires Manager(conns, stops, manager) && ConnsOk(conns) && c in conns && stops[c] >= 1
    ensures c in manager && conns[c].socket != Gone
    ensures IndexOf(manager, c).Some?
    ensures var i, d := IndexOf(manager, c).value, Stopped(conns[c]);
      Manager(conns[c := d], stops - multiset{c}, manager[..i] + manager[i + 1..]) && ConnsOk(conns[c := d])
  {
    hide NoDup;
    assert ConnOk(conns[c]);
    Erased(manager, c);
  }

  lemma StoppedObjects(conns: map<CId, Conn>, protos: map<PId, Proto>, owner: map<MId, Owner>, c: CId)
    requires ConnCounts(conns, owner) && OwnersAlive(conns, protos, owner) && Links(conns, protos) && c in conns
    ensures var r := conns[c := Stopped(conns[c])];
      ConnCounts(r, owner) && OwnersAlive(r, protos, owner) && Links(r, protos)
  {
    hide ConnRefs;
  }

  lemma StoppedPool(conns: map<CId, Conn>, pool: Pool, tokens: multiset<Task>, c: CId)
    requires Writes(conns, pool.owner, pool.writes) && CloseTokens(tokens, conns) && ConnTokens(tokens, conns)
    requires c in conns
    ensures var r := conns[c := Stopped(conns[c])];
      Writes(r, pool.owner, pool.writes) && CloseTokens(tokens, r) && ConnTokens(tokens, r)
  {
  }

  lemma StopRest(w: World, c: CId, w': World)
    requires Inv(w) && c in w.conns && Known(w')
    requires w' == w.(conns := w.conns[c := Stopped(w.conns[c])], stops := w'.stops, manager := w'.manager)
    requires Manager(w'.conns, w'.stops, w'.manager) && ConnsOk(w'.conns)
    ensures Inv(w')
  {
    hide Known, Partition, Headers, OnePlace, Writes, ReleaseTokens, CloseTokens, ConnTokens, ProtoTokens, Delegates;
    hide Tokens, Line, Manager, Links, ProtoCounts, ConnCounts, OwnersAlive, ConnsOk, Events;
    StoppedObjects(w.conns, w.protos, w.pool.owner, c);
    StoppedPool(w.conns, w.pool, Tokens(w.tasks, w.pc, w.events), c);
  }

  lemma StopKnown(w: World, c: CId)
    requires Known(w) && c in w.stops
    ensures c in w.conns
  {
  }

  lemma StopConnection(w: World, c: CId)
    requires Inv(w) && c in w.stops
    ensures c in w.conns && c in w.manager && w.conns[c].socket != Gone && IndexOf(w.manager, c).Some?
    ensures var r, i := w.conns[c := Stopped(w.conns[c])], IndexOf(w.manager, c).value;
      Manager(r, w.stops - multiset{c}, w.manager[..i] + w.manager[i + 1..]) && ConnsOk(r)
  {
    hide PoolOk, Obligations, Order, Known;
    StopKnown(w, c);
    StopObjects(w.conns, w.stops, w.manager, c);
  }

  lemma StopKeeps(w: World, c: CId)
    requires Inv(w) && c in w.stops
    ensures c in w.conns && c in w.manager && Inv(StopConn(w, c)) && StopConn(w, c).pool == w.pool
  {
    hide Known, Objects, PoolOk, Obligations, Order;
    StopConnection(w, c);
    StopRest(w, c, StopConn(w, c));
  }
}
